/** What the token books say besides their sums: which rows count, to which day, model and origin
    they are billed, and the figures of a session. */
module TokenFigures {
  import opened Wrappers
  import opened TokenRollup

  // ----- days and the window -----

  /** The first ten characters of a timestamp are its day; a window starts with the day it names, and
      a row without a timestamp is always in it. */
  lemma WindowByDay(since: string, timestamp: string, day: string)
    requires day <= timestamp && |day| <= 10 && (|day| == 10 || day == timestamp)
    ensures InWindow(since, timestamp) <==> since == "" || timestamp == "" || day == since || Text.Before(since, day)
    ensures DayOf(timestamp) == if timestamp == "" then "unknown" else day
  {
    Text.BeforeIsTotal(day, since);
    assert timestamp[..|day|] == day;
    assert |day| == |timestamp| ==> timestamp[..|day|] == timestamp;
  }

  // ----- usage reports -----

  predicate HasId(row: ClaudeRow) { row.messageId.Some? || row.requestId.Some? }

  /** A report without ids has its uuid, or its place, for a key, which looks like a message called "row". */
  predicate LooksLike(row: ClaudeRow, other: ClaudeRow) {
    row.messageId == Some("row") && other.uuid != "" && row.requestId == Some(other.uuid)
  }

  /** Two rows are one report exactly when their ids agree, or they have none and their uuids do, or
      the ids of one spell the uuid of the other. */
  lemma OneReportExactlyWhen(a: ClaudeRow, i: nat, b: ClaudeRow, j: nat)
    ensures KeyOf(a, i) == KeyOf(b, j) <==>
            if HasId(a) && HasId(b) then a.messageId == b.messageId && a.requestId == b.requestId
            else if HasId(a) then LooksLike(a, b)
            else if HasId(b) then LooksLike(b, a)
            else a.uuid == b.uuid && (a.uuid == "" ==> i == j)
  {
  }

  /** A row of the file's own session, or of whatever session where the file is a subagent's. */
  ghost predicate OfSession(f: ClaudeFile, row: ClaudeRow) {
    f.isSubagent || row.sessionId == "" || row.sessionId == f.sessionId
  }

  ghost predicate Counts(f: ClaudeFile, since: string, row: ClaudeRow) {
    OfSession(f, row) && InWindow(since, row.timestamp)
  }

  /** What is billed at all: usage of an assistant row that counts, whatever its model but the synthetic one. */
  lemma BillableExactlyWhen(f: ClaudeFile, since: string, row: ClaudeRow)
    ensures Billable(f, since, row) <==>
            Counts(f, since, row) && row.kind == Assistant && row.usage.Some? && row.model != "<synthetic>"
  {
  }

  // ----- where tokens go -----

  /** Session `k` and one day bucket take the tokens, and nothing else moves. */
  ghost predicate Takes(before: Books, after: Books, k: SessionKey, worker: bool, model: string, t: Tokens,
                        context: int,
                        day: string)
    requires k in before.sessions
  {
    var sum := t.input + t.cacheRead + t.cacheWrite + t.output;
    var key := k.tool + "|" + (if worker then "worker" else "interactive") + "|" + model + "|" + day;
    && k in after.sessions && key in after.days
    && OnlySession(before, after, k)
    && var s, r := before.sessions[k], after.sessions[k];
       && r.worker == worker && r.turns == s.turns + 1 && r.tokens == Plus(s.tokens, t)
       && r.peakContext == (if context > s.peakContext then context else s.peakContext)
       && model in r.modelTokens
       && r.modelTokens[model] == sum + (if model in s.modelTokens then s.modelTokens[model] else 0)
       && r.modelTokens - {model} == s.modelTokens - {model}
       && after.days - {key} == before.days - {key}
       && var bucket := if key in before.days then before.days[key] else Bucket(Tokens(0, 0, 0, 0), 0, 0);
          after.days[key] == Bucket(Plus(bucket.tokens, t), bucket.total + sum, bucket.turns + 1)
  }

  lemma BilledTakes(b: Books, k: SessionKey, model: string, t: Tokens, context: int, timestamp: string)
    requires k in b.sessions
    ensures Takes(b, Billed(b, k, model, t, context, timestamp), k, b.sessions[k].worker, model, t, context,
                  DayOf(timestamp))
  {
    hide DayOf;
  }

  /** A fresh report is billed to its session and day under its own model, as the worker's when its
      session is one or its directory is a worker's. Any other row moves no tokens. */
  lemma ReportIsBilledOnce(b: Books, f: ClaudeFile, since: string, index: nat)
    requires index < |f.rows| && SessionKey(CLAUDE, f.sessionId) in b.sessions
    ensures var k, row := SessionKey("claude", f.sessionId), f.rows[index];
            var after := ClaudeRowBooks(b, f, since, index);
            if Counts(f, since, row) && row.kind == Assistant && row.usage.Some? && row.model != "<synthetic>"
               && KeyOf(row, index) !in b.sessions[k].usageKeys
            then
              var t := row.usage.value;
              Takes(b, after, k, b.sessions[k].worker || row.workerCwd, if row.model == "" then "unknown"
                    else row.model,
                    t, t.input + t.cacheRead + t.cacheWrite, DayOf(row.timestamp))
            else
              && after.days == b.days && k in after.sessions && OnlySession(b, after, k)
              && after.sessions[k].tokens == b.sessions[k].tokens && after.sessions[k].turns == b.sessions[k].turns
              && after.sessions[k].modelTokens == b.sessions[k].modelTokens
  {
    hide InWindow, KeyOf, DayOf, Takes;
    var k, row := SessionKey(CLAUDE, f.sessionId), f.rows[index];
    BillableExactlyWhen(f, since, row);
    if Billable(f, since, row) && KeyOf(row, index) !in b.sessions[k].usageKeys {
      var c := Compacted(b.sessions[k], row, KeyOf(row, index));
      var seen := Noted(c.(usageKeys := c.usageKeys + {KeyOf(row, index)}), row.workerCwd);
      var t, marked := row.usage.value, b.(sessions := b.sessions[k := seen]);
      BilledTakes(marked, k, ModelOf(row), t, t.input + t.cacheRead + t.cacheWrite, row.timestamp);
      TakesFromMarked(b, marked, ClaudeRowBooks(b, f, since, index), k, ModelOf(row), t,
                      t.input + t.cacheRead + t.cacheWrite, DayOf(row.timestamp));
    }
  }

  lemma TakesFromMarked(b: Books, marked: Books, after: Books, k: SessionKey, model: string, t: Tokens, context: int,
                        day: string)
    requires k in b.sessions && k in marked.sessions && OnlySession(b, marked, k) && marked.days == b.days
    requires SameFigures(marked.sessions[k], b.sessions[k])
    requires marked.sessions[k].peakContext == b.sessions[k].peakContext
    requires Takes(marked, after, k, marked.sessions[k].worker, model, t, context, day)
    ensures Takes(b, after, k, marked.sessions[k].worker, model, t, context, day)
  {
  }

  // ----- the figures of a Claude session -----

  ghost function Notifications(f: ClaudeFile, since: string, n: nat): set<nat>
    requires n <= |f.rows|
  {
    set i: nat | i < n && Counts(f, since, f.rows[i]) && f.rows[i].kind == Attachment(true)
  }

  ghost function Boundaries(f: ClaudeFile, since: string, n: nat): set<nat>
    requires n <= |f.rows|
  {
    set i: nat | i < n && Counts(f, since, f.rows[i]) && f.rows[i].kind == CompactBoundary
  }

  ghost function Summaries(f: ClaudeFile, since: string, n: nat): set<UsageKey>
    requires n <= |f.rows|
  {
    set i: nat | i < n && Counts(f, since, f.rows[i]) && f.rows[i].kind == Assistant && f.rows[i].compactSummary ::
      KeyOf(f.rows[i], i)
  }

  lemma OneMoreNotification(f: ClaudeFile, since: string, n: nat)
    requires n < |f.rows|
    ensures |Notifications(f, since, n + 1)| == |Notifications(f, since, n)|
            + if Counts(f, since, f.rows[n]) && f.rows[n].kind == Attachment(true) then 1 else 0
  {
    hide Counts;
    assert Notifications(f, since, n + 1) == if Counts(f, since, f.rows[n]) && f.rows[n].kind == Attachment(true)
                                             then Notifications(f, since, n) + {n} else Notifications(f, since, n);
  }

  lemma OneMoreBoundary(f: ClaudeFile, since: string, n: nat)
    requires n < |f.rows|
    ensures |Boundaries(f, since, n + 1)| == |Boundaries(f, since, n)|
            + if Counts(f, since, f.rows[n]) && f.rows[n].kind == CompactBoundary then 1 else 0
  {
    hide Counts;
    assert Boundaries(f, since, n + 1) == if Counts(f, since, f.rows[n]) && f.rows[n].kind == CompactBoundary
                                          then Boundaries(f, since, n) + {n} else Boundaries(f, since, n);
  }

  predicate IsSummary(row: ClaudeRow) { row.kind == Assistant && row.compactSummary }

  lemma OneMoreSummary(f: ClaudeFile, since: string, n: nat)
    requires n < |f.rows|
    ensures Summaries(f, since, n + 1) == Summaries(f, since, n)
            + if Counts(f, since, f.rows[n]) && IsSummary(f.rows[n]) then {KeyOf(f.rows[n], n)} else {}
  {
    hide Counts, KeyOf;
  }

  lemma BillingKeepsFigures(b: Books, k: SessionKey, model: string, t: Tokens, context: int, timestamp: string)
    requires k in b.sessions
    ensures var before, after := b.sessions[k], Billed(b, k, model, t, context, timestamp).sessions[k];
            && after.notificationTurns == before.notificationTurns && after.compactions == before.compactions
            && after.compactionKeys == before.compactionKeys
  {
    hide Added, DayKey, Plus;
  }

  lemma RowFigures(b: Books, f: ClaudeFile, since: string, index: nat)
    requires index < |f.rows| && SessionKey(CLAUDE, f.sessionId) in b.sessions
    ensures var k, row := SessionKey(CLAUDE, f.sessionId), f.rows[index];
            var before, after := b.sessions[k], ClaudeRowBooks(b, f, since, index).sessions[k];
            var c := Compacted(before, row, KeyOf(row, index));
            && after.notificationTurns == before.notificationTurns
               + (if Counts(f, since, row) && row.kind == Attachment(true) then 1 else 0)
            && (if Counts(f, since, row) && row.kind == Assistant
                then after.compactionKeys == c.compactionKeys && after.compactions == c.compactions
                else after.compactionKeys == before.compactionKeys && after.compactions == before.compactions
                     + if Counts(f, since, row) && row.kind == CompactBoundary then 1 else 0)
  {
    hide KeyOf, InWindow, Billed, Billable;
    var k, row := SessionKey(CLAUDE, f.sessionId), f.rows[index];
    var key := KeyOf(row, index);
    var c := Compacted(b.sessions[k], row, key);
    if row.kind == Assistant && row.usage.Some? {
      var seen := Noted(c.(usageKeys := c.usageKeys + {key}), row.workerCwd);
      var t := row.usage.value;
      BillingKeepsFigures(b.(sessions := b.sessions[k := seen]), k, ModelOf(row), t,
                          t.input + t.cacheRead + t.cacheWrite, row.timestamp);
    }
    BillableNeedsUsage(f, since, row);
  }

  lemma BillableNeedsUsage(f: ClaudeFile, since: string, row: ClaudeRow)
    ensures Billable(f, since, row) ==> row.usage.Some?
  {
  }

  lemma SummaryCountsOnce(s: Session, row: ClaudeRow, key: UsageKey)
    ensures var c := Compacted(s, row, key);
            && c.compactionKeys == s.compactionKeys + (if row.compactSummary then {key} else {})
            && c.compactions - s.compactions == |c.compactionKeys| - |s.compactionKeys|
  {
    if key in s.compactionKeys { assert s.compactionKeys + {key} == s.compactionKeys; }
  }

  /** What a session's figures gain: notifications, compaction boundaries, and summaries by key. */
  ghost predicate Gains(before: Session, after: Session, notifications: int, boundaries: int, keys: set<UsageKey>) {
    && after.notificationTurns == before.notificationTurns + notifications
    && after.compactionKeys == before.compactionKeys + keys
    && after.compactions == before.compactions + boundaries + |after.compactionKeys| - |before.compactionKeys|
  }

  lemma GainsTwice(a: Session, b: Session, c: Session, m: int, n: int, keys: set<UsageKey>, p: int, q: int,
                   more: set<UsageKey>)
    requires Gains(a, b, m, n, keys) && Gains(b, c, p, q, more)
    ensures Gains(a, c, m + p, n + q, keys + more)
  {
    assert (a.compactionKeys + keys) + more == a.compactionKeys + (keys + more);
  }

  lemma RowGains(b: Books, f: ClaudeFile, since: string, index: nat)
    requires index < |f.rows| && SessionKey(CLAUDE, f.sessionId) in b.sessions
    ensures var k, row := SessionKey(CLAUDE, f.sessionId), f.rows[index];
            Gains(b.sessions[k], ClaudeRowBooks(b, f, since, index).sessions[k],
                  if Counts(f, since, row) && row.kind == Attachment(true) then 1 else 0,
                  if Counts(f, since, row) && row.kind == CompactBoundary then 1 else 0,
                  if Counts(f, since, row) && IsSummary(row) then {KeyOf(row, index)} else {})
  {
    hide ClaudeRowBooks, Compacted, Counts, KeyOf;
    RowFigures(b, f, since, index);
    SummaryCountsOnce(b.sessions[SessionKey(CLAUDE, f.sessionId)], f.rows[index], KeyOf(f.rows[index], index));
  }

  lemma NothingGained(s: Session, f: ClaudeFile, since: string)
    ensures Gains(s, s, |Notifications(f, since, 0)|, |Boundaries(f, since, 0)|, Summaries(f, since, 0))
  {
    hide Counts, KeyOf;
    assert Notifications(f, since, 0) == {} && Boundaries(f, since, 0) == {} && Summaries(f, since, 0) == {};
    assert s.compactionKeys + {} == s.compactionKeys;
  }

  /** Every notification and every compaction boundary counts once, and so does every compaction
      summary not yet seen in its session. */
  lemma {:induction false} ClaudeFigures(b: Books, f: ClaudeFile, since: string, n: nat)
    requires n <= |f.rows| && SessionKey(CLAUDE, f.sessionId) in b.sessions
    ensures var k := SessionKey(CLAUDE, f.sessionId);
            Gains(b.sessions[k], ClaudeRowsBooks(b, f, since, n).sessions[k], |Notifications(f, since, n)|,
                  |Boundaries(f, since, n)|, Summaries(f, since, n))
  {
    var k := SessionKey(CLAUDE, f.sessionId);
    hide Notifications, Boundaries, Summaries, KeyOf, ClaudeRowBooks, Counts, Gains;
    if n == 0 {
      NothingGained(b.sessions[k], f, since);
    } else {
      ClaudeFigures(b, f, since, n - 1);
      var mid, row := ClaudeRowsBooks(b, f, since, n - 1), f.rows[n - 1];
      OneMoreNotification(f, since, n - 1);
      OneMoreBoundary(f, since, n - 1);
      OneMoreSummary(f, since, n - 1);
      RowGains(mid, f, since, n - 1);
      GainsTwice(b.sessions[k], mid.sessions[k], ClaudeRowsBooks(b, f, since, n).sessions[k],
                 |Notifications(f, since, n - 1)|, |Boundaries(f, since, n - 1)|, Summaries(f, since, n - 1),
                 if Counts(f, since, row) && row.kind == Attachment(true) then 1 else 0,
                 if Counts(f, since, row) && row.kind == CompactBoundary then 1 else 0,
                 if Counts(f, since, row) && IsSummary(row) then {KeyOf(row, n - 1)} else {});
    }
  }

  // ----- Codex: models and restarts -----

  predicate NamesModel(row: CodexRow) { row.TurnContext? && row.model.Some? && row.model.value != "" }

  ghost predicate IsLastModel(rows: seq<CodexRow>, n: nat, i: int)
    requires n <= |rows|
  {
    0 <= i < n && NamesModel(rows[i]) && forall k :: i < k < n ==> !NamesModel(rows[k])
  }

  ghost predicate IsFirstModel(rows: seq<CodexRow>, n: nat, i: int)
    requires n <= |rows|
  {
    0 <= i < n && NamesModel(rows[i]) && forall k :: 0 <= k < i ==> !NamesModel(rows[k])
  }

  /** The scan remembers the last model a turn named, and the first one. */
  lemma {:induction false} ScanKnowsLastModel(session: Session, rows: seq<CodexRow>, n: nat, since: string)
    requires n <= |rows|
    ensures var model := ScanRows(session, rows, n, since).model;
            if exists i :: IsLastModel(rows, n, i) then exists i :: IsLastModel(rows, n, i) && model == rows[i].model
            else model.None?
  {
    if n > 0 {
      ScanKnowsLastModel(session, rows, n - 1, since);
      hide InWindow, Delta, Restarted, ScanRows;
      OneMoreScan(session, rows, n, since);
      var m := n - 1;
      if NamesModel(rows[m]) {
        assert IsLastModel(rows, n, m);
      } else {
        assert forall i :: IsLastModel(rows, m, i) <==> IsLastModel(rows, n, i);
      }
    }
  }

  lemma {:induction false} ScanKnowsFirstModel(session: Session, rows: seq<CodexRow>, n: nat, since: string)
    requires n <= |rows|
    ensures var scan := ScanRows(session, rows, n, since);
            && (scan.firstModel.None? ==> scan.model.None?)
            && if exists i :: IsFirstModel(rows, n, i)
               then exists i :: IsFirstModel(rows, n, i) && scan.firstModel == rows[i].model
               else scan.firstModel.None?
  {
    if n > 0 {
      ScanKnowsFirstModel(session, rows, n - 1, since);
      hide InWindow, Delta, Restarted, ScanRows;
      OneMoreScan(session, rows, n, since);
      var m := n - 1;
      if i :| IsFirstModel(rows, m, i) {
        assert IsFirstModel(rows, n, i);
      } else {
        NoneNamed(rows, m);
        if NamesModel(rows[m]) { assert IsFirstModel(rows, n, m); }
      }
    }
  }

  lemma NoneNamed(rows: seq<CodexRow>, n: nat)
    requires n <= |rows| && forall i :: !IsFirstModel(rows, n, i)
    ensures forall k :: 0 <= k < n ==> !NamesModel(rows[k])
  {
    if k :| 0 <= k < n && NamesModel(rows[k]) { SomeIsFirst(rows, n, k); }
  }

  lemma {:induction false} SomeIsFirst(rows: seq<CodexRow>, n: nat, k: nat)
    requires k < n <= |rows| && NamesModel(rows[k])
    ensures exists i :: IsFirstModel(rows, n, i)
    decreases k
  {
    if j :| 0 <= j < k && NamesModel(rows[j]) {
      SomeIsFirst(rows, n, j);
    } else {
      assert IsFirstModel(rows, n, k);
    }
  }

  lemma OneMoreScan(session: Session, rows: seq<CodexRow>, n: nat, since: string)
    requires 0 < n <= |rows|
    ensures ScanRows(session, rows, n, since) == ScanRow(ScanRows(session, rows, n - 1, since), rows[n - 1], since)
  {
  }

  /** A reading in the window, with the last model named before it. */
  ghost predicate IsReadingAt(session: Session, p: Pending, rows: seq<CodexRow>, i: nat, since: string) {
    && i < |rows| && rows[i].TokenCount? && InWindow(since, rows[i].timestamp) && p.timestamp == rows[i].timestamp
    && p.context == (if rows[i].lastInput.Some? then rows[i].lastInput.value else rows[i].usage.inputTokens)
    && p.model == ScanRows(session, rows, i, since).model
  }

  /** Every bill of a Codex file is a reading of it in the window, with that reading's own context. */
  lemma {:induction false} BillsAreReadings(session: Session, rows: seq<CodexRow>, n: nat, since: string, j: nat)
    returns (i: nat)
    requires n <= |rows| && j < |ScanRows(session, rows, n, since).pending|
    ensures i < n && IsReadingAt(session, ScanRows(session, rows, n, since).pending[j], rows, i, since)
  {
    hide InWindow, Delta, Restarted;
    if j < |ScanRows(session, rows, n - 1, since).pending| {
      i := BillsAreReadings(session, rows, n - 1, since, j);
    } else {
      i := n - 1;
    }
  }

  /** A reading is billed to the last model a turn named before it, else to the first one named
      after it, else to none that is known. */
  lemma ReadingIsBilledTo(session: Session, rows: seq<CodexRow>, since: string, j: nat) returns (i: nat)
    requires j < |ScanRows(session, rows, |rows|, since).pending|
    ensures i < |rows| && rows[i].TokenCount? && InWindow(since, rows[i].timestamp)
    ensures var scan := ScanRows(session, rows, |rows|, since);
            var model := TurnModel(scan.pending[j], scan.firstModel);
            if exists k :: IsLastModel(rows, i, k)
            then exists k :: IsLastModel(rows, i, k) && Some(model) == rows[k].model
            else if exists k :: IsFirstModel(rows, |rows|, k)
            then exists k :: IsFirstModel(rows, |rows|, k) && Some(model) == rows[k].model
            else model == "unknown"
  {
    i := BillsAreReadings(session, rows, |rows|, since, j);
    ScanKnowsLastModel(session, rows, i, since);
    ScanKnowsFirstModel(session, rows, |rows|, since);
    hide ScanRows, InWindow;
  }

  /** The readings in the window at which the counter restarts. */
  ghost function RestartsIn(r: seq<Reading>, n: nat): set<nat>
    requires n <= |r|
  {
    set i: nat | 0 < i < n && r[i].counted && r[i].usage.total < r[i - 1].usage.total
  }

  lemma OneMoreRestart(r: seq<Reading>, x: Reading)
    ensures |RestartsIn(r + [x], |r| + 1)| == |RestartsIn(r, |r|)|
            + if r != [] && x.counted && x.usage.total < r[|r| - 1].usage.total then 1 else 0
  {
    var after := RestartsIn(r + [x], |r| + 1);
    assert after == if r != [] && x.counted && x.usage.total < r[|r| - 1].usage.total
                    then RestartsIn(r, |r|) + {|r|} else RestartsIn(r, |r|);
  }

  /** A Codex session is compacted once for every restart of its counter in the window. */
  lemma {:induction false} RestartsAreCompactions(session: Session, rows: seq<CodexRow>, n: nat, since: string)
    requires n <= |rows|
    ensures var r := Readings(rows, n, since);
            ScanRows(session, rows, n, since).session.compactions == session.compactions + |RestartsIn(r, |r|)|
  {
    if n == 0 {
      assert RestartsIn([], 0) == {};
    } else {
      RestartsAreCompactions(session, rows, n - 1, since);
      ScanBillsReadings(session, rows, n - 1, since);
      var r, row := Readings(rows, n - 1, since), rows[n - 1];
      hide InWindow, Delta, RestartsIn;
      if row.TokenCount? { OneMoreRestart(r, Reading(row.usage, InWindow(since, row.timestamp))); }
    }
  }

  /** A session is the worker's as soon as one row of it comes from a worker's directory. */
  lemma {:induction false} WorkerRowMarksSession(session: Session, rows: seq<CodexRow>, n: nat, since: string)
    requires n <= |rows|
    ensures ScanRows(session, rows, n, since).session.worker <==>
            || session.worker
            || exists i :: 0 <= i < n && (rows[i].SessionMeta? || rows[i].TurnContext?) && rows[i].worker
  {
    if n > 0 {
      WorkerRowMarksSession(session, rows, n - 1, since);
      hide InWindow, Delta, Restarted;
    }
  }

  /** Opening a session starts it empty or keeps its figures, and marks it where it is a worker's. */
  lemma OpeningMarksSession(b: Books, k: SessionKey, worker: bool)
    ensures var after := Opened(b, k, worker);
            && k in after.sessions && after.days == b.days && OnlySession(b, after, k)
            && var s, r := SessionOf(b, k), after.sessions[k];
               r == s.(worker := (k in b.sessions && b.sessions[k].worker) || worker)
               && (k !in b.sessions ==> r.tokens == Tokens(0, 0, 0, 0) && r.turns == 0 && r.modelTokens == map[]
                                        && r.usageKeys == {} && r.compactions == 0 && r.peakContext == 0)
  {
  }

  /** Every reading of a Codex file is taken by its session and by the bucket of its own day and model. */
  lemma ReadingIsTaken(b: Books, k: SessionKey, pending: seq<Pending>, firstModel: Option<string>, n: nat)
    requires n < |pending| && k in b.sessions
    ensures var before, p := BillPending(b, k, pending, firstModel, n), pending[n];
            Takes(before, BillPending(b, k, pending, firstModel, n + 1), k, before.sessions[k].worker,
                  TurnModel(p, firstModel), p.delta, p.context, DayOf(p.timestamp))
  {
    var before, p := BillPending(b, k, pending, firstModel, n), pending[n];
    BilledTakes(before, k, TurnModel(p, firstModel), p.delta, p.context, p.timestamp);
    hide Takes, Billed;
  }
}
