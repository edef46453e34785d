/** The objects the logs are collected into: one `SessionStats` per session, updated in place,
    and the `Rollup` that owns them. */
module RollupObjects {
  import opened Wrappers
  import opened TokenRollup

  class SessionStats {
    const key: SessionKey
    var worker: bool
    var tokens: Tokens
    var turns: nat
    var peakContext: int
    var compactions: nat
    var notificationTurns: nat
    var modelTokens: map<string, int>
    var usageKeys: set<UsageKey>
    var compactionKeys: set<UsageKey>

    constructor (key: SessionKey, worker: bool)
      ensures this.key == key && Value() == Session(worker, NO_TOKENS, 0, 0, 0, 0, map[], {}, {})
    {
      this.key, this.worker := key, worker;
      tokens, turns, peakContext := NO_TOKENS, 0, 0;
      compactions, notificationTurns := 0, 0;
      modelTokens, usageKeys, compactionKeys := map[], {}, {};
    }

    function Value(): Session
      reads this
    {
      Session(worker, tokens, turns, peakContext, compactions, notificationTurns, modelTokens, usageKeys,
              compactionKeys)
    }

    method NoteWorkerOrigin(isWorker: bool)
      modifies this
      ensures Value() == Noted(old(Value()), isWorker)
    {
      if !worker && isWorker { worker := true; }
    }

    method AddUsage(model: string, t: Tokens, context: int)
      modifies this
      ensures Value() == Used(old(Value()), model, t, context)
    {
      tokens := Plus(tokens, t);
      turns := turns + 1;
      if context > peakContext { peakContext := context; }
      modelTokens := modelTokens[model := (if model in modelTokens then modelTokens[model] else 0) + Sum(t)];
    }

    /** A compaction summary, counted once per key. */
    method NoteCompaction(row: ClaudeRow, usageKey: UsageKey)
      modifies this
      ensures Value() == Compacted(old(Value()), row, usageKey)
    {
      if row.compactSummary && usageKey !in compactionKeys {
        compactionKeys := compactionKeys + {usageKey};
        compactions := compactions + 1;
      }
    }
  }

  class Rollup {
    const since: string
    var sessions: map<SessionKey, SessionStats>
    var days: map<string, Bucket>

    constructor (since: string)
      ensures this.since == since && Valid() && Book() == Books(map[], map[]) && sessions == map[]
    {
      this.since := since;
      sessions, days := map[], map[];
    }

    /** Every session is filed under its own key, so no two keys share an object. */
    ghost predicate Valid()
      reads this
    {
      forall k :: k in sessions ==> sessions[k].key == k
    }

    ghost function Book(): Books
      reads this, sessions.Values
    {
      Books(map k | k in sessions :: sessions[k].Value(), days)
    }

    /** `Rollup.session`. */
    method OpenSession(k: SessionKey, worker: bool) returns (stats: SessionStats)
      requires Valid()
      modifies this, sessions.Values
      ensures Valid() && Book() == Opened(old(Book()), k, worker)
      ensures k in sessions && stats == sessions[k] && fresh(sessions.Values - old(sessions.Values))
    {
      if k in sessions {
        stats := sessions[k];
        stats.NoteWorkerOrigin(worker);
      } else {
        stats := new SessionStats(k, worker);
        sessions := sessions[k := stats];
      }
    }

    method AddDayTotal(key: string, t: Tokens)
      modifies `days
      ensures days == Added(old(days), key, t)
    {
      var bucket := if key in days then days[key] else EMPTY_BUCKET;
      days := days[key := Bucket(Plus(bucket.tokens, t), bucket.total + Sum(t), bucket.turns + 1)];
    }

    method Bill(stats: SessionStats, model: string, t: Tokens, context: int, timestamp: string)
      requires Valid() && stats.key in sessions && sessions[stats.key] == stats
      modifies this, stats
      ensures Valid() && sessions == old(sessions)
      ensures Book() == Billed(old(Book()), stats.key, model, t, context, timestamp)
    {
      stats.AddUsage(model, t, context);
      AddDayTotal(DayKey(stats.key.tool, stats.worker, model, timestamp), t);
      assert Book().sessions == old(Book()).sessions[stats.key := stats.Value()];
    }

    /** Where a session's object has its new value and nothing else moved, so have the books. */
    twostate lemma OneSessionMoved(stats: SessionStats)
      requires old(Valid()) && stats.key in sessions && sessions[stats.key] == stats && old(allocated(stats))
      requires unchanged(this) && forall k :: k in sessions && k != stats.key ==> unchanged(sessions[k])
      ensures Book() == old(Book()).(sessions := old(Book()).sessions[stats.key := stats.Value()])
    {
    }

    method CollectAssistantRow(stats: SessionStats, f: ClaudeFile, index: nat)
      requires Valid() && stats.key == SessionKey(CLAUDE, f.sessionId) && stats.key in sessions
      requires sessions[stats.key] == stats && index < |f.rows|
      requires f.rows[index].kind == Assistant && !OtherSession(f, f.rows[index])
      requires InWindow(since, f.rows[index].timestamp)
      modifies this, stats
      ensures Valid() && sessions == old(sessions)
      ensures Book() == ClaudeRowBooks(old(Book()), f, since, index)
    {
      hide Billed, InWindow, KeyOf, Used, Compacted, Noted, OtherSession, ModelOf;
      var row, k := f.rows[index], KeyOf(f.rows[index], index);
      stats.NoteCompaction(row, k);
      OneSessionMoved(stats);
      if row.usage.None? || row.model == SYNTHETIC_MODEL || k in stats.usageKeys { return; }
      stats.usageKeys := stats.usageKeys + {k};
      stats.NoteWorkerOrigin(row.workerCwd);
      OneSessionMoved(stats);
      var t := row.usage.value;
      Bill(stats, ModelOf(row), t, t.input + t.cacheRead + t.cacheWrite, row.timestamp);
    }

    method CollectClaudeRow(stats: SessionStats, f: ClaudeFile, index: nat)
      requires Valid() && stats.key == SessionKey(CLAUDE, f.sessionId) && stats.key in sessions
      requires sessions[stats.key] == stats && index < |f.rows|
      modifies this, stats
      ensures Valid() && sessions == old(sessions)
      ensures Book() == ClaudeRowBooks(old(Book()), f, since, index)
    {
      hide Billed, InWindow, KeyOf, Compacted, Noted, OtherSession, ModelOf;
      var row := f.rows[index];
      if OtherSession(f, row) || !InWindow(since, row.timestamp) { return; }
      match row.kind
      case CompactBoundary =>
        stats.compactions := stats.compactions + 1;
        OneSessionMoved(stats);
      case Attachment(isNotification) =>
        if isNotification {
          stats.notificationTurns := stats.notificationTurns + 1;
          OneSessionMoved(stats);
        }
      case OtherClaude =>
      case Assistant => CollectAssistantRow(stats, f, index);
    }

    method CollectClaudeFile(f: ClaudeFile)
      requires Valid()
      modifies this, sessions.Values
      ensures Valid() && Book() == ClaudeBooks(old(Book()), f, since)
      ensures fresh(sessions.Values - old(sessions.Values))
    {
      hide ClaudeRowBooks;
      var stats := OpenSession(SessionKey(CLAUDE, f.sessionId), f.workerProject);
      ghost var begun := Book();
      for i := 0 to |f.rows|
        invariant Valid() && stats.key == SessionKey(CLAUDE, f.sessionId) && stats.key in sessions
        invariant sessions[stats.key] == stats
        invariant Book() == ClaudeRowsBooks(begun, f, since, i)
        invariant fresh(sessions.Values - old(sessions.Values))
      {
        CollectClaudeRow(stats, f, i);
      }
    }

    method ScanCodexRows(stats: SessionStats, rows: seq<CodexRow>)
      returns (pending: seq<Pending>, firstModel: Option<string>)
      requires Valid() && stats.key in sessions && sessions[stats.key] == stats
      modifies stats
      ensures Valid()
      ensures var scan := ScanRows(old(stats.Value()), rows, |rows|, since);
              && stats.Value() == scan.session && pending == scan.pending && firstModel == scan.firstModel
              && Book() == old(Book()).(sessions := old(Book()).sessions[stats.key := scan.session])
    {
      hide Delta, Split, Rise, InWindow;
      ghost var session, begun := stats.Value(), Book();
      var model: Option<string> := None;
      var previous: Option<CodexUsage> := None;
      firstModel, pending := None, [];
      for i := 0 to |rows|
        invariant ScanRows(session, rows, i, since) == Scan(stats.Value(), model, firstModel, previous, pending)
      {
        match rows[i]
        case SessionMeta(worker) => stats.NoteWorkerOrigin(worker);
        case TurnContext(turnModel, worker) =>
          if turnModel.Some? && turnModel.value != "" { model := turnModel; }
          if firstModel.None? { firstModel := model; }
          stats.NoteWorkerOrigin(worker);
        case OtherCodex =>
        case TokenCount(usage, lastInput, timestamp) =>
          var restarted := Restarted(previous, usage);
          var delta := Delta(previous, usage);
          previous := Some(usage);
          if !InWindow(since, timestamp) { continue; }
          if restarted { stats.compactions := stats.compactions + 1; }
          pending := pending
            + [Pending(delta, if lastInput.Some? then lastInput.value else usage.inputTokens, timestamp, model)];
      }
      assert Book().sessions == begun.sessions[stats.key := stats.Value()];
    }

    method CollectCodexFile(f: CodexFile)
      requires Valid()
      modifies this, sessions.Values
      ensures Valid() && Book() == CodexBooks(old(Book()), f, since)
      ensures fresh(sessions.Values - old(sessions.Values))
    {
      hide ScanRows, Billed;
      var stats := OpenSession(SessionKey(CODEX, f.sessionId), false);
      var pending, firstModel := ScanCodexRows(stats, f.rows);
      ghost var scanned := Book();
      for i := 0 to |pending|
        invariant Valid() && stats.key == SessionKey(CODEX, f.sessionId) && stats.key in sessions
        invariant sessions[stats.key] == stats
        invariant Book() == BillPending(scanned, stats.key, pending, firstModel, i)
        invariant fresh(sessions.Values - old(sessions.Values))
      {
        var p := pending[i];
        Bill(stats, TurnModel(p, firstModel), p.delta, p.context, p.timestamp);
      }
    }

    /** Every log of a run, on a fresh rollup. */
    static method Collect(logs: seq<Log>, since: string) returns (rollup: Rollup)
      ensures rollup.Valid() && rollup.Book() == Collected(logs, |logs|, since) && Balanced(rollup.Book())
    {
      hide ClaudeBooks, CodexBooks, Balanced;
      rollup := new Rollup(since);
      for i := 0 to |logs|
        invariant fresh(rollup) && fresh(rollup.sessions.Values)
        invariant rollup.since == since && rollup.Valid() && rollup.Book() == Collected(logs, i, since)
      {
        match logs[i]
        case ClaudeLog(f) => rollup.CollectClaudeFile(f);
        case CodexLog(f) => rollup.CollectCodexFile(f);
      }
      BooksBalance(logs, |logs|, since);
    }
  }
}
