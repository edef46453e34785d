/** Token accounting: what every session and every day is billed, from logs read row by row. */
module TokenRollup {
  import opened Wrappers
  import Text

  const CLAUDE := "claude"
  const CODEX := "codex"
  const SYNTHETIC_MODEL := "<synthetic>"
  const UNKNOWN_MODEL := "unknown"

  datatype Tokens = Tokens(input: int, cacheRead: int, cacheWrite: int, output: int)

  const NO_TOKENS := Tokens(0, 0, 0, 0)

  function Sum(t: Tokens): int { t.input + t.cacheRead + t.cacheWrite + t.output }

  function Plus(a: Tokens, b: Tokens): Tokens {
    Tokens(a.input + b.input, a.cacheRead + b.cacheRead, a.cacheWrite + b.cacheWrite, a.output + b.output)
  }

  /** The pair that stands for one usage report: message and request id, or "row" and a uuid or
      row index; `second` is none, a string or an index. */
  datatype KeyPart = NoPart | TextPart(text: string) | IndexPart(index: nat)
  datatype UsageKey = UsageKey(first: Option<string>, second: KeyPart)

  datatype SessionKey = SessionKey(tool: string, id: string)

  datatype Session = Session(
    worker: bool,
    tokens: Tokens,
    turns: nat,
    peakContext: int,
    compactions: nat,
    notificationTurns: nat,
    modelTokens: map<string, int>,
    usageKeys: set<UsageKey>,
    compactionKeys: set<UsageKey>)

  datatype Bucket = Bucket(tokens: Tokens, total: int, turns: nat)

  const EMPTY_BUCKET := Bucket(NO_TOKENS, 0, 0)

  /** The two sides of the books: per session and per tool, origin, model and day. */
  datatype Books = Books(sessions: map<SessionKey, Session>, days: map<string, Bucket>)

  // ----- billing -----

  function Opened(b: Books, k: SessionKey, worker: bool): Books {
    if k in b.sessions then b.(sessions := b.sessions[k := Noted(b.sessions[k], worker)])
    else b.(sessions := b.sessions[k := Session(worker, NO_TOKENS, 0, 0, 0, 0, map[], {}, {})])
  }

  function Noted(s: Session, worker: bool): Session { s.(worker := s.worker || worker) }

  function Max(a: int, b: int): int { if a >= b then a else b }

  function Used(s: Session, model: string, t: Tokens, context: int): Session {
    s.(tokens := Plus(s.tokens, t), turns := s.turns + 1, peakContext := Max(s.peakContext, context),
       modelTokens := s.modelTokens[model := (if model in s.modelTokens then s.modelTokens[model] else 0) + Sum(t)])
  }

  function DayOf(timestamp: string): string {
    if timestamp == "" then "unknown" else if |timestamp| <= 10 then timestamp else timestamp[..10]
  }

  function DayKey(tool: string, worker: bool, model: string, timestamp: string): string {
    tool + "|" + (if worker then "worker" else "interactive") + "|" + model + "|" + DayOf(timestamp)
  }

  function Added(days: map<string, Bucket>, key: string, t: Tokens): map<string, Bucket> {
    var bucket := if key in days then days[key] else EMPTY_BUCKET;
    days[key := Bucket(Plus(bucket.tokens, t), bucket.total + Sum(t), bucket.turns + 1)]
  }

  function Billed(b: Books, k: SessionKey, model: string, t: Tokens, context: int, timestamp: string): Books
    requires k in b.sessions
  {
    Books(b.sessions[k := Used(b.sessions[k], model, t, context)],
          Added(b.days, DayKey(k.tool, b.sessions[k].worker, model, timestamp), t))
  }

  predicate InWindow(since: string, timestamp: string) {
    since == "" || timestamp == "" || !Text.Before(if |timestamp| <= 10 then timestamp else timestamp[..10], since)
  }

  // ----- sums over maps -----

  ghost function Total<K(!new)>(m: map<K, int>): int {
    if m == map[] then 0 else var k :| k in m; m[k] + Total(m - {k})
  }

  lemma {:induction false} TotalWithout<K(!new)>(m: map<K, int>, k: K)
    requires k in m
    ensures Total(m) == m[k] + Total(m - {k})
    decreases |m|
  {
    var first :| first in m && Total(m) == m[first] + Total(m - {first});
    if first != k {
      TotalWithout(m - {first}, k);
      TotalWithout(m - {k}, first);
      assert m - {first} - {k} == m - {k} - {first};
    }
  }

  lemma TotalOfNone<K(!new)>(m: map<K, int>)
    requires m == map[]
    ensures Total(m) == 0
  {
  }

  lemma TotalUpdated<K(!new)>(m: map<K, int>, k: K, v: int)
    ensures Total(m[k := v]) == Total(m) + v - if k in m then m[k] else 0
  {
    TotalWithout(m[k := v], k);
    assert m[k := v] - {k} == m - {k};
    if k in m { TotalWithout(m, k); } else { assert m - {k} == m; }
  }

  // ----- conservation -----

  /** What both sides of the books count. */
  datatype Measure = InputOf | CacheReadOf | CacheWriteOf | OutputOf | TurnsOf

  function Of(q: Measure, t: Tokens, turns: int): int {
    match q
    case InputOf => t.input
    case CacheReadOf => t.cacheRead
    case CacheWriteOf => t.cacheWrite
    case OutputOf => t.output
    case TurnsOf => turns
  }

  function SessionSide(sessions: map<SessionKey, Session>, q: Measure): map<SessionKey, int> {
    map k | k in sessions :: Of(q, sessions[k].tokens, sessions[k].turns)
  }

  function DaySide(days: map<string, Bucket>, q: Measure): map<string, int> {
    map d | d in days :: Of(q, days[d].tokens, days[d].turns)
  }

  ghost predicate SidesAgree(b: Books) {
    forall q: Measure :: Total(SessionSide(b.sessions, q)) == Total(DaySide(b.days, q))
  }

  /** A session's models add up to its total, and every bucket's fields to its own. */
  ghost predicate EntriesAddUp(b: Books) {
    && (forall k :: k in b.sessions ==> Total(b.sessions[k].modelTokens) == Sum(b.sessions[k].tokens))
    && (forall d :: d in b.days ==> b.days[d].total == Sum(b.days[d].tokens))
  }

  /** Every bill of a Claude session spent a usage key of its own. */
  ghost predicate KeysBilledOnce(b: Books) {
    forall k :: k in b.sessions && k.tool == CLAUDE ==> b.sessions[k].turns == |b.sessions[k].usageKeys|
  }

  ghost predicate Balanced(b: Books) { SidesAgree(b) && EntriesAddUp(b) && KeysBilledOnce(b) }

  lemma SessionTotal(sessions: map<SessionKey, Session>, k: SessionKey, s: Session, q: Measure)
    ensures Total(SessionSide(sessions[k := s], q)) ==
            Total(SessionSide(sessions, q)) + Of(q, s.tokens, s.turns)
              - if k in sessions then Of(q, sessions[k].tokens, sessions[k].turns) else 0
  {
    assert SessionSide(sessions[k := s], q) == SessionSide(sessions, q)[k := Of(q, s.tokens, s.turns)];
    TotalUpdated(SessionSide(sessions, q), k, Of(q, s.tokens, s.turns));
  }

  lemma DayTotal(days: map<string, Bucket>, key: string, d: Bucket, q: Measure)
    ensures Total(DaySide(days[key := d], q)) ==
            Total(DaySide(days, q)) + Of(q, d.tokens, d.turns)
              - if key in days then Of(q, days[key].tokens, days[key].turns) else 0
  {
    assert DaySide(days[key := d], q) == DaySide(days, q)[key := Of(q, d.tokens, d.turns)];
    TotalUpdated(DaySide(days, q), key, Of(q, d.tokens, d.turns));
  }

  lemma BillKeepsSides(b: Books, k: SessionKey, model: string, t: Tokens, context: int, timestamp: string)
    requires k in b.sessions && SidesAgree(b)
    ensures SidesAgree(Billed(b, k, model, t, context, timestamp))
  {
    hide SessionSide, DaySide, Total, DayKey;
    var after := Billed(b, k, model, t, context, timestamp);
    var key := DayKey(k.tool, b.sessions[k].worker, model, timestamp);
    forall q: Measure
      ensures Total(SessionSide(after.sessions, q)) == Total(DaySide(after.days, q))
    {
      SessionTotal(b.sessions, k, after.sessions[k], q);
      DayTotal(b.days, key, after.days[key], q);
    }
  }

  lemma BillKeepsEntries(b: Books, k: SessionKey, model: string, t: Tokens, context: int, timestamp: string)
    requires k in b.sessions && EntriesAddUp(b)
    ensures EntriesAddUp(Billed(b, k, model, t, context, timestamp))
  {
    var s := b.sessions[k];
    TotalUpdated(s.modelTokens, model, (if model in s.modelTokens then s.modelTokens[model] else 0) + Sum(t));
  }

  /** Two sessions with the same figures. */
  predicate SameFigures(s: Session, r: Session) {
    s.tokens == r.tokens && s.turns == r.turns && s.modelTokens == r.modelTokens
  }

  lemma SameFiguresKeepSides(b: Books, k: SessionKey, s: Session)
    requires SidesAgree(b) && k in b.sessions && SameFigures(s, b.sessions[k])
    ensures SidesAgree(b.(sessions := b.sessions[k := s]))
  {
    hide SessionSide, DaySide, Total;
    forall q: Measure
      ensures Total(SessionSide(b.sessions[k := s], q)) == Total(DaySide(b.days, q))
    {
      SessionTotal(b.sessions, k, s, q);
    }
  }

  /** Changing what the books do not count keeps them balanced. */
  lemma SameFiguresStayBalanced(b: Books, k: SessionKey, s: Session)
    requires Balanced(b) && k in b.sessions && SameFigures(s, b.sessions[k]) && s.usageKeys == b.sessions[k].usageKeys
    ensures Balanced(b.(sessions := b.sessions[k := s]))
  {
    SameFiguresKeepSides(b, k, s);
    hide SidesAgree, Total;
  }

  lemma NewSessionKeepsSides(b: Books, k: SessionKey, worker: bool)
    requires SidesAgree(b) && k !in b.sessions
    ensures SidesAgree(Opened(b, k, worker))
  {
    hide SessionSide, DaySide, Total;
    var after := Opened(b, k, worker);
    forall q: Measure
      ensures Total(SessionSide(after.sessions, q)) == Total(DaySide(after.days, q))
    {
      SessionTotal(b.sessions, k, after.sessions[k], q);
    }
  }

  lemma NewSessionEntry(b: Books, k: SessionKey, worker: bool, j: SessionKey)
    requires EntriesAddUp(b) && k !in b.sessions && j in Opened(b, k, worker).sessions
    ensures Total(Opened(b, k, worker).sessions[j].modelTokens) == Sum(Opened(b, k, worker).sessions[j].tokens)
  {
    hide Total;
    if j == k { TotalOfNone(Opened(b, k, worker).sessions[k].modelTokens); }
  }

  lemma NewSessionKeepsEntries(b: Books, k: SessionKey, worker: bool)
    requires EntriesAddUp(b) && k !in b.sessions
    ensures EntriesAddUp(Opened(b, k, worker))
  {
    hide Total, Sum;
    forall j | j in Opened(b, k, worker).sessions
      ensures Total(Opened(b, k, worker).sessions[j].modelTokens) == Sum(Opened(b, k, worker).sessions[j].tokens)
    {
      NewSessionEntry(b, k, worker, j);
    }
  }

  lemma NewSessionKeepsKeys(b: Books, k: SessionKey, worker: bool)
    requires KeysBilledOnce(b) && k !in b.sessions
    ensures KeysBilledOnce(Opened(b, k, worker))
  {
  }

  lemma OpeningKeepsBalance(b: Books, k: SessionKey, worker: bool)
    requires Balanced(b)
    ensures Balanced(Opened(b, k, worker)) && k in Opened(b, k, worker).sessions
  {
    if k in b.sessions {
      hide Balanced;
      SameFiguresStayBalanced(b, k, Noted(b.sessions[k], worker));
    } else {
      hide SidesAgree, EntriesAddUp, KeysBilledOnce;
      NewSessionKeepsSides(b, k, worker);
      NewSessionKeepsEntries(b, k, worker);
      NewSessionKeepsKeys(b, k, worker);
    }
  }

  // ----- Claude logs -----

  datatype ClaudeKind = CompactBoundary | Attachment(isNotification: bool) | Assistant | OtherClaude

  /** A parsed row; empty strings are absent fields. */
  datatype ClaudeRow = ClaudeRow(
    sessionId: string,
    timestamp: string,
    kind: ClaudeKind,
    compactSummary: bool,
    messageId: Option<string>,
    requestId: Option<string>,
    uuid: string,
    usage: Option<Tokens>,
    model: string,
    workerCwd: bool)

  datatype ClaudeFile = ClaudeFile(sessionId: string, isSubagent: bool, workerProject: bool, rows: seq<ClaudeRow>)

  function UsageOf(row: ClaudeRow): Tokens { if row.usage.Some? then row.usage.value else NO_TOKENS }

  function KeyOf(row: ClaudeRow, index: nat): UsageKey {
    if row.messageId.None? && row.requestId.None? then
      UsageKey(Some("row"), if row.uuid != "" then TextPart(row.uuid) else IndexPart(index))
    else UsageKey(row.messageId, if row.requestId.Some? then TextPart(row.requestId.value) else NoPart)
  }

  predicate OtherSession(f: ClaudeFile, row: ClaudeRow) {
    !f.isSubagent && row.sessionId != "" && row.sessionId != f.sessionId
  }

  /** The rows that report usage of the file's own session inside the window. */
  predicate Billable(f: ClaudeFile, since: string, row: ClaudeRow) {
    && !OtherSession(f, row) && InWindow(since, row.timestamp) && row.kind == Assistant
    && row.usage.Some? && row.model != SYNTHETIC_MODEL
  }

  function Compacted(s: Session, row: ClaudeRow, key: UsageKey): Session {
    if row.compactSummary && key !in s.compactionKeys
    then s.(compactionKeys := s.compactionKeys + {key}, compactions := s.compactions + 1) else s
  }

  function ModelOf(row: ClaudeRow): string { if row.model != "" then row.model else UNKNOWN_MODEL }

  function ClaudeRowBooks(b: Books, f: ClaudeFile, since: string, index: nat): Books
    requires index < |f.rows| && SessionKey(CLAUDE, f.sessionId) in b.sessions
  {
    var k, row := SessionKey(CLAUDE, f.sessionId), f.rows[index];
    var s, key := b.sessions[k], KeyOf(row, index);
    if OtherSession(f, row) || !InWindow(since, row.timestamp) then b
    else
      match row.kind
      case CompactBoundary => b.(sessions := b.sessions[k := s.(compactions := s.compactions + 1)])
      case Attachment(isNotification) =>
        if isNotification then b.(sessions := b.sessions[k := s.(notificationTurns := s.notificationTurns + 1)]) else b
      case OtherClaude => b
      case Assistant =>
        var c := Compacted(s, row, key);
        if !Billable(f, since, row) || key in c.usageKeys then b.(sessions := b.sessions[k := c])
        else
          var seen := Noted(c.(usageKeys := c.usageKeys + {key}), row.workerCwd);
          var t := row.usage.value;
          Billed(b.(sessions := b.sessions[k := seen]), k, ModelOf(row), t, t.input + t.cacheRead + t.cacheWrite,
                 row.timestamp)
  }

  function ClaudeRowsBooks(b: Books, f: ClaudeFile, since: string, n: nat): (r: Books)
    requires n <= |f.rows| && SessionKey(CLAUDE, f.sessionId) in b.sessions
    ensures SessionKey(CLAUDE, f.sessionId) in r.sessions
  {
    if n == 0 then b else ClaudeRowBooks(ClaudeRowsBooks(b, f, since, n - 1), f, since, n - 1)
  }

  function ClaudeBooks(b: Books, f: ClaudeFile, since: string): Books {
    ClaudeRowsBooks(Opened(b, SessionKey(CLAUDE, f.sessionId), f.workerProject), f, since, |f.rows|)
  }

  lemma FreshKeyKeepsBalance(b: Books, k: SessionKey, s: Session, key: UsageKey, worker: bool, model: string, t: Tokens,
                             context: int, timestamp: string)
    requires Balanced(b) && k in b.sessions && k.tool == CLAUDE && key !in s.usageKeys
    requires SameFigures(s, b.sessions[k]) && s.usageKeys == b.sessions[k].usageKeys
    ensures Balanced(Billed(b.(sessions := b.sessions[k := Noted(s.(usageKeys := s.usageKeys + {key}), worker)]), k,
                            model, t, context, timestamp))
  {
    var seen := Noted(s.(usageKeys := s.usageKeys + {key}), worker);
    var marked := b.(sessions := b.sessions[k := seen]);
    SameFiguresKeepSides(b, k, seen);
    BillKeepsSides(marked, k, model, t, context, timestamp);
    hide SidesAgree, Total, DayKey, Added;
    BillKeepsEntries(marked, k, model, t, context, timestamp);
  }

  lemma ClaudeRowKeepsBalance(b: Books, f: ClaudeFile, since: string, index: nat)
    requires index < |f.rows| && SessionKey(CLAUDE, f.sessionId) in b.sessions && Balanced(b)
    ensures Balanced(ClaudeRowBooks(b, f, since, index))
  {
    hide Balanced, Billed, InWindow, KeyOf;
    var k, row := SessionKey(CLAUDE, f.sessionId), f.rows[index];
    var s, key := b.sessions[k], KeyOf(row, index);
    var c := Compacted(s, row, key);
    SameFiguresStayBalanced(b, k, s.(compactions := s.compactions + 1));
    SameFiguresStayBalanced(b, k, s.(notificationTurns := s.notificationTurns + 1));
    SameFiguresStayBalanced(b, k, c);
    if row.kind == Assistant && Billable(f, since, row) && key !in c.usageKeys {
      var t := row.usage.value;
      FreshKeyKeepsBalance(b, k, c, key, row.workerCwd, ModelOf(row), t, t.input + t.cacheRead + t.cacheWrite,
                           row.timestamp);
    }
  }

  lemma {:induction false} ClaudeRowsKeepBalance(b: Books, f: ClaudeFile, since: string, n: nat)
    requires n <= |f.rows| && SessionKey(CLAUDE, f.sessionId) in b.sessions && Balanced(b)
    ensures Balanced(ClaudeRowsBooks(b, f, since, n))
  {
    hide Balanced, ClaudeRowBooks;
    if n > 0 {
      ClaudeRowsKeepBalance(b, f, since, n - 1);
      ClaudeRowKeepsBalance(ClaudeRowsBooks(b, f, since, n - 1), f, since, n - 1);
    }
  }

  // ----- Codex logs: cumulative counters -----

  datatype CodexUsage = CodexUsage(inputTokens: int, cached: int, output: int, total: int)

  datatype CodexRow =
    | SessionMeta(worker: bool)
    | TurnContext(model: Option<string>, worker: bool)
    | TokenCount(usage: CodexUsage, lastInput: Option<int>, timestamp: string)
    | OtherCodex

  /** A reading's own split: what was not cached is input, never below zero. */
  function Split(u: CodexUsage): Tokens { Tokens(Max(u.inputTokens - u.cached, 0), u.cached, 0, u.output) }

  function Rise(now: Tokens, before: Tokens): Tokens {
    Tokens(Max(now.input - before.input, 0), Max(now.cacheRead - before.cacheRead, 0),
           Max(now.cacheWrite - before.cacheWrite, 0), Max(now.output - before.output, 0))
  }

  datatype Pending = Pending(delta: Tokens, context: int, timestamp: string, model: Option<string>)

  /** The first loop's variables after some rows. */
  datatype Scan = Scan(session: Session, model: Option<string>, firstModel: Option<string>,
                       previous: Option<CodexUsage>, pending: seq<Pending>)

  predicate Restarted(previous: Option<CodexUsage>, now: CodexUsage) {
    previous.Some? && now.total < previous.value.total
  }

  function Delta(previous: Option<CodexUsage>, now: CodexUsage): Tokens {
    if previous.None? || Restarted(previous, now) then Split(now) else Rise(Split(now), Split(previous.value))
  }

  function ScanRow(s: Scan, row: CodexRow, since: string): Scan {
    match row
    case SessionMeta(worker) => s.(session := Noted(s.session, worker))
    case TurnContext(model, worker) =>
      var now := if model.Some? && model.value != "" then model else s.model;
      s.(model := now, firstModel := if s.firstModel.None? then now
         else s.firstModel, session := Noted(s.session, worker))
    case OtherCodex => s
    case TokenCount(usage, lastInput, timestamp) =>
      var after := s.(previous := Some(usage));
      if !InWindow(since, timestamp) then after
      else
        var context := if lastInput.Some? then lastInput.value else usage.inputTokens;
        after.(session := if Restarted(s.previous, usage) then s.session.(compactions := s.session.compactions + 1)
               else s.session,
               pending := s.pending + [Pending(Delta(s.previous, usage), context, timestamp, s.model)])
  }

  function ScanRows(session: Session, rows: seq<CodexRow>, n: nat, since: string): Scan
    requires n <= |rows|
  {
    if n == 0 then Scan(session, None, None, None, [])
    else ScanRow(ScanRows(session, rows, n - 1, since), rows[n - 1], since)
  }

  function TurnModel(p: Pending, firstModel: Option<string>): string {
    if p.model.Some? then p.model.value else if firstModel.Some? then firstModel.value else UNKNOWN_MODEL
  }

  function BillPending(b: Books, k: SessionKey, pending: seq<Pending>, firstModel: Option<string>, n: nat): (r: Books)
    requires n <= |pending| && k in b.sessions
    ensures k in r.sessions
  {
    if n == 0 then b
    else
      var p := pending[n - 1];
      Billed(BillPending(b, k, pending, firstModel, n - 1), k, TurnModel(p, firstModel), p.delta, p.context,
             p.timestamp)
  }

  datatype CodexFile = CodexFile(sessionId: string, rows: seq<CodexRow>)

  function CodexBooks(b: Books, f: CodexFile, since: string): Books {
    var k := SessionKey(CODEX, f.sessionId);
    var begun := Opened(b, k, false);
    var scan := ScanRows(begun.sessions[k], f.rows, |f.rows|, since);
    BillPending(begun.(sessions := begun.sessions[k := scan.session]), k, scan.pending, scan.firstModel, |scan.pending|)
  }

  lemma {:induction false} ScanCountsNothing(session: Session, rows: seq<CodexRow>, n: nat, since: string)
    requires n <= |rows|
    ensures var s := ScanRows(session, rows, n, since).session;
            s.tokens == session.tokens && s.turns == session.turns && s.modelTokens == session.modelTokens
              && s.usageKeys == session.usageKeys
  {
    if n > 0 { ScanCountsNothing(session, rows, n - 1, since); }
  }

  lemma {:induction false} PendingKeepsBalance(b: Books, k: SessionKey, pending: seq<Pending>,
                                               firstModel: Option<string>, n: nat)
    requires n <= |pending| && k in b.sessions && k.tool != CLAUDE && Balanced(b)
    ensures Balanced(BillPending(b, k, pending, firstModel, n))
  {
    if n > 0 {
      PendingKeepsBalance(b, k, pending, firstModel, n - 1);
      var before, p := BillPending(b, k, pending, firstModel, n - 1), pending[n - 1];
      BillKeepsSides(before, k, TurnModel(p, firstModel), p.delta, p.context, p.timestamp);
      BillKeepsEntries(before, k, TurnModel(p, firstModel), p.delta, p.context, p.timestamp);
    }
  }

  // ----- any logs -----

  datatype Log = ClaudeLog(claude: ClaudeFile) | CodexLog(codex: CodexFile)

  function Collected(logs: seq<Log>, n: nat, since: string): Books
    requires n <= |logs|
  {
    if n == 0 then Books(map[], map[])
    else
      var before := Collected(logs, n - 1, since);
      match logs[n - 1]
      case ClaudeLog(f) => ClaudeBooks(before, f, since)
      case CodexLog(f) => CodexBooks(before, f, since)
  }

  lemma CodexKeepsBalance(b: Books, f: CodexFile, since: string)
    requires Balanced(b)
    ensures Balanced(CodexBooks(b, f, since))
  {
    hide Balanced, BillPending, ScanRows;
    var k := SessionKey(CODEX, f.sessionId);
    var begun := Opened(b, k, false);
    OpeningKeepsBalance(b, k, false);
    ScanCountsNothing(begun.sessions[k], f.rows, |f.rows|, since);
    var scan := ScanRows(begun.sessions[k], f.rows, |f.rows|, since);
    SameFiguresStayBalanced(begun, k, scan.session);
    PendingKeepsBalance(begun.(sessions := begun.sessions[k := scan.session]), k, scan.pending, scan.firstModel,
                        |scan.pending|);
  }

  /** After any logs: sessions and days agree on every field and on turns, every session's models
      add up to its total, and a Claude session has as many turns as usage keys. */
  lemma {:induction false} BooksBalance(logs: seq<Log>, n: nat, since: string)
    requires n <= |logs|
    ensures Balanced(Collected(logs, n, since))
  {
    if n == 0 {
    } else {
      BooksBalance(logs, n - 1, since);
      hide Balanced, ClaudeRowsBooks, CodexBooks;
      var before := Collected(logs, n - 1, since);
      match logs[n - 1]
      case ClaudeLog(f) =>
        OpeningKeepsBalance(before, SessionKey(CLAUDE, f.sessionId), f.workerProject);
        ClaudeRowsKeepBalance(Opened(before, SessionKey(CLAUDE, f.sessionId), f.workerProject), f, since, |f.rows|);
      case CodexLog(f) => CodexKeepsBalance(before, f, since);
    }
  }

  // ----- Claude: each usage key once, its first report wins -----

  function BillableKeys(f: ClaudeFile, since: string, n: nat): set<UsageKey>
    requires n <= |f.rows|
  {
    if n == 0 then {} else BillableKeys(f, since, n - 1) + RowKeys(f, since, n - 1)
  }

  /** What the rows report under keys reported neither before the file nor earlier in it. */
  function FirstReports(f: ClaudeFile, since: string, n: nat, before: set<UsageKey>): Tokens
    requires n <= |f.rows|
  {
    if n == 0 then NO_TOKENS
    else Plus(FirstReports(f, since, n - 1, before), RowTokens(f, since, n - 1, before + BillableKeys(f, since, n - 1)))
  }

  /** Every session but `k` is as it was. */
  ghost predicate OnlySession(before: Books, after: Books, k: SessionKey) {
    forall other :: other != k ==>
      (other in after.sessions <==> other in before.sessions)
        && (other in after.sessions ==> after.sessions[other] == before.sessions[other])
  }

  lemma ClaudeRowBills(b: Books, f: ClaudeFile, since: string, index: nat)
    requires index < |f.rows| && SessionKey(CLAUDE, f.sessionId) in b.sessions
    ensures var k := SessionKey(CLAUDE, f.sessionId);
            Billing(b, ClaudeRowBooks(b, f, since, index), k, RowKeys(f, since, index),
                    RowTokens(f, since, index, b.sessions[k].usageKeys))
  {
    hide InWindow, KeyOf, Added, DayKey, OtherSession;
  }

  lemma PlusIsAssociative(a: Tokens, b: Tokens, c: Tokens)
    ensures Plus(Plus(a, b), c) == Plus(a, Plus(b, c))
  {
  }

  /** What `after` has over `before` for session `k`: these keys and these tokens, and nothing else. */
  ghost predicate Billing(before: Books, after: Books, k: SessionKey, keys: set<UsageKey>, t: Tokens)
    requires k in before.sessions
  {
    && OnlySession(before, after, k) && k in after.sessions
    && after.sessions[k].usageKeys == before.sessions[k].usageKeys + keys
    && after.sessions[k].tokens == Plus(before.sessions[k].tokens, t)
  }

  lemma BillingTwice(a: Books, b: Books, c: Books, k: SessionKey, keys: set<UsageKey>, more: set<UsageKey>, t: Tokens,
                     u: Tokens)
    requires k in a.sessions && Billing(a, b, k, keys, t) && Billing(b, c, k, more, u)
    ensures Billing(a, c, k, keys + more, Plus(t, u))
  {
    OnlySessionTwice(a, b, c, k);
    PlusIsAssociative(a.sessions[k].tokens, t, u);
    hide OnlySession, Plus;
  }

  function RowKeys(f: ClaudeFile, since: string, index: nat): set<UsageKey>
    requires index < |f.rows|
  {
    if Billable(f, since, f.rows[index]) then {KeyOf(f.rows[index], index)} else {}
  }

  function RowTokens(f: ClaudeFile, since: string, index: nat, before: set<UsageKey>): Tokens
    requires index < |f.rows|
  {
    if Billable(f, since, f.rows[index]) && KeyOf(f.rows[index], index) !in before then UsageOf(f.rows[index])
    else NO_TOKENS
  }

  lemma {:induction false} ClaudeRowsBill(b: Books, f: ClaudeFile, since: string, n: nat)
    requires n <= |f.rows| && SessionKey(CLAUDE, f.sessionId) in b.sessions
    ensures var k := SessionKey(CLAUDE, f.sessionId);
            Billing(b, ClaudeRowsBooks(b, f, since, n), k, BillableKeys(f, since, n),
                    FirstReports(f, since, n, b.sessions[k].usageKeys))
  {
    var k := SessionKey(CLAUDE, f.sessionId);
    if n > 0 {
      ClaudeRowsBill(b, f, since, n - 1);
      var before := ClaudeRowsBooks(b, f, since, n - 1);
      var seen := before.sessions[k].usageKeys;
      assert seen == b.sessions[k].usageKeys + BillableKeys(f, since, n - 1);
      hide ClaudeRowBooks, Plus, RowKeys, RowTokens, Billing;
      assert FirstReports(f, since, n, b.sessions[k].usageKeys)
             == Plus(FirstReports(f, since, n - 1, b.sessions[k].usageKeys), RowTokens(f, since, n - 1, seen));
      hide FirstReports;
      ClaudeRowBills(before, f, since, n - 1);
      BillingTwice(b, before, ClaudeRowsBooks(b, f, since, n), k, BillableKeys(f, since, n - 1),
                   RowKeys(f, since, n - 1),
                   FirstReports(f, since, n - 1, b.sessions[k].usageKeys), RowTokens(f, since, n - 1, seen));
    }
  }

  lemma OnlySessionTwice(a: Books, b: Books, c: Books, k: SessionKey)
    requires OnlySession(a, b, k) && OnlySession(b, c, k)
    ensures OnlySession(a, c, k)
  {
  }

  /** All keys, and all first reports, of one session over every file mapped to it. */
  function SessionKeys(logs: seq<Log>, n: nat, since: string, id: string): set<UsageKey>
    requires n <= |logs|
  {
    if n == 0 then {}
    else
      var before := SessionKeys(logs, n - 1, since, id);
      if logs[n - 1].ClaudeLog? && logs[n - 1].claude.sessionId == id
      then before + BillableKeys(logs[n - 1].claude, since, |logs[n - 1].claude.rows|) else before
  }

  function SessionReports(logs: seq<Log>, n: nat, since: string, id: string): Tokens
    requires n <= |logs|
  {
    if n == 0 then NO_TOKENS
    else
      var before := SessionReports(logs, n - 1, since, id);
      if logs[n - 1].ClaudeLog? && logs[n - 1].claude.sessionId == id
      then Plus(before,
                FirstReports(logs[n - 1].claude, since, |logs[n - 1].claude.rows|,
                             SessionKeys(logs, n - 1, since, id))) else before
  }

  function SessionOf(b: Books, k: SessionKey): Session {
    if k in b.sessions then b.sessions[k] else Session(false, NO_TOKENS, 0, 0, 0, 0, map[], {}, {})
  }

  lemma {:induction false} CodexKeepsOthers(b: Books, k: SessionKey, pending: seq<Pending>, firstModel: Option<string>,
                                            n: nat)
    requires n <= |pending| && k in b.sessions
    ensures OnlySession(b, BillPending(b, k, pending, firstModel, n), k)
  {
    if n > 0 { CodexKeepsOthers(b, k, pending, firstModel, n - 1); }
  }

  lemma ClaudeFileReports(b: Books, f: ClaudeFile, since: string, id: string)
    ensures var before, after := SessionOf(b, SessionKey(CLAUDE, id)),
            SessionOf(ClaudeBooks(b, f, since), SessionKey(CLAUDE, id));
            if f.sessionId == id then
              && after.usageKeys == before.usageKeys + BillableKeys(f, since, |f.rows|)
              && after.tokens == Plus(before.tokens, FirstReports(f, since, |f.rows|, before.usageKeys))
            else after.usageKeys == before.usageKeys && after.tokens == before.tokens
  {
    hide ClaudeRowsBooks, BillableKeys, FirstReports;
    ClaudeRowsBill(Opened(b, SessionKey(CLAUDE, f.sessionId), f.workerProject), f, since, |f.rows|);
  }

  lemma CodexFileReports(b: Books, f: CodexFile, since: string, id: string)
    ensures SessionOf(CodexBooks(b, f, since), SessionKey(CLAUDE, id)) == SessionOf(b, SessionKey(CLAUDE, id))
  {
    hide BillPending, ScanRows;
    var k := SessionKey(CODEX, f.sessionId);
    var begun := Opened(b, k, false);
    var scan := ScanRows(begun.sessions[k], f.rows, |f.rows|, since);
    CodexKeepsOthers(begun.(sessions := begun.sessions[k := scan.session]), k, scan.pending, scan.firstModel,
                     |scan.pending|);
  }

  lemma TurnsAreKeys(b: Books, id: string)
    requires Balanced(b)
    ensures SessionOf(b, SessionKey(CLAUDE, id)).turns == |SessionOf(b, SessionKey(CLAUDE, id)).usageKeys|
  {
  }

  /** Each Claude usage key is billed exactly once across all files of its session, with the
      tokens of its first report. */
  lemma {:induction false} ClaudeBillsEachKeyOnce(logs: seq<Log>, n: nat, since: string, id: string)
    requires n <= |logs|
    ensures var s := SessionOf(Collected(logs, n, since), SessionKey(CLAUDE, id));
            && s.usageKeys == SessionKeys(logs, n, since, id)
            && s.tokens == SessionReports(logs, n, since, id)
            && s.turns == |SessionKeys(logs, n, since, id)|
  {
    hide Balanced, SessionOf, ClaudeBooks, CodexBooks, BillableKeys, FirstReports;
    BooksBalance(logs, n, since);
    TurnsAreKeys(Collected(logs, n, since), id);
    if n == 0 {
      NothingCollected(id);
    } else {
      ClaudeBillsEachKeyOnce(logs, n - 1, since, id);
      var before := Collected(logs, n - 1, since);
      match logs[n - 1]
      case ClaudeLog(f) => ClaudeFileReports(before, f, since, id);
      case CodexLog(f) => CodexFileReports(before, f, since, id);
    }
  }

  lemma NothingCollected(id: string)
    ensures SessionOf(Books(map[], map[]), SessionKey(CLAUDE, id)).usageKeys == {}
    ensures SessionOf(Books(map[], map[]), SessionKey(CLAUDE, id)).tokens == NO_TOKENS
  {
  }

  // ----- Codex: differencing a cumulative counter -----

  datatype Reading = Reading(usage: CodexUsage, counted: bool)

  function Readings(rows: seq<CodexRow>, n: nat, since: string): seq<Reading>
    requires n <= |rows|
  {
    if n == 0 then []
    else
      var before, row := Readings(rows, n - 1, since), rows[n - 1];
      if row.TokenCount? then before + [Reading(row.usage, InWindow(since, row.timestamp))] else before
  }

  function UsageBefore(r: seq<Reading>, i: nat): Option<CodexUsage>
    requires i <= |r|
  {
    if i == 0 then None else Some(r[i - 1].usage)
  }

  /** What the first `n` readings add to the bill. */
  function BilledUpTo(r: seq<Reading>, n: nat): Tokens
    requires n <= |r|
  {
    if n == 0 then NO_TOKENS
    else Plus(BilledUpTo(r, n - 1), if r[n - 1].counted then Delta(UsageBefore(r, n - 1), r[n - 1].usage)
              else NO_TOKENS)
  }

  function PendingSum(pending: seq<Pending>, n: nat): Tokens
    requires n <= |pending|
  {
    if n == 0 then NO_TOKENS else Plus(PendingSum(pending, n - 1), pending[n - 1].delta)
  }

  lemma {:induction false} BilledAppend(r: seq<Reading>, x: Reading, n: nat)
    requires n <= |r|
    ensures BilledUpTo(r + [x], n) == BilledUpTo(r, n)
  {
    if n > 0 { BilledAppend(r, x, n - 1); }
  }

  lemma {:induction false} PendingAppend(pending: seq<Pending>, p: Pending, n: nat)
    requires n <= |pending|
    ensures PendingSum(pending + [p], n) == PendingSum(pending, n)
  {
    if n > 0 { PendingAppend(pending, p, n - 1); }
  }

  /** The scan's bill so far is that of the readings so far. */
  ghost predicate InStep(scan: Scan, r: seq<Reading>) {
    scan.previous == UsageBefore(r, |r|) && PendingSum(scan.pending, |scan.pending|) == BilledUpTo(r, |r|)
  }

  lemma OneReadingInStep(scan: Scan, r: seq<Reading>, row: CodexRow, since: string)
    requires InStep(scan, r) && row.TokenCount?
    ensures InStep(ScanRow(scan, row, since), r + [Reading(row.usage, InWindow(since, row.timestamp))])
  {
    hide Delta, InWindow, Restarted, Plus;
    var x, after := Reading(row.usage, InWindow(since, row.timestamp)), ScanRow(scan, row, since);
    assert (r + [x])[|r|] == x;
    BilledAppend(r, x, |r|);
    if x.counted {
      PendingAppend(scan.pending, after.pending[|scan.pending|], |scan.pending|);
    } else {
      PlusNothing(BilledUpTo(r, |r|));
    }
  }

  lemma PlusNothing(t: Tokens)
    ensures Plus(t, NO_TOKENS) == t
  {
  }

  lemma {:induction false} ScanBillsReadings(session: Session, rows: seq<CodexRow>, n: nat, since: string)
    requires n <= |rows|
    ensures InStep(ScanRows(session, rows, n, since), Readings(rows, n, since))
  {
    if n > 0 {
      ScanBillsReadings(session, rows, n - 1, since);
      var scan, r, row := ScanRows(session, rows, n - 1, since), Readings(rows, n - 1, since), rows[n - 1];
      hide Delta, InWindow, Restarted, PendingSum, BilledUpTo;
      if row.TokenCount? { OneReadingInStep(scan, r, row, since); }
    }
  }

  lemma {:induction false} PendingIsBilled(b: Books, k: SessionKey, pending: seq<Pending>, firstModel: Option<string>,
                                           n: nat)
    requires n <= |pending| && k in b.sessions
    ensures BillPending(b, k, pending, firstModel, n).sessions[k].tokens
            == Plus(b.sessions[k].tokens, PendingSum(pending, n))
  {
    if n > 0 { PendingIsBilled(b, k, pending, firstModel, n - 1); }
  }

  /** A Codex file adds to its session exactly what its counter readings bill. */
  lemma CodexFileBillsReadings(b: Books, f: CodexFile, since: string)
    ensures var k, r := SessionKey(CODEX, f.sessionId), Readings(f.rows, |f.rows|, since);
            && k in CodexBooks(b, f, since).sessions
            && CodexBooks(b, f, since).sessions[k].tokens == Plus(SessionOf(b, k).tokens, BilledUpTo(r, |r|))
  {
    hide BillPending, ScanRows;
    var k := SessionKey(CODEX, f.sessionId);
    var begun := Opened(b, k, false);
    var scan := ScanRows(begun.sessions[k], f.rows, |f.rows|, since);
    ScanCountsNothing(begun.sessions[k], f.rows, |f.rows|, since);
    ScanBillsReadings(begun.sessions[k], f.rows, |f.rows|, since);
    PendingIsBilled(begun.(sessions := begun.sessions[k := scan.session]), k, scan.pending, scan.firstModel,
                    |scan.pending|);
  }

  predicate RestartsAt(r: seq<Reading>, i: nat)
    requires i < |r|
  {
    i > 0 && r[i].usage.total < r[i - 1].usage.total
  }

  /** What the log's own counters say of a field: cached tokens are part of the input counter. */
  function Counter(u: CodexUsage, q: Measure): int {
    match q
    case InputOf => if u.cached <= u.inputTokens then u.inputTokens - u.cached else 0
    case CacheReadOf => u.cached
    case CacheWriteOf => 0
    case OutputOf => u.output
    case TurnsOf => 0
  }

  /** The final readings of the segments that end before `m`, among the first `n` readings. */
  function SegmentEnds(r: seq<Reading>, q: Measure, m: nat, n: nat): int
    requires m <= n <= |r|
  {
    if m == 0 then 0
    else SegmentEnds(r, q, m - 1, n) + if m == n || RestartsAt(r, m) then Counter(r[m - 1].usage, q) else 0
  }

  lemma {:induction false} SegmentEndsEarlier(r: seq<Reading>, q: Measure, m: nat, n: nat)
    requires m < n < |r|
    ensures SegmentEnds(r, q, m, n + 1) == SegmentEnds(r, q, m, n)
  {
    if m > 0 { SegmentEndsEarlier(r, q, m - 1, n); }
  }

  lemma OneMoreReading(r: seq<Reading>, q: Measure, n: nat)
    requires n < |r|
    ensures SegmentEnds(r, q, n + 1, n + 1) ==
            SegmentEnds(r, q, n, n) + Counter(r[n].usage, q)
              - if n > 0 && !RestartsAt(r, n) then Counter(r[n - 1].usage, q) else 0
  {
    if n > 0 { SegmentEndsEarlier(r, q, n - 1, n); }
  }

  /** Within a segment the field never goes down, from reading `c` on. */
  ghost predicate NeverDrops(r: seq<Reading>, q: Measure, c: nat, n: nat)
    requires n <= |r|
  {
    forall i :: c <= i < n && i > 0 && !RestartsAt(r, i) ==> Counter(r[i - 1].usage, q) <= Counter(r[i].usage, q)
  }

  /** The window counts exactly the readings from `c` on. */
  ghost predicate CountedFrom(r: seq<Reading>, c: nat) {
    forall i :: 0 <= i < |r| ==> (r[i].counted <==> i >= c)
  }

  lemma {:induction false} NothingBefore(r: seq<Reading>, c: nat, n: nat)
    requires n <= c <= |r| && CountedFrom(r, c)
    ensures BilledUpTo(r, n) == NO_TOKENS
  {
    if n > 0 { NothingBefore(r, c, n - 1); }
  }

  lemma OneDelta(r: seq<Reading>, q: Measure, n: nat)
    requires n < |r| && q != TurnsOf
    ensures var rise := Counter(r[n].usage, q) - if n > 0 && !RestartsAt(r, n) then Counter(r[n - 1].usage, q) else 0;
            var delta := Of(q, Delta(UsageBefore(r, n), r[n].usage), 0);
            delta >= rise && (delta == rise <==>
                              n == 0 || RestartsAt(r, n) || Counter(r[n - 1].usage, q) <= Counter(r[n].usage, q))
  {
  }

  lemma OfPlus(q: Measure, a: Tokens, b: Tokens)
    ensures Of(q, Plus(a, b), 0) == Of(q, a, 0) + Of(q, b, 0)
  {
  }

  lemma OneMoreDrop(r: seq<Reading>, q: Measure, c: nat, n: nat)
    requires c < n <= |r|
    ensures NeverDrops(r, q, c, n) <==>
            NeverDrops(r, q, c, n - 1)
              && (n == 1 || RestartsAt(r, n - 1) || Counter(r[n - 2].usage, q) <= Counter(r[n - 1].usage, q))
  {
    hide Counter, RestartsAt;
  }

  /** Differencing: with the readings from `c` on in the window, each field is billed at least the
      final readings of its segments less what they read before the window, and exactly that
      when and only when the field never drops inside a segment. */
  lemma {:induction false} DifferencingExactlyWhenNoDrop(r: seq<Reading>, q: Measure, c: nat, n: nat)
    requires c <= n <= |r| && CountedFrom(r, c) && q != TurnsOf
    ensures var least := SegmentEnds(r, q, n, n) - SegmentEnds(r, q, c, c);
            && Of(q, BilledUpTo(r, n), 0) >= least
            && (Of(q, BilledUpTo(r, n), 0) == least <==> NeverDrops(r, q, c, n))
  {
    if n == c {
      NothingBefore(r, c, n);
      assert Of(q, NO_TOKENS, 0) == 0;
    } else {
      DifferencingExactlyWhenNoDrop(r, q, c, n - 1);
      assert r[n - 1].counted;
      hide Delta, Counter, SegmentEnds, RestartsAt, NeverDrops, Plus, Of, CountedFrom, UsageBefore;
      assert BilledUpTo(r, n) == Plus(BilledUpTo(r, n - 1), Delta(UsageBefore(r, n - 1), r[n - 1].usage));
      hide BilledUpTo;
      OneMoreReading(r, q, n - 1);
      OneDelta(r, q, n - 1);
      OneMoreDrop(r, q, c, n);
      OfPlus(q, BilledUpTo(r, n - 1), Delta(UsageBefore(r, n - 1), r[n - 1].usage));
    }
  }

  /** One segment and a window cut: the bill is the last reading less the last one before the window. */
  lemma WindowCutOfOneSegment(r: seq<Reading>, q: Measure, c: nat)
    requires 0 < c < |r| && CountedFrom(r, c) && q != TurnsOf && NeverDrops(r, q, c, |r|)
    requires forall i :: 0 <= i < |r| ==> !RestartsAt(r, i)
    ensures Of(q, BilledUpTo(r, |r|), 0) == Counter(r[|r| - 1].usage, q) - Counter(r[c - 1].usage, q)
  {
    DifferencingExactlyWhenNoDrop(r, q, c, |r|);
    OnlyLastEnds(r, q, |r|);
    OnlyLastEnds(r, q, c);
  }

  /** One segment the window does not cut, whose counters never go down and whose input counter
      includes what was cached: input and cache reads are billed together as the last input
      counter says, so nothing is billed twice, and nothing is billed as written to the cache. */
  lemma OneSegmentBillsItsCounter(r: seq<Reading>)
    requires r != [] && (forall i :: 0 <= i < |r| ==> r[i].counted && 0 <= r[i].usage.cached <= r[i].usage.inputTokens)
    requires forall i :: 0 < i < |r| ==>
               && r[i - 1].usage.total <= r[i].usage.total && r[i - 1].usage.cached <= r[i].usage.cached
               && r[i - 1].usage.inputTokens - r[i - 1].usage.cached <= r[i].usage.inputTokens - r[i].usage.cached
               && r[i - 1].usage.output <= r[i].usage.output
    ensures var billed, last := BilledUpTo(r, |r|), r[|r| - 1].usage;
            && billed.input + billed.cacheRead == last.inputTokens && billed.cacheRead == last.cached
            && billed.cacheWrite == 0 && billed.output == last.output
  {
    forall q: Measure | q != TurnsOf
      ensures Of(q, BilledUpTo(r, |r|), 0) == Counter(r[|r| - 1].usage, q)
    {
      DifferencingExactlyWhenNoDrop(r, q, 0, |r|);
      OnlyLastEnds(r, q, |r|);
    }
    assert Of(InputOf, BilledUpTo(r, |r|), 0) == BilledUpTo(r, |r|).input;
    assert Of(CacheReadOf, BilledUpTo(r, |r|), 0) == BilledUpTo(r, |r|).cacheRead;
    assert Of(CacheWriteOf, BilledUpTo(r, |r|), 0) == BilledUpTo(r, |r|).cacheWrite;
    assert Of(OutputOf, BilledUpTo(r, |r|), 0) == BilledUpTo(r, |r|).output;
  }

  lemma {:induction false} OnlyLastEnds(r: seq<Reading>, q: Measure, n: nat)
    requires 0 < n <= |r| && forall i :: 0 <= i < |r| ==> !RestartsAt(r, i)
    ensures SegmentEnds(r, q, n, n) == Counter(r[n - 1].usage, q)
  {
    OneMoreReading(r, q, n - 1);
    if n > 1 { OnlyLastEnds(r, q, n - 1); }
  }
}
