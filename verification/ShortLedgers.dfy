/** The counts and gates of a unit on ledgers of a few rows. */
module ShortLedgers {
  import opened Wrappers
  import opened LedgerModel
  import opened RetryBudget
  import opened RetryGate

  lemma EmptyLedger(u: Unit)
    ensures CodeAttempts([], u) == 0 && ResetFloor([], u) == -1 && Monotone([])
    ensures LatestStart([], u).None? && LatestSettle([], u).None?
  {
    assert CountedStarts([], u) == [];
  }

  /** Where nothing of the unit is recorded but requests, its gate is open below the cap. */
  lemma GateOpensFresh(rows: seq<Row>, u: Unit, now: int, max: nat, o: Oracles)
    requires NotAfter(rows, now) && CodeAttempts(rows, u) < max
    requires LatestStart(rows, u).None? && LatestSettle(rows, u).None?
    ensures Gate(rows, u, now, max, o).Pass?
  {
    hide CodeAttempts, Latest;
    GatePassesExactlyWhen(rows, u, now, max, o);
  }

  lemma GateOpensEmpty(u: Unit, now: int, max: nat, o: Oracles)
    requires max > 0
    ensures Gate([], u, now, max, o).Pass?
  {
    EmptyLedger(u);
    GateOpensFresh([], u, now, max, o);
  }

  lemma GateCaps(rows: seq<Row>, u: Unit, now: int, max: nat, o: Oracles)
    requires CodeAttempts(rows, u) >= max && LatestSettle(rows, u).None? && !CrashedOnInfra(rows, u, o)
    ensures Gate(rows, u, now, max, o) == Cap
  {
    hide CodeAttempts, Latest;
  }

  // ----- a START, its settle, and a START of the settle's second -----

  ghost predicate RefiledAtSettle(u: Unit, start: Row, settle: Row, again: Row) {
    && Hits(Starts(u), start) && Hits(Settles(u), settle) && Hits(Starts(u), again)
    && 0 <= start.epoch < settle.epoch == again.epoch && settle.meta.outcome == Some(Code)
  }

  lemma LatestRows(u: Unit, start: Row, settle: Row, again: Row)
    requires RefiledAtSettle(u, start, settle, again)
    ensures LatestSettle([start, settle], u) == Some(settle) && LatestStart([start, settle], u) == Some(start)
    ensures LatestSettle([start, settle, again], u) == Some(settle)
    ensures LatestStart([start, settle, again], u) == Some(again)
    ensures NotAfter([start, settle], settle.epoch) && NotAfter([start, settle, again], settle.epoch)
  {
    NewestIsLatest([start, settle], Settles(u), 1);
    NewestIsLatest([start, settle], Starts(u), 0);
    NewestIsLatest([start, settle, again], Settles(u), 1);
    NewestIsLatest([start, settle, again], Starts(u), 2);
  }

  lemma TwoInOrder(a: Row, b: Row)
    requires a.epoch <= b.epoch
    ensures Monotone([a]) && Monotone([a, b]) && [a, b] == [a] + [b]
  {
    assert [a] == [] + [a] && [a, b] == [a] + [b];
    MonotoneAppend([], a);
    MonotoneAppend([a], b);
  }

  lemma ThreeInOrder(a: Row, b: Row, c: Row)
    requires a.epoch <= b.epoch <= c.epoch
    ensures Monotone([a, b, c]) && [a, b, c] == [a, b] + [c]
  {
    TwoInOrder(a, b);
    hide Monotone;
    assert [a, b, c] == [a, b] + [c];
    MonotoneAppend([a, b], c);
  }

  /** The first START of a unit, in a ledger of its own. */
  lemma FirstAttempt(u: Unit, start: Row)
    requires Hits(Starts(u), start) && 0 <= start.epoch
    ensures CodeAttempts([start], u) == 1 && ResetFloor([start], u) == -1 && LatestSettle([start], u).None?
  {
    var empty: seq<Row> := [];
    EmptyLedger(u);
    TwoInOrder(start, start);
    assert [start] == empty + [start];
    AppendStep(empty, start, Settles(u));
    hide CodeAttempts, Monotone, Latest, UnitRows;
    UnitRowsFrame(empty, start, Resets(u));
    LaterStartSpendsOne(empty, start, u);
  }

  lemma SettledAttempt(u: Unit, start: Row, settle: Row)
    requires Hits(Starts(u), start) && Hits(Settles(u), settle) && 0 <= start.epoch <= settle.epoch
    ensures CodeAttempts([start, settle], u) <= 1
  {
    TwoInOrder(start, settle);
    hide CodeAttempts, Monotone, Latest, ResetFloor;
    FirstAttempt(u, start);
    AppendedRowAndBudget([start], settle, u);
  }

  lemma FewAttempts(u: Unit, start: Row, settle: Row, again: Row)
    requires RefiledAtSettle(u, start, settle, again)
    ensures CodeAttempts([start, settle], u) <= 1 && CodeAttempts([start, settle, again], u) <= 2
  {
    hide CodeAttempts, Monotone, Latest, ResetFloor;
    SettledAttempt(u, start, settle);
    LatestRows(u, start, settle, again);
    LaterIsNew([start, settle], again, u);
    ThreeInOrder(start, settle, again);
    AppendedRowAndBudget([start, settle], again, u);
  }

  /** Behind a settle of code the gate is open, START or not. */
  lemma GatesOpen(u: Unit, start: Row, settle: Row, again: Row, now: int, o: Oracles)
    requires RefiledAtSettle(u, start, settle, again) && settle.epoch <= now
    ensures Gate([start, settle], u, settle.epoch, 3, o).Pass? && Gate([start, settle, again], u, now, 3, o).Pass?
  {
    hide CodeAttempts, Latest, Gate;
    LatestRows(u, start, settle, again);
    FewAttempts(u, start, settle, again);
    SettledAsCode([start, settle], u, settle.epoch, 3, o, settle);
    SettledAsCode([start, settle, again], u, now, 3, o, settle);
  }

  /** A START is nothing to another unit. */
  lemma OthersStart(start: Row, u: Unit, other: Unit)
    requires Hits(Starts(u), start) && other != u
    ensures CodeAttempts([start], other) == 0 && ResetFloor([start], other) == -1
    ensures LatestStart([start], other).None? && LatestSettle([start], other).None?
  {
    var empty: seq<Row> := [];
    EmptyLedger(other);
    assert [start] == empty + [start];
    AppendStep(empty, start, Starts(other));
    AppendStep(empty, start, Settles(other));
    hide CodeAttempts, Latest, UnitRows;
    UnitRowsFrame(empty, start, Resets(other));
    OtherRowKeepsBudget(empty, start, other);
  }

  // ----- a request and its START -----

  lemma LatestIsBefore(rows: seq<Row>, q: Query, epoch: int)
    requires NotAfter(rows, epoch - 1)
    ensures IsBefore(Latest(rows, q), epoch)
  {
    var at := LatestPosition(rows, q);
  }

  lemma RequestIsNoAttempt(rows: seq<Row>, u: Unit, request: Row)
    requires Hits(Pendings(u), request) && Monotone(rows) && NotAfter(rows, request.epoch - 1)
    ensures var after := rows + [request];
            && Monotone(after) && NotAfter(after, request.epoch) && ResetFloor(after, u) == ResetFloor(rows, u)
            && CodeAttempts(after, u) == CodeAttempts(rows, u)
            && IsBefore(Latest(after, Starts(u)), request.epoch) && IsBefore(Latest(after, Settles(u)), request.epoch)
  {
    MonotoneAppend(rows, request);
    hide Monotone, UnitRows, CodeAttempts, Latest;
    UnitRowsFrame(rows, request, Resets(u));
    OtherRowKeepsBudget(rows, request, u);
    AppendStep(rows, request, Starts(u));
    AppendStep(rows, request, Settles(u));
    LatestIsBefore(rows, Starts(u), request.epoch);
    LatestIsBefore(rows, Settles(u), request.epoch);
  }

  /** A request and its START spend one attempt of their unit. */
  lemma FilingSpends(rows: seq<Row>, u: Unit, request: Row, start: Row)
    requires Hits(Pendings(u), request) && Hits(Starts(u), start) && request.epoch == start.epoch
    requires Monotone(rows) && NotAfter(rows, start.epoch - 1) && start.epoch > ResetFloor(rows, u)
    ensures var after := (rows + [request]) + [start];
            && Monotone(after) && NotAfter(after, start.epoch) && ResetFloor(after, u) == ResetFloor(rows, u)
            && CodeAttempts(after, u) == CodeAttempts(rows, u) + 1
  {
    var requested := rows + [request];
    hide CodeAttempts, UnitRows, Latest;
    RequestIsNoAttempt(rows, u, request);
    MonotoneAppend(requested, start);
    hide Monotone;
    UnitRowsFrame(requested, start, Resets(u));
    LaterStartSpendsOne(requested, start, u);
  }

  /** ... and nothing of another. */
  lemma FilingIsOthers(rows: seq<Row>, u: Unit, other: Unit, request: Row, start: Row)
    requires Hits(Pendings(u), request) && Hits(Starts(u), start) && other != u
    ensures var after := (rows + [request]) + [start];
            && CodeAttempts(after, other) == CodeAttempts(rows, other)
            && LatestStart(after, other) == LatestStart(rows, other)
               && LatestSettle(after, other) == LatestSettle(rows, other)
  {
    var requested := rows + [request];
    AppendStep(rows, request, Starts(other));
    AppendStep(rows, request, Settles(other));
    AppendStep(requested, start, Starts(other));
    AppendStep(requested, start, Settles(other));
    hide CodeAttempts, Latest;
    OtherRowKeepsBudget(rows, request, other);
    OtherRowKeepsBudget(requested, start, other);
  }
}
