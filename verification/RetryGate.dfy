/** The gate every planner-filed repair passes: retry decision, in-flight test, infra ownership. */
module RetryGate {
  import opened Wrappers
  import opened LedgerModel
  import opened RetryBudget

  const REPAIR_IN_FLIGHT_TTL_SECONDS := 5400
  const INFRA_REPAIR_OWNERSHIP_TTL_SECONDS := 1800

  datatype WorkflowStatus =
    | Running | PendingStatus | QueuedStatus
    | Completed | Failed | Cancelled | ReviewReady | Merged
    | OtherStatus(name: string)

  /** What the planner asks of the outside world during one tick: whether the workflow of a
      plan crashed on infrastructure before its agent ran, and a workflow's status. */
  datatype Oracles = Oracles(
    planName: Unit -> string,
    crashed: string -> bool,
    status: string -> Option<WorkflowStatus>)

  // ----- retry-ledger.mjs -----

  datatype Verdict = File | Backoff | NeedsHuman | SkipSuperseded

  function Pow2(n: nat): nat {
    if n == 0 then 1 else 2 * Pow2(n - 1)
  }

  function ShouldRetry(attempts: nat, lastAttemptMs: Option<int>, nowMs: int, maxAttempts: int,
                       backoffBaseMs: int): Verdict {
    if attempts >= maxAttempts then NeedsHuman
    else if lastAttemptMs.Some? && nowMs < lastAttemptMs.value + backoffBaseMs * Pow2(attempts) then Backoff
    else File
  }

  // ----- the gate's three questions -----

  function LatestStart(rows: seq<Row>, u: Unit): Option<Row> { Latest(rows, Starts(u)) }

  function LatestSettle(rows: seq<Row>, u: Unit): Option<Row> { Latest(rows, Settles(u)) }

  /** `repair_crash_reason`: the last START has no settle at or after it and its workflow crashed. */
  predicate CrashedOnInfra(rows: seq<Row>, u: Unit, o: Oracles) {
    var submitted, settled := LatestStart(rows, u), LatestSettle(rows, u);
    submitted.Some?
    && !(settled.Some? && settled.value.epoch >= submitted.value.epoch)
    && o.crashed(o.planName(u))
  }

  datatype Decision = Decision(verdict: Verdict, attempts: nat, crashed: bool)

  /** `retry_decision`, for the attempts counted on the current head. */
  function RetryDecision(count: nat, rows: seq<Row>, u: Unit, now: int, maxAttempts: int, o: Oracles,
                         backoffBaseMs: int := 0): Decision {
    var settled := LatestSettle(rows, u);
    if settled.Some? && settled.value.meta.outcome == Some(Superseded) then Decision(SkipSuperseded, 0, false)
    else
      if CrashedOnInfra(rows, u, o) then Decision(if count >= maxAttempts then NeedsHuman else File, count, true)
      else
        var last := Latest(rows, ByUnit(Start(u.kind), u.pr, u.key));
        var lastMs := if last.Some? then Some(last.value.epoch * 1000) else None;
        Decision(ShouldRetry(count, lastMs, now * 1000, maxAttempts, backoffBaseMs), count, false)
  }

  predicate RepairInFlight(rows: seq<Row>, u: Unit, now: int) {
    var submitted, settled := LatestStart(rows, u), LatestSettle(rows, u);
    if submitted.None? then false
    else if settled.Some? && settled.value.epoch >= submitted.value.epoch then
      settled.value.meta.outcome == Some(CapacityDeferred)
    else (now - submitted.value.epoch) < REPAIR_IN_FLIGHT_TTL_SECONDS
  }

  predicate InfraRepairOwnsUnit(rows: seq<Row>, u: Unit, now: int, o: Oracles) {
    var settled := LatestSettle(rows, u);
    if settled.None? || settled.value.meta.outcome != Some(Infra) then false
    else
      var recent := (now - settled.value.epoch) < INFRA_REPAIR_OWNERSHIP_TTL_SECONDS;
      var workflowId := settled.value.meta.workflowId;
      if workflowId.None? || workflowId.value == "" then recent
      else
        match o.status(workflowId.value)
        case Some(Running) => true
        case Some(PendingStatus) => true
        case Some(QueuedStatus) => true
        case Some(Failed) => recent
        case _ => false
  }

  datatype GateResult = Hold | Cap | Pass(crashed: bool)

  /** The chain every filing path runs, in its order: superseded, cap, backoff, in flight
      (unless the last attempt crashed on infra), infra-repair ownership. */
  function GateFor(count: nat, rows: seq<Row>, u: Unit, now: int, maxAttempts: int, o: Oracles): GateResult {
    var decision := RetryDecision(count, rows, u, now, maxAttempts, o);
    match decision.verdict
    case SkipSuperseded => Hold
    case NeedsHuman => Cap
    case Backoff => Hold
    case File =>
      if !decision.crashed && RepairInFlight(rows, u, now) then Hold
      else if InfraRepairOwnsUnit(rows, u, now, o) then Hold
      else Pass(decision.crashed)
  }

  function Gate(rows: seq<Row>, u: Unit, now: int, maxAttempts: int, o: Oracles): GateResult {
    GateFor(CodeAttempts(rows, u), rows, u, now, maxAttempts, o)
  }

  // ----- what passing the gate means -----

  /** A settle with this outcome keeps the gate shut by itself. */
  predicate KeepsShut(settle: Row) {
    settle.meta.outcome == Some(CapacityDeferred) || settle.meta.outcome == Some(Superseded)
  }

  /** What the code takes for the end of the unit's previous attempt, judged by epochs: there was
      none, or a settle not before it that does not keep the gate shut, or the in-flight time ran
      out, or its workflow is known to have crashed on infrastructure. */
  ghost predicate PreviousAttemptOver(rows: seq<Row>, u: Unit, now: int, crashed: bool) {
    var submitted, settled := LatestStart(rows, u), LatestSettle(rows, u);
    || submitted.None?
    || (settled.Some? && settled.value.epoch >= submitted.value.epoch && !KeepsShut(settled.value))
    || ((settled.None? || settled.value.epoch < submitted.value.epoch)
        && (crashed || now - submitted.value.epoch >= REPAIR_IN_FLIGHT_TTL_SECONDS))
  }

  lemma GateForPasses(count: nat, rows: seq<Row>, u: Unit, now: int, maxAttempts: int, o: Oracles)
    ensures GateFor(count, rows, u, now, maxAttempts, o).Pass? ==>
              && count < maxAttempts
              && PreviousAttemptOver(rows, u, now, GateFor(count, rows, u, now, maxAttempts, o).crashed)
              && (GateFor(count, rows, u, now, maxAttempts, o).crashed ==> CrashedOnInfra(rows, u, o))
    ensures NotAfter(rows, now) ==>
              (GateFor(count, rows, u, now, maxAttempts, o).Pass? <==>
               && count < maxAttempts
               && PreviousAttemptOver(rows, u, now, CrashedOnInfra(rows, u, o))
               && !(LatestSettle(rows, u).Some? && LatestSettle(rows, u).value.meta.outcome == Some(Superseded))
               && !InfraRepairOwnsUnit(rows, u, now, o))
  {
    var last := Latest(rows, ByUnit(Start(u.kind), u.pr, u.key));
    if last.Some? {
      var at := LatestPosition(rows, ByUnit(Start(u.kind), u.pr, u.key));
    }
  }

  /** The gate passes exactly when budget is left, no attempt is alive, the last settle is not
      superseded and infra-repair does not own the unit, for a ledger without future rows. */
  lemma GatePassesExactlyWhen(rows: seq<Row>, u: Unit, now: int, maxAttempts: int, o: Oracles)
    requires NotAfter(rows, now)
    ensures Gate(rows, u, now, maxAttempts, o).Pass? <==>
            && CodeAttempts(rows, u) < maxAttempts
            && PreviousAttemptOver(rows, u, now, CrashedOnInfra(rows, u, o))
            && !(LatestSettle(rows, u).Some? && LatestSettle(rows, u).value.meta.outcome == Some(Superseded))
            && !InfraRepairOwnsUnit(rows, u, now, o)
  {
    GateForPasses(CodeAttempts(rows, u), rows, u, now, maxAttempts, o);
  }

  /** The retry decision waits from the last attempt on, doubling the time with every attempt counted. */
  lemma BackoffDoubles(attempts: nat, last: Option<int>, nowMs: int, max: int, base: int)
    ensures Pow2(0) == 1 && Pow2(attempts + 1) == Pow2(attempts) + Pow2(attempts)
    ensures var verdict := ShouldRetry(attempts, last, nowMs, max, base);
            && (verdict == NeedsHuman <==> attempts >= max)
            && (verdict == File <==> attempts < max && (last.None? || nowMs - last.value >= base * Pow2(attempts)))
            && (verdict == Backoff <==> attempts < max && last.Some? && nowMs - last.value < base * Pow2(attempts))
  {
    hide Pow2;
    if attempts < max && last.Some? { assert base * Pow2(attempts) + last.value == last.value + base * Pow2(attempts); }
    PowersOfTwo(attempts);
  }

  lemma PowersOfTwo(n: nat)
    ensures Pow2(0) == 1 && Pow2(n + 1) == Pow2(n) + Pow2(n)
  {
  }

  /** Some attempt of the unit, on whatever head, is dated after now. */
  ghost predicate DatedLater(rows: seq<Row>, u: Unit, now: int) {
    exists i :: 0 <= i < |rows| && rows[i].kind == Start(u.kind) && rows[i].pr == u.pr && rows[i].key == u.key
                && rows[i].epoch > now
  }

  lemma LaterExactlyWhen(rows: seq<Row>, u: Unit, now: int)
    ensures var last := Latest(rows, ByUnit(Start(u.kind), u.pr, u.key));
            last.Some? && last.value.epoch > now <==> DatedLater(rows, u, now)
  {
    var at := LatestPosition(rows, ByUnit(Start(u.kind), u.pr, u.key));
  }

  /** The gate's answer on any ledger, in the order of its questions: superseded by a newer attempt;
      out of attempts; an attempt dated later; the last attempt unsettled for less than ninety
      minutes, or put off for capacity; infra-repair at work. A crash of the last attempt on
      infrastructure overrides the two questions about time. */
  lemma GateDecides(rows: seq<Row>, u: Unit, now: int, max: int, o: Oracles)
    ensures var start, settle, gate := LatestStart(rows, u), LatestSettle(rows, u), Gate(rows, u, now, max, o);
            var superseded := settle.Some? && settle.value.meta.outcome == Some(Superseded);
            var open := start.Some? && (settle.Some? ==> settle.value.epoch < start.value.epoch);
            var crashed := open && o.crashed(o.planName(u));
            var alive := if open then now - start.value.epoch < 5400
                         else start.Some? && settle.value.meta.outcome == Some(CapacityDeferred);
            && (gate == Cap <==> !superseded && CodeAttempts(rows, u) >= max)
            && (gate.Pass? <==> !superseded && CodeAttempts(rows, u) < max
                                && (crashed || (!DatedLater(rows, u, now) && !alive))
                                && !InfraRepairOwnsUnit(rows, u, now, o))
            && (gate.Pass? ==> gate.crashed == crashed)
  {
    hide CodeAttempts, Latest, InfraRepairOwnsUnit, DatedLater;
    LaterExactlyWhen(rows, u, now);
  }

  // ----- which attempt a settle ended -----

  /** A START of this second, filed behind these rows, shuts the gate: no settle of the unit
      stands in its own second, or the latest one keeps the gate shut by itself. */
  ghost predicate ShutsGate(rows: seq<Row>, u: Unit, epoch: int) {
    var settled := LatestSettle(rows, u);
    settled.None? || settled.value.epoch < epoch || KeepsShut(settled.value)
  }

  /** The attempt started at `i` was ended at `p`: the unit's newest settle, written after it. */
  ghost predicate EndedAt(rows: seq<Row>, u: Unit, i: int, p: int) {
    i < p < |rows| && IsNewest(rows, Settles(u), p) && !KeepsShut(rows[p])
  }

  /** The attempt started at `i` is over: ended by a settle behind it in the file, or by time, or
      its workflow is known to have crashed on infrastructure. */
  ghost predicate AttemptOver(rows: seq<Row>, u: Unit, i: nat, now: int, crashed: bool)
    requires i < |rows|
  {
    (exists p :: EndedAt(rows, u, i, p)) || now - rows[i].epoch >= REPAIR_IN_FLIGHT_TTL_SECONDS || crashed
  }

  lemma NewestIsLatest(rows: seq<Row>, q: Query, i: int)
    requires IsNewest(rows, q, i)
    ensures Latest(rows, q) == Some(rows[i])
  {
    var at := LatestPosition(rows, q);
  }

  lemma OverByPosition(rows: seq<Row>, u: Unit, i: nat, now: int, crashed: bool)
    requires PreviousAttemptOver(rows, u, now, crashed) && IsNewest(rows, Starts(u), i)
    requires ShutsGate(rows[..i], u, rows[i].epoch)
    ensures AttemptOver(rows, u, i, now, crashed)
  {
    NewestIsLatest(rows, Starts(u), i);
    if LatestSettle(rows, u).Some? {
      var p := LatestPosition(rows, Settles(u));
      if p < i {
        assert IsNewest(rows[..i], Settles(u), p);
        NewestIsLatest(rows[..i], Settles(u), p);
      } else if !KeepsShut(rows[p]) {
        assert EndedAt(rows, u, i, p);
      }
    }
  }

  /** A pass means budget left and, when the unit's last START had shut the gate, that attempt over. */
  lemma GatePass(rows: seq<Row>, u: Unit, now: int, maxAttempts: int, o: Oracles)
    requires Gate(rows, u, now, maxAttempts, o).Pass?
    ensures CodeAttempts(rows, u) < maxAttempts
    ensures forall i: nat :: IsNewest(rows, Starts(u), i) && ShutsGate(rows[..i], u, rows[i].epoch) ==>
              AttemptOver(rows, u, i, now, Gate(rows, u, now, maxAttempts, o).crashed)
    ensures Gate(rows, u, now, maxAttempts, o).crashed ==> CrashedOnInfra(rows, u, o)
  {
    var crashed := Gate(rows, u, now, maxAttempts, o).crashed;
    GateForPasses(CodeAttempts(rows, u), rows, u, now, maxAttempts, o);
    forall i: nat | IsNewest(rows, Starts(u), i) && ShutsGate(rows[..i], u, rows[i].epoch)
      ensures AttemptOver(rows, u, i, now, crashed)
    {
      OverByPosition(rows, u, i, now, crashed);
    }
  }

  /** While its in-flight time lasts, only a confirmed crash lets another filing follow the last START. */
  ghost predicate HoldsOff(rows: seq<Row>, u: Unit, epoch: int) {
    forall now, max: nat, o :: epoch <= now < epoch + REPAIR_IN_FLIGHT_TTL_SECONDS ==>
      Gate(rows, u, now, max, o) != Pass(false)
  }

  lemma LastRowIsLatest(rows: seq<Row>, r: Row, u: Unit)
    requires Monotone(rows + [r]) && Hits(Starts(u), r)
    ensures LatestStart(rows + [r], u) == Some(r) && LatestSettle(rows + [r], u) == LatestSettle(rows, u)
    ensures LatestSettle(rows, u).Some? ==> LatestSettle(rows, u).value.epoch <= r.epoch
  {
    MonotoneAppend(rows, r);
    AppendStep(rows, r, Starts(u));
    AppendStep(rows, r, Settles(u));
    var start := LatestPosition(rows, Starts(u));
    var settle := LatestPosition(rows, Settles(u));
  }

  /** With the gate shut behind it a new START holds off the next filing. Otherwise an earlier
      attempt's settle of its own second is taken for its own, and half an hour later, its
      workflow still running, the gate is open. */
  lemma StartHoldsOffExactlyWhen(rows: seq<Row>, u: Unit, r: Row)
    requires Monotone(rows + [r]) && Hits(Starts(u), r)
    ensures HoldsOff(rows + [r], u, r.epoch) <==> ShutsGate(rows, u, r.epoch)
  {
    hide CodeAttempts, Latest;
    LastRowIsLatest(rows, r, u);
    if !ShutsGate(rows, u, r.epoch) {
      var now, max := r.epoch + INFRA_REPAIR_OWNERSHIP_TTL_SECONDS, CodeAttempts(rows + [r], u) + 1;
      var o := Oracles(_ => "", _ => false, _ => None);
      assert NotAfter(rows + [r], now) by { MonotoneAppend(rows, r); }
      GatePassesExactlyWhen(rows + [r], u, now, max, o);
      assert Gate(rows + [r], u, now, max, o) == Pass(false);
    }
  }

  // ----- the gate and infra-repair -----

  /** The workflow infra-repair took the unit over with: its id, and the owner's answer for it. */
  function RepairStatus(settled: Row, o: Oracles): Option<WorkflowStatus> {
    if settled.meta.workflowId.Some? && settled.meta.workflowId.value != ""
    then o.status(settled.meta.workflowId.value) else None
  }

  /** An attempt that ended in an infra settle is filed again exactly when budget is left, the
      workflow of the settle is not live, and its time is over unless that workflow is known by
      id and did not fail. */
  lemma InfraSettledIsRefiledExactlyWhen(rows: seq<Row>, u: Unit, now: int, maxAttempts: int, o: Oracles)
    requires NotAfter(rows, now) && LatestSettle(rows, u).Some?
    requires LatestSettle(rows, u).value.meta.outcome == Some(Infra)
    requires LatestStart(rows, u).Some? ==> LatestStart(rows, u).value.epoch <= LatestSettle(rows, u).value.epoch
    ensures var settled := LatestSettle(rows, u).value;
            var status := RepairStatus(settled, o);
            Gate(rows, u, now, maxAttempts, o) == Pass(false) <==>
            && CodeAttempts(rows, u) < maxAttempts
            && status != Some(Running) && status != Some(PendingStatus) && status != Some(QueuedStatus)
            && (|| now - settled.epoch >= 1800
                || (settled.meta.workflowId.Some? && settled.meta.workflowId.value != "" && status != Some(Failed)))
  {
    hide CodeAttempts, Latest;
    GatePassesExactlyWhen(rows, u, now, maxAttempts, o);
  }

  // ----- what the gate lets the budget do -----

  /** Whether the gate passes is up to the count when the latest settle ended the last attempt as code. */
  lemma SettledAsCode(rows: seq<Row>, u: Unit, now: int, max: nat, o: Oracles, code: Row)
    requires NotAfter(rows, now) && LatestSettle(rows, u) == Some(code) && code.meta.outcome == Some(Code)
    requires LatestStart(rows, u).Some? ==> LatestStart(rows, u).value.epoch <= code.epoch
    ensures Gate(rows, u, now, max, o) == (if CodeAttempts(rows, u) < max then Pass(false) else Cap)
  {
    hide CodeAttempts, Latest;
    GatePassesExactlyWhen(rows, u, now, max, o);
  }

  /** Nothing is counted, settled or latest on an empty ledger. */
  lemma NothingYet(u: Unit)
    ensures CountedStarts([], u) == [] && UnitRows([], Settles(u)) == [] && ResetFloor([], u) == -1
    ensures Monotone([]) && Latest([], Settles(u)).None? && Latest([], Starts(u)).None?
  {
  }

  /** The unit's rows after a superseded and a code settle of one second. */
  lemma TwoSettles(u: Unit, superseded: Row, code: Row)
    requires Hits(Settles(u), superseded) && Hits(Settles(u), code) && superseded.epoch == code.epoch
    ensures var rows := ([] + [superseded]) + [code];
            && Monotone(rows) && NotAfter(rows, code.epoch)
            && CountedStarts(rows, u) == [] && UnitRows(rows, Settles(u)) == [superseded, code]
               && ResetFloor(rows, u) == -1
            && LatestSettle(rows, u) == Some(code) && LatestStart(rows, u).None?
  {
    var empty: seq<Row> := [];
    var one := empty + [superseded];
    var rows := one + [code];
    hide CountedStarts, UnitRows, ResetFloor, Latest, Monotone;
    NothingYet(u);
    MonotoneAppend(empty, superseded);
    MonotoneAppend(one, code);
    AppendStep(empty, superseded, Settles(u));
    AppendStep(one, code, Settles(u));
    AppendStep(empty, superseded, Starts(u));
    AppendStep(one, code, Starts(u));
    CountedAppend(empty, superseded, u);
    CountedAppend(one, code, u);
    assert one == [superseded] && rows == [superseded, code];
  }

  /** ... and after a START of that second, once and twice. */
  lemma SameSecondLedger(u: Unit, start: Row, superseded: Row, code: Row)
    requires Hits(Starts(u), start) && Hits(Settles(u), superseded) && Hits(Settles(u), code)
    requires start.epoch == superseded.epoch == code.epoch >= 0
    ensures var rows := ([] + [superseded]) + [code];
            && Monotone((rows + [start]) + [start]) && NotAfter((rows + [start]) + [start], start.epoch)
            && CountedStarts(rows, u) == [] && UnitRows(rows, Settles(u)) == [superseded, code]
               && ResetFloor(rows, u) == -1
            && CountedStarts(rows + [start], u) == [start] && UnitRows(rows + [start], Settles(u)) == [superseded, code]
            && ResetFloor(rows + [start], u) == -1
            && LatestSettle(rows, u) == Some(code) && LatestStart(rows, u).None?
            && LatestSettle(rows + [start], u) == Some(code) && LatestStart(rows + [start], u) == Some(start)
  {
    var rows := ([] + [superseded]) + [code];
    hide CountedStarts, UnitRows, ResetFloor, Latest, Monotone;
    TwoSettles(u, superseded, code);
    MonotoneAppend(rows, start);
    MonotoneAppend(rows + [start], start);
    CountedAppend(rows, start, u);
    AppendStep(rows, start, Settles(u));
    AppendStep(rows, start, Starts(u));
    assert [] + [start] == [start];
  }

  lemma SecondStartSettles(start: Row, superseded: Row, code: Row)
    requires start.epoch == superseded.epoch
    ensures FirstFrom([superseded, code], start.epoch) == Some(superseded)
    ensures IndexOf([start], start) == 0 && IndexOf([], start) == 0
    ensures SettleOf([start], [superseded, code], start) == Some(superseded)
  {
  }

  /** What the two STARTs of that ledger spend. */
  lemma SameSecondSpends(rows: seq<Row>, u: Unit, start: Row, superseded: Row, code: Row)
    requires start.epoch == superseded.epoch >= 0 && superseded.meta.outcome == Some(Superseded)
    requires CountedStarts(rows, u) == [] && CountedStarts(rows + [start], u) == [start]
    requires ResetFloor(rows, u) == -1 && ResetFloor(rows + [start], u) == -1
    requires UnitRows(rows, Settles(u)) == [superseded, code]
    requires UnitRows(rows + [start], Settles(u)) == [superseded, code]
    ensures SpendOf(rows, start, u) == 0 && SpendOf(rows + [start], start, u) == 2 && CodeAttempts(rows, u) == 0
  {
    hide UnitRows, ResetFloor, CountedStarts, SettleOf, FirstFrom, IndexFrom;
    SecondStartSettles(start, superseded, code);
  }

  /** Both gates pass, and the counts are what the STARTs spend. */
  lemma TwoFilings(rows: seq<Row>, u: Unit, start: Row, code: Row, o: Oracles)
    requires Hits(Starts(u), start) && Monotone((rows + [start]) + [start]) && code.epoch == start.epoch
    requires SpendOf(rows, start, u) == 0 && SpendOf(rows + [start], start, u) == 2 && CodeAttempts(rows, u) == 0
    requires LatestSettle(rows, u) == Some(code) && LatestStart(rows, u).None? && code.meta.outcome == Some(Code)
    requires LatestSettle(rows + [start], u) == Some(code) && LatestStart(rows + [start], u) == Some(start)
    ensures Gate(rows, u, start.epoch, 1, o) == Pass(false)
    ensures Gate(rows + [start], u, start.epoch, 1, o) == Pass(false) && CodeAttempts(rows + [start], u) == 0
    ensures CodeAttempts((rows + [start]) + [start], u) == 2
  {
    MonotoneAppend(rows + [start], start);
    MonotoneAppend(rows, start);
    hide Gate, SpendOf, Latest, CodeAttempts, Monotone;
    StartRaisesBudget(rows, start, u);
    StartRaisesBudget(rows + [start], start, u);
    SettledAsCode(rows, u, start.epoch, 1, o, code);
    SettledAsCode(rows + [start], u, start.epoch, 1, o, code);
  }

  /** The count is no sum of filings. Behind a superseded and a later settle of one second the
      gate passes with nothing spent, and a START of that second spends nothing; the gate passes
      again, and the same START word for word then spends two, over a cap of one. */
  lemma IdenticalStartSpendsTwo(u: Unit, start: Row, superseded: Row, code: Row, o: Oracles) returns (rows: seq<Row>)
    requires Hits(Starts(u), start) && Hits(Settles(u), superseded) && Hits(Settles(u), code)
    requires start.epoch == superseded.epoch == code.epoch >= 0
    requires superseded.meta.outcome == Some(Superseded) && code.meta.outcome == Some(Code)
    ensures rows == [superseded, code] && Monotone((rows + [start]) + [start])
    ensures Gate(rows, u, start.epoch, 1, o) == Pass(false) && CodeAttempts(rows, u) == 0
    ensures Gate(rows + [start], u, start.epoch, 1, o) == Pass(false) && CodeAttempts(rows + [start], u) == 0
    ensures CodeAttempts((rows + [start]) + [start], u) == 2
  {
    rows := ([] + [superseded]) + [code];
    hide Gate, SpendOf, CountedStarts, UnitRows, ResetFloor, Latest, CodeAttempts, Monotone, Hits;
    SameSecondLedger(u, start, superseded, code);
    SameSecondSpends(rows, u, start, superseded, code);
    TwoFilings(rows, u, start, code, o);
  }
}
