/** The two passes that settle finished repairs at the start of every tick. */
module SettlePasses {
  import opened Wrappers
  import opened LedgerModel
  import opened RetryBudget
  import opened RetryGate

  /** One workflow of the owner's list. */
  datatype Workflow = Workflow(name: string, id: Option<string>, status: Option<WorkflowStatus>)

  /** What the passes ask of the owner. `classify` is `None` where it raises; `workflows` is
      `None` when the list cannot be read. */
  datatype Owner = Owner(
    status: string -> Option<WorkflowStatus>,
    classify: (string, WorkflowStatus) -> Option<Outcome>,
    planName: Unit -> string,
    workflows: Option<seq<Workflow>>)

  /** The ledger so far, and whether an exception ended the pass. */
  datatype PassState = PassState(rows: seq<Row>, raised: bool)

  predicate IsTerminal(s: Option<WorkflowStatus>) {
    s == Some(Completed) || s == Some(Failed) || s == Some(Cancelled) || s == Some(ReviewReady) || s == Some(Merged)
  }

  predicate IsFastpathKind(k: RepairKind) { k == ConflictRepair || k == RebaseOntoMaster || k == RepairCheck }

  predicate IsTrackedKind(k: RepairKind) { k != RequeueEscalation }

  function UnitOf(r: Row): Unit
    requires r.kind.Start? || r.kind.Pending?
  {
    Unit(r.kind.repair, r.pr, r.head, r.key)
  }

  predicate BadIdChar(ch: char) {
    ch == ' ' || ch == '\t' || ch == '\n' || ch == '\r' || ch == '\\' || ch == '"' || ch == '\'' || ch == '/'
  }

  predicate IsResolvable(id: string) {
    "wf-" <= id && |id| > 3 && forall i :: 0 <= i < |id| ==> !BadIdChar(id[i])
  }

  predicate HasId(m: Meta) { m.workflowId.Some? && m.workflowId.value != "" }

  predicate SettledSince(rows: seq<Row>, q: Query, epoch: int) {
    Latest(rows, q).Some? && Latest(rows, q).value.epoch >= epoch
  }

  function SettledRow(u: Unit, now: int, outcome: Outcome, workflowId: Option<string>): Row {
    Row(Settled(u.kind), u.pr, u.head, u.key, now, NO_META.(outcome := Some(outcome), workflowId := workflowId))
  }

  // ----- settle_workflow_fastpath_rows -----

  function FastStep(p: PassState, row: Row, now: int, o: Owner): PassState {
    if p.raised || !row.kind.Start? || !IsFastpathKind(row.kind.repair) || !HasId(row.meta) then p
    else
      var u, id := UnitOf(row), row.meta.workflowId.value;
      if SettledSince(p.rows, Settles(u), row.epoch) then p
      else if !IsResolvable(id) then PassState(p.rows + [SettledRow(u, now, Infra, Some(id))], false)
      else
        var status := o.status(id);
        if !IsTerminal(status) then p
        else
          var outcome := o.classify(id, status.value);
          if outcome.None? then PassState(p.rows, true)
          else PassState(p.rows + [SettledRow(u, now, outcome.value, Some(id))], false)
  }

  /** After the first `n` rows of the list the pass copied. */
  function FastLoop(copied: seq<Row>, n: nat, now: int, o: Owner): PassState
    requires n <= |copied|
  {
    if n == 0 then PassState(copied, false) else FastStep(FastLoop(copied, n - 1, now, o), copied[n - 1], now, o)
  }

  function FastPass(rows: seq<Row>, now: int, o: Owner): PassState { FastLoop(rows, |rows|, now, o) }

  method SettleWorkflowFastpathRows(ledger: Ledger, now: int, o: Owner) returns (settled: nat, raised: bool)
    modifies ledger
    ensures PassState(ledger.rows, raised) == FastPass(old(ledger.rows), now, o)
    ensures |ledger.rows| == |old(ledger.rows)| + settled
  {
    var copied := ledger.rows;
    settled, raised := 0, false;
    for i := 0 to |copied|
      invariant PassState(ledger.rows, raised) == FastLoop(copied, i, now, o)
      invariant |ledger.rows| == |copied| + settled
      invariant !raised
    {
      var row := copied[i];
      if !row.kind.Start? || !IsFastpathKind(row.kind.repair) || !HasId(row.meta) { continue; }
      var u, id := UnitOf(row), row.meta.workflowId.value;
      var existing := ledger.LatestRow(Settles(u));
      if existing.Some? && existing.value.epoch >= row.epoch { continue; }
      if !IsResolvable(id) {
        ledger.Record(SettledRow(u, now, Infra, Some(id)));
        settled := settled + 1;
        continue;
      }
      var status := o.status(id);
      if IsTerminal(status) {
        var outcome := o.classify(id, status.value);
        if outcome.None? {
          raised := true;
          RaisedStays(copied, i + 1, now, o);
          return;
        }
        ledger.Record(SettledRow(u, now, outcome.value, Some(id)));
        settled := settled + 1;
      }
    }
  }

  lemma {:induction false} RaisedStays(copied: seq<Row>, n: nat, now: int, o: Owner)
    requires n <= |copied| && FastLoop(copied, n, now, o).raised
    ensures FastPass(copied, now, o) == FastLoop(copied, n, now, o)
    decreases |copied| - n
  {
    if n < |copied| { RaisedStays(copied, n + 1, now, o); }
  }

  // ----- settle_repairer_plan_rows -----

  predicate IsPendingRequest(r: Row) { r.kind.Pending? && IsTrackedKind(r.kind.repair) }

  /** A START the pass still has to settle, judged on the ledger it read at the beginning. */
  predicate IsUnsettledStart(rows: seq<Row>, r: Row) {
    r.kind.Start? && IsTrackedKind(r.kind.repair) && !SettledSince(rows, Settles(UnitOf(r)), r.epoch)
  }

  function NameMatch(workflows: seq<Workflow>, name: string, i: nat): Option<Workflow>
    requires i <= |workflows|
    decreases |workflows| - i
  {
    if i == |workflows| then None
    else if workflows[i].name == name then Some(workflows[i])
    else NameMatch(workflows, name, i + 1)
  }

  function RequestedPlan(r: Row, o: Owner): string
    requires r.kind.Pending?
  {
    if r.meta.planName.Some? && r.meta.planName.value != "" then r.meta.planName.value else o.planName(UnitOf(r))
  }

  predicate Answered(rows: seq<Row>, r: Row)
    requires r.kind.Pending?
  {
    || SettledSince(rows, Starts(UnitOf(r)), r.epoch)
    || SettledSince(rows, Exact(PendingSettled(r.kind.repair), r.pr, r.head, r.key), r.epoch)
  }

  /** What the pass records for an unanswered request: an acknowledged START when its plan is
      among the workflows, else a settled request that never reached the owner. */
  function AnswerRow(r: Row, now: int, o: Owner, workflows: seq<Workflow>): Row
    requires r.kind.Pending?
  {
    var name := RequestedPlan(r, o);
    var found := NameMatch(workflows, name, 0);
    if found.Some? then
      Row(Start(r.kind.repair), r.pr, r.head, r.key, now,
          NO_META.(planName := Some(name), workflowId := found.value.id))
    else
      Row(PendingSettled(r.kind.repair), r.pr, r.head, r.key, now,
          NO_META.(planName := Some(name), outcome := Some(Infra)))
  }

  function PendingLoop(copied: seq<Row>, n: nat, now: int, o: Owner, workflows: seq<Workflow>): seq<Row>
    requires n <= |copied|
  {
    if n == 0 then copied
    else
      var rows, r := PendingLoop(copied, n - 1, now, o, workflows), copied[n - 1];
      if !IsPendingRequest(r) || Answered(rows, r) then rows else rows + [AnswerRow(r, now, o, workflows)]
  }

  function StartStep(p: PassState, copied: seq<Row>, r: Row, now: int, o: Owner, workflows: seq<Workflow>): PassState {
    if p.raised || !IsUnsettledStart(copied, r) then p
    else
      var u := UnitOf(r);
      var found := NameMatch(workflows, o.planName(u), 0);
      if found.None? || !IsTerminal(found.value.status) then p
      else
        var id := found.value.id;
        var outcome := if id.Some? && id.value != "" then o.classify(id.value, found.value.status.value)
        else Some(Unknown);
        if outcome.None? then PassState(p.rows, true)
        else PassState(p.rows + [SettledRow(u, now, outcome.value, id)], false)
  }

  function StartLoop(copied: seq<Row>, answered: seq<Row>, n: nat, now: int, o: Owner,
                     workflows: seq<Workflow>): PassState
    requires n <= |copied|
  {
    if n == 0 then PassState(answered, false)
    else StartStep(StartLoop(copied, answered, n - 1, now, o, workflows), copied, copied[n - 1], now, o, workflows)
  }

  function PlanPass(rows: seq<Row>, now: int, o: Owner): PassState {
    if o.workflows.None? then PassState(rows, false)
    else
      var workflows := o.workflows.value;
      StartLoop(rows, PendingLoop(rows, |rows|, now, o, workflows), |rows|, now, o, workflows)
  }

  method SettleRepairerPlanRows(ledger: Ledger, now: int, o: Owner) returns (settled: nat, raised: bool)
    modifies ledger
    ensures PassState(ledger.rows, raised) == PlanPass(old(ledger.rows), now, o)
    ensures |ledger.rows| == |old(ledger.rows)| + settled
  {
    hide Latest, NameMatch, AnswerRow, SettledRow, RequestedPlan;
    var copied := ledger.rows;
    settled, raised := 0, false;
    if o.workflows.None? { return; }
    var workflows := o.workflows.value;
    for i := 0 to |copied|
      invariant ledger.rows == PendingLoop(copied, i, now, o, workflows)
      invariant |ledger.rows| == |copied| + settled
    {
      var r := copied[i];
      if !IsPendingRequest(r) { continue; }
      var ack := ledger.LatestRow(Starts(UnitOf(r)));
      if ack.Some? && ack.value.epoch >= r.epoch { continue; }
      var done := ledger.LatestRow(Exact(PendingSettled(r.kind.repair), r.pr, r.head, r.key));
      if done.Some? && done.value.epoch >= r.epoch { continue; }
      ledger.Record(AnswerRow(r, now, o, workflows));
      settled := settled + 1;
    }
    ghost var answered := ledger.rows;
    for i := 0 to |copied|
      invariant PassState(ledger.rows, raised) == StartLoop(copied, answered, i, now, o, workflows)
      invariant |ledger.rows| == |copied| + settled
      invariant !raised
    {
      var r := copied[i];
      if !IsUnsettledStart(copied, r) { continue; }
      var u := UnitOf(r);
      var found := NameMatch(workflows, o.planName(u), 0);
      if found.None? || !IsTerminal(found.value.status) { continue; }
      var id := found.value.id;
      var outcome := if id.Some? && id.value != "" then o.classify(id.value, found.value.status.value)
      else Some(Unknown);
      if outcome.None? {
        raised := true;
        RaisedStartStays(copied, answered, i + 1, now, o, workflows);
        return;
      }
      ledger.Record(SettledRow(u, now, outcome.value, id));
      settled := settled + 1;
    }
  }

  lemma {:induction false} RaisedStartStays(copied: seq<Row>, answered: seq<Row>, n: nat, now: int, o: Owner,
                                            workflows: seq<Workflow>)
    requires n <= |copied| && StartLoop(copied, answered, n, now, o, workflows).raised
    ensures StartLoop(copied, answered, |copied|, now, o, workflows)
            == StartLoop(copied, answered, n, now, o, workflows)
    decreases |copied| - n
  {
    if n < |copied| { RaisedStartStays(copied, answered, n + 1, now, o, workflows); }
  }

  // ----- which settle answers a START -----

  /** A settle of its unit stands behind the START at `i`. */
  ghost predicate SettledBehind(rows: seq<Row>, i: nat)
    requires i < |rows| && rows[i].kind.Start?
  {
    exists p :: i < p < |rows| && Hits(Settles(UnitOf(rows[i])), rows[p])
  }

  /** A settle of its unit stands before the START at `i`, in the START's own second. */
  ghost predicate IsMasked(rows: seq<Row>, i: nat)
    requires i < |rows| && rows[i].kind.Start?
  {
    exists p :: 0 <= p < i && Hits(Settles(UnitOf(rows[i])), rows[p]) && rows[p].epoch == rows[i].epoch
  }

  lemma SinceByPosition(rows: seq<Row>, i: nat)
    requires Monotone(rows) && i < |rows| && rows[i].kind.Start?
    ensures SettledSince(rows, Settles(UnitOf(rows[i])), rows[i].epoch) <==> SettledBehind(rows, i) || IsMasked(rows, i)
  {
    var q := Settles(UnitOf(rows[i]));
    var at := LatestPosition(rows, q);
    if SettledSince(rows, q, rows[i].epoch) && at < i { MonotonePairs(rows, at, i); }
    if SettledBehind(rows, i) {
      var p :| i < p < |rows| && Hits(q, rows[p]);
      MonotonePairs(rows, i, p);
    }
  }

  /** A START is left for the plan pass to settle exactly when no settle of its unit stands behind
      it and none before it in its own second: a masked START is never settled. */
  lemma LeftToSettleExactlyWhen(rows: seq<Row>, i: nat)
    requires Monotone(rows) && i < |rows| && rows[i].kind.Start? && rows[i].kind.repair != RequeueEscalation
    ensures IsUnsettledStart(rows, rows[i]) <==> !SettledBehind(rows, i) && !IsMasked(rows, i)
  {
    SinceByPosition(rows, i);
  }

  // ----- what the passes look for, by name -----

  /** The owner calls a workflow over. */
  ghost predicate HasEnded(s: Option<WorkflowStatus>) {
    s.Some? && s.value in {Completed, Failed, Cancelled, ReviewReady, Merged}
  }

  /** An id the owner can be asked for: "wf-" and something more, no space, quote, slash or backslash. */
  ghost predicate CanBeAsked(id: string) {
    |id| >= 4 && id[..3] == "wf-" && forall i :: 0 <= i < |id| ==> id[i] !in " \t\n\r\\\"'/"
  }

  lemma ResolvableExactlyWhen(id: string)
    ensures IsResolvable(id) <==> CanBeAsked(id)
  {
    assert forall ch :: ch in " \t\n\r\\\"'/" <==> BadIdChar(ch);
    if "wf-" <= id { assert id[..3] == "wf-"; }
  }

  ghost predicate IsFirstNamed(workflows: seq<Workflow>, name: string, k: int) {
    0 <= k < |workflows| && workflows[k].name == name && forall m :: 0 <= m < k ==> workflows[m].name != name
  }

  lemma {:induction false} MatchIsFirstNamed(workflows: seq<Workflow>, name: string, i: nat)
    requires i <= |workflows| && forall m :: 0 <= m < i ==> workflows[m].name != name
    ensures NameMatch(workflows, name, i).None? <==> forall m :: 0 <= m < |workflows| ==> workflows[m].name != name
    ensures NameMatch(workflows, name, i).Some? ==>
              exists k :: IsFirstNamed(workflows, name, k) && NameMatch(workflows, name, i) == Some(workflows[k])
    ensures forall k :: IsFirstNamed(workflows, name, k) ==> NameMatch(workflows, name, i) == Some(workflows[k])
    decreases |workflows| - i
  {
    if i < |workflows| {
      if workflows[i].name == name { assert IsFirstNamed(workflows, name, i); }
      else { MatchIsFirstNamed(workflows, name, i + 1); }
    }
  }

  // ----- convergence -----

  /** The owner always answers, and its classifier never raises. */
  ghost predicate Total(o: Owner) {
    && o.workflows.Some?
    && forall id, s :: o.classify(id, s).Some?
  }

  lemma SettledSinceStays(rows: seq<Row>, r: Row, q: Query, epoch: int)
    requires SettledSince(rows, q, epoch)
    ensures SettledSince(rows + [r], q, epoch)
  {
    AppendStep(rows, r, q);
  }

  lemma NewHitSettles(rows: seq<Row>, r: Row, q: Query, epoch: int)
    requires Hits(q, r) && r.epoch >= epoch
    ensures SettledSince(rows + [r], q, epoch)
  {
    AppendStep(rows, r, q);
  }

  /** The fast pass has nothing to do for this row. */
  ghost predicate FastDone(rows: seq<Row>, r: Row, o: Owner) {
    r.kind.Start? && IsFastpathKind(r.kind.repair) && HasId(r.meta) ==>
      || SettledSince(rows, Settles(UnitOf(r)), r.epoch)
      || (IsResolvable(r.meta.workflowId.value) && !IsTerminal(o.status(r.meta.workflowId.value)))
  }

  ghost predicate IsPrefix(before: seq<Row>, after: seq<Row>) {
    |before| <= |after| && after[..|before|] == before
  }

  lemma {:induction false} RowsOfNow(before: seq<Row>, after: seq<Row>, now: int)
    requires Monotone(before) && NotAfter(before, now) && IsPrefix(before, after)
    requires forall k :: |before| <= k < |after| ==> after[k].epoch == now
    ensures Monotone(after) && NotAfter(after, now)
  {
    if after == before {
    } else {
      var init := after[..|after| - 1];
      assert init[..|before|] == before;
      RowsOfNow(before, init, now);
    }
  }

  /** Why a fast-path settle was written: its START's workflow can never be looked up, an infra
      outcome, or is terminal, with the outcome its classification gives. */
  ghost predicate FastJustified(r: Row, starts: seq<Row>, now: int, o: Owner) {
    r.kind.Settled? && r.epoch == now &&
    exists i :: 0 <= i < |starts| && FastCause(r, starts[i], o)
  }

  ghost predicate FastCause(r: Row, start: Row, o: Owner) {
    && r.kind.Settled? && r.kind.repair in {ConflictRepair, RebaseOntoMaster, RepairCheck}
    && start.kind == Start(r.kind.repair) && start.pr == r.pr && start.head == r.head && start.key == r.key
    && start.meta.workflowId.Some? && start.meta.workflowId.value != ""
    && var id := start.meta.workflowId.value;
       if !CanBeAsked(id) then r.meta == NO_META.(outcome := Some(Infra), workflowId := Some(id))
       else HasEnded(o.status(id))
            && r.meta == NO_META.(outcome := o.classify(id, o.status(id).value), workflowId := Some(id))
  }

  lemma FastStepWork(p: PassState, row: Row, now: int, o: Owner)
    ensures var after := FastStep(p, row, now, o).rows;
            after == p.rows
              || (|after| == |p.rows| + 1 && after == p.rows + [after[|p.rows|]] && after[|p.rows|].epoch == now
                  && FastCause(after[|p.rows|], row, o))
  {
    hide SettledSince, IsResolvable, CanBeAsked;
    if row.kind.Start? && HasId(row.meta) { ResolvableExactlyWhen(row.meta.workflowId.value); }
  }

  lemma {:induction false} FastLoopWork(copied: seq<Row>, n: nat, now: int, o: Owner)
    requires n <= |copied|
    ensures var p := FastLoop(copied, n, now, o);
            && IsPrefix(copied, p.rows)
            && (forall k :: |copied| <= k < |p.rows| ==> FastJustified(p.rows[k], copied, now, o))
  {
    hide FastStep, FastCause;
    if n > 0 {
      FastLoopWork(copied, n - 1, now, o);
      var p := FastLoop(copied, n - 1, now, o);
      FastStepWork(p, copied[n - 1], now, o);
      var after := FastStep(p, copied[n - 1], now, o);
      if after.rows != p.rows { CauseIsSettle(after.rows[|p.rows|], copied[n - 1], o); }
    }
  }

  lemma CauseIsSettle(r: Row, start: Row, o: Owner)
    requires FastCause(r, start, o)
    ensures r.kind.Settled?
  {
  }

  lemma {:induction false} FastLoopDone(copied: seq<Row>, n: nat, now: int, o: Owner)
    requires n <= |copied| && Total(o) && NotAfter(copied, now)
    ensures !FastLoop(copied, n, now, o).raised
    ensures forall i :: 0 <= i < n ==> FastDone(FastLoop(copied, n, now, o).rows, copied[i], o)
  {
    hide Latest, IsResolvable;
    if n > 0 {
      FastLoopDone(copied, n - 1, now, o);
      var p := FastLoop(copied, n - 1, now, o);
      var after := FastStep(p, copied[n - 1], now, o);
      if after.rows != p.rows {
        var t := after.rows[|p.rows|];
        assert after.rows == p.rows + [t];
        NewHitSettles(p.rows, t, Settles(UnitOf(copied[n - 1])), copied[n - 1].epoch);
        forall i | 0 <= i < n - 1
          ensures FastDone(after.rows, copied[i], o)
        {
          if copied[i].kind.Start? && SettledSince(p.rows, Settles(UnitOf(copied[i])), copied[i].epoch) {
            SettledSinceStays(p.rows, t, Settles(UnitOf(copied[i])), copied[i].epoch);
          }
        }
      }
    }
  }

  lemma {:induction false} FastNothingToDo(rows: seq<Row>, n: nat, now: int, o: Owner)
    requires n <= |rows| && forall i :: 0 <= i < |rows| ==> FastDone(rows, rows[i], o)
    ensures FastLoop(rows, n, now, o) == PassState(rows, false)
  {
    if n > 0 { FastNothingToDo(rows, n - 1, now, o); }
  }

  /** The fast pass is through with the START at `i`: settled behind, or masked, or its workflow
      can be looked up and is not terminal. */
  ghost predicate FastThrough(rows: seq<Row>, i: nat, o: Owner)
    requires i < |rows|
  {
    var r := rows[i];
    r.kind.Start? && r.kind.repair in {ConflictRepair, RebaseOntoMaster, RepairCheck}
    && r.meta.workflowId.Some? && r.meta.workflowId.value != "" ==>
      || SettledBehind(rows, i) || IsMasked(rows, i)
      || (CanBeAsked(r.meta.workflowId.value) && !HasEnded(o.status(r.meta.workflowId.value)))
  }

  lemma FastPassWork(rows: seq<Row>, now: int, o: Owner)
    requires Total(o) && NotAfter(rows, now)
    ensures var p := FastPass(rows, now, o);
            && !p.raised && IsPrefix(rows, p.rows)
            && (forall k :: |rows| <= k < |p.rows| ==> FastJustified(p.rows[k], rows, now, o))
            && (forall i :: 0 <= i < |p.rows| ==> FastDone(p.rows, p.rows[i], o))
  {
    hide FastLoop, FastDone, FastCause;
    FastLoopWork(rows, |rows|, now, o);
    FastLoopDone(rows, |rows|, now, o);
    var p := FastPass(rows, now, o);
    forall i | 0 <= i < |p.rows|
      ensures FastDone(p.rows, p.rows[i], o)
    {
      if i < |rows| { assert p.rows[i] == rows[i]; } else { SettleIsDone(p.rows, i, rows, now, o); }
    }
  }

  lemma SettleIsDone(after: seq<Row>, i: nat, rows: seq<Row>, now: int, o: Owner)
    requires i < |after| && FastJustified(after[i], rows, now, o)
    ensures FastDone(after, after[i], o)
  {
  }

  lemma DoneIsThrough(rows: seq<Row>, i: nat, o: Owner)
    requires Monotone(rows) && i < |rows| && FastDone(rows, rows[i], o)
    ensures FastThrough(rows, i, o)
  {
    hide IsResolvable, CanBeAsked;
    if rows[i].kind.Start? { SinceByPosition(rows, i); }
    if HasId(rows[i].meta) { ResolvableExactlyWhen(rows[i].meta.workflowId.value); }
  }

  /** The fast pass only appends settles of terminal or unresolvable workflows, leaves every
      tracked START settled behind, masked or live, and a second pass, at any later time,
      appends nothing. */
  lemma FastPassConverges(rows: seq<Row>, now: int, later: int, o: Owner)
    requires Total(o) && NotAfter(rows, now)
    ensures var p := FastPass(rows, now, o);
            && !p.raised && IsPrefix(rows, p.rows)
            && (forall k :: |rows| <= k < |p.rows| ==> FastJustified(p.rows[k], rows, now, o))
            && (Monotone(rows) ==> Monotone(p.rows) && forall i :: 0 <= i < |p.rows| ==> FastThrough(p.rows, i, o))
            && FastPass(p.rows, later, o) == p
  {
    hide FastLoop, FastThrough, FastCause;
    FastPassWork(rows, now, o);
    var p := FastPass(rows, now, o);
    assert forall k :: |rows| <= k < |p.rows| ==> FastJustified(p.rows[k], rows, now, o) && p.rows[k].epoch == now;
    if Monotone(rows) {
      RowsOfNow(rows, p.rows, now);
      forall i | 0 <= i < |p.rows|
        ensures FastThrough(p.rows, i, o)
      {
        DoneIsThrough(p.rows, i, o);
      }
    }
    FastNothingToDo(p.rows, |p.rows|, later, o);
  }

  lemma {:induction false} SettledSinceExtends(before: seq<Row>, after: seq<Row>, q: Query, epoch: int)
    requires IsPrefix(before, after) && SettledSince(before, q, epoch)
    ensures SettledSince(after, q, epoch)
  {
    if after == before {
    } else {
      var init, last := after[..|after| - 1], after[|after| - 1];
      assert init[..|before|] == before;
      SettledSinceExtends(before, init, q, epoch);
      SettledSinceStays(init, last, q, epoch);
      assert init + [last] == after;
    }
  }

  /** The plan pass has nothing to do for this START. */
  ghost predicate StartDone(rows: seq<Row>, r: Row, o: Owner)
    requires o.workflows.Some?
  {
    r.kind.Start? && IsTrackedKind(r.kind.repair) ==>
      SettledSince(rows, Settles(UnitOf(r)), r.epoch) || LiveOrUnknown(UnitOf(r), o)
  }

  /** No workflow of the unit's plan name is known, or the first one has not ended. */
  ghost predicate LiveOrUnknown(u: Unit, o: Owner)
    requires o.workflows.Some?
  {
    forall k :: IsFirstNamed(o.workflows.value, o.planName(u), k) ==> !HasEnded(o.workflows.value[k].status)
  }

  lemma LiveExactlyWhen(u: Unit, o: Owner)
    requires o.workflows.Some?
    ensures var found := NameMatch(o.workflows.value, o.planName(u), 0);
            LiveOrUnknown(u, o) <==> found.None? || !IsTerminal(found.value.status)
  {
    MatchIsFirstNamed(o.workflows.value, o.planName(u), 0);
  }

  ghost predicate IsAnswer(r: Row) { (r.kind.Start? && IsTrackedKind(r.kind.repair)) || r.kind.PendingSettled? }

  lemma AnswerIsAnAnswer(r: Row, now: int, o: Owner, workflows: seq<Workflow>)
    requires IsPendingRequest(r)
    ensures IsAnswer(AnswerRow(r, now, o, workflows)) && AnswerRow(r, now, o, workflows).epoch == now
  {
    hide NameMatch, RequestedPlan;
  }

  lemma {:induction false} PendingLoopWork(copied: seq<Row>, n: nat, now: int, o: Owner, workflows: seq<Workflow>)
    requires n <= |copied|
    ensures var rows := PendingLoop(copied, n, now, o, workflows);
            && IsPrefix(copied, rows)
            && (forall k :: |copied| <= k < |rows| ==> IsAnswer(rows[k]) && rows[k].epoch == now)
  {
    hide Answered, AnswerRow;
    if n > 0 {
      PendingLoopWork(copied, n - 1, now, o, workflows);
      if IsPendingRequest(copied[n - 1]) { AnswerIsAnAnswer(copied[n - 1], now, o, workflows); }
    }
  }

  lemma AnswerAnswers(rows: seq<Row>, r: Row, now: int, o: Owner, workflows: seq<Workflow>)
    requires IsPendingRequest(r) && r.epoch <= now
    ensures Answered(rows + [AnswerRow(r, now, o, workflows)], r)
  {
    var a := AnswerRow(r, now, o, workflows);
    if a.kind.Start? { NewHitSettles(rows, a, Starts(UnitOf(r)), r.epoch); }
    else { NewHitSettles(rows, a, Exact(PendingSettled(r.kind.repair), r.pr, r.head, r.key), r.epoch); }
  }

  lemma AnsweredExtends(before: seq<Row>, after: seq<Row>, r: Row)
    requires IsPrefix(before, after) && r.kind.Pending? && Answered(before, r)
    ensures Answered(after, r)
  {
    if SettledSince(before, Starts(UnitOf(r)), r.epoch) {
      SettledSinceExtends(before, after, Starts(UnitOf(r)), r.epoch);
    }
    else { SettledSinceExtends(before, after, Exact(PendingSettled(r.kind.repair), r.pr, r.head, r.key), r.epoch); }
  }

  lemma {:induction false} PendingLoopAnswers(copied: seq<Row>, n: nat, now: int, o: Owner, workflows: seq<Workflow>)
    requires n <= |copied| && NotAfter(copied, now)
    ensures forall i :: 0 <= i < n && IsPendingRequest(copied[i]) ==>
              Answered(PendingLoop(copied, n, now, o, workflows), copied[i])
  {
    hide Latest, AnswerRow, Answered;
    if n > 0 {
      PendingLoopAnswers(copied, n - 1, now, o, workflows);
      var before, after := PendingLoop(copied, n - 1, now, o, workflows), PendingLoop(copied, n, now, o, workflows);
      if IsPendingRequest(copied[n - 1]) && !Answered(before, copied[n - 1]) {
        AnswerAnswers(before, copied[n - 1], now, o, workflows);
      }
      forall i | 0 <= i < n - 1 && IsPendingRequest(copied[i])
        ensures Answered(after, copied[i])
      {
        assert IsPrefix(before, after);
        AnsweredExtends(before, after, copied[i]);
      }
    }
  }

  /** Why the plan pass settled a START: the workflow of its plan is terminal, with the outcome
      its classification gives, unknown where the workflow has no id. */
  ghost predicate PlanCause(r: Row, start: Row, o: Owner, workflows: seq<Workflow>) {
    && start.kind.Start? && start.kind.repair != RequeueEscalation
    && r.kind == Settled(start.kind.repair) && r.pr == start.pr && r.head == start.head && r.key == start.key
    && exists k :: IsFirstNamed(workflows, o.planName(UnitOf(start)), k) && EndedAs(r.meta, workflows[k], o)
  }

  /** The workflow ended, and the row says as what. */
  ghost predicate EndedAs(m: Meta, w: Workflow, o: Owner) {
    && HasEnded(w.status) && m.workflowId == w.id
    && m.outcome == if w.id.Some? && w.id.value != "" then o.classify(w.id.value, w.status.value) else Some(Unknown)
  }

  ghost predicate PlanJustified(r: Row, starts: seq<Row>, o: Owner, workflows: seq<Workflow>) {
    exists i :: 0 <= i < |starts| && PlanCause(r, starts[i], o, workflows)
  }

  /** The plan pass settles only STARTs it found, and only for such a reason. */
  lemma {:induction false} PlanSettlesAreJustified(copied: seq<Row>, answered: seq<Row>, n: nat, now: int, o: Owner,
                                                   workflows: seq<Workflow>)
    requires n <= |copied|
    ensures var p := StartLoop(copied, answered, n, now, o, workflows);
            && |answered| <= |p.rows|
            && (forall k :: |answered| <= k < |p.rows| ==> PlanJustified(p.rows[k], copied, o, workflows))
  {
    if n > 0 {
      PlanSettlesAreJustified(copied, answered, n - 1, now, o, workflows);
      hide NameMatch, Latest;
      var p := StartLoop(copied, answered, n - 1, now, o, workflows);
      var after := StartStep(p, copied, copied[n - 1], now, o, workflows);
      if after.rows != p.rows {
        MatchIsFirstNamed(workflows, o.planName(UnitOf(copied[n - 1])), 0);
        assert PlanCause(after.rows[|p.rows|], copied[n - 1], o, workflows);
      }
    }
  }

  /** The answer to a request: a START with the id of the first workflow of its plan, and where no
      workflow has that name an infra settle of the request. The plan is the one the request
      names, else the unit's own. */
  ghost predicate Answers(a: Row, r: Row, now: int, o: Owner, workflows: seq<Workflow>) {
    && r.kind.Pending? && r.kind.repair != RequeueEscalation
    && a.pr == r.pr && a.head == r.head && a.key == r.key && a.epoch == now
    && var name := if r.meta.planName.Some? && |r.meta.planName.value| > 0 then r.meta.planName.value
                   else o.planName(Unit(r.kind.repair, r.pr, r.head, r.key));
       a.meta.planName == Some(name)
       && if exists k :: 0 <= k < |workflows| && workflows[k].name == name
          then a.kind == Start(r.kind.repair)
               && exists k :: IsFirstNamed(workflows, name, k) && a.meta.workflowId == workflows[k].id
          else a.kind == PendingSettled(r.kind.repair) && a.meta.outcome == Some(Infra)
  }

  lemma AnswerAnswersItsRequest(r: Row, now: int, o: Owner, workflows: seq<Workflow>)
    requires IsPendingRequest(r)
    ensures Answers(AnswerRow(r, now, o, workflows), r, now, o, workflows)
  {
    MatchIsFirstNamed(workflows, RequestedPlan(r, o), 0);
  }

  lemma {:induction false} PendingLoopAnswersOnly(copied: seq<Row>, n: nat, now: int, o: Owner,
                                                  workflows: seq<Workflow>)
    requires n <= |copied|
    ensures var rows := PendingLoop(copied, n, now, o, workflows);
            && |copied| <= |rows|
            && (forall k :: |copied| <= k < |rows| ==>
                  exists i :: 0 <= i < |copied| && Answers(rows[k], copied[i], now, o, workflows))
  {
    hide Answered, AnswerRow, Answers;
    if n > 0 {
      PendingLoopAnswersOnly(copied, n - 1, now, o, workflows);
      if IsPendingRequest(copied[n - 1]) { AnswerAnswersItsRequest(copied[n - 1], now, o, workflows); }
    }
  }

  /** Every row the plan pass writes answers a request it found, or settles a START it found. */
  lemma PlanPassWritesOnlyAnswers(rows: seq<Row>, now: int, o: Owner, k: nat)
    requires o.workflows.Some? && |rows| <= k < |PlanPass(rows, now, o).rows|
    ensures var r := PlanPass(rows, now, o).rows[k];
            || (exists i :: 0 <= i < |rows| && Answers(r, rows[i], now, o, o.workflows.value))
            || PlanJustified(r, rows, o, o.workflows.value)
  {
    var workflows := o.workflows.value;
    var answered := PendingLoop(rows, |rows|, now, o, workflows);
    hide PendingLoop, StartLoop, Answers, PlanJustified;
    PendingLoopAnswersOnly(rows, |rows|, now, o, workflows);
    PlanSettlesAreJustified(rows, answered, |rows|, now, o, workflows);
    StartLoopWork(rows, answered, |rows|, now, o, workflows);
    if k < |answered| { assert PlanPass(rows, now, o).rows[..|answered|][k] == answered[k]; }
  }

  lemma {:induction false} StartLoopWork(copied: seq<Row>, answered: seq<Row>, n: nat, now: int, o: Owner,
                                         workflows: seq<Workflow>)
    requires n <= |copied|
    ensures var p := StartLoop(copied, answered, n, now, o, workflows);
            && IsPrefix(answered, p.rows)
            && (forall k :: |answered| <= k < |p.rows| ==> p.rows[k].kind.Settled? && p.rows[k].epoch == now)
  {
    if n > 0 { StartLoopWork(copied, answered, n - 1, now, o, workflows); }
  }

  lemma StartDoneStays(before: seq<Row>, after: seq<Row>, r: Row, o: Owner)
    requires o.workflows.Some? && IsPrefix(before, after) && StartDone(before, r, o)
    ensures StartDone(after, r, o)
  {
    hide Latest, NameMatch;
    if r.kind.Start? && SettledSince(before, Settles(UnitOf(r)), r.epoch) {
      SettledSinceExtends(before, after, Settles(UnitOf(r)), r.epoch);
    }
  }

  lemma StartStepDone(p: PassState, copied: seq<Row>, r: Row, now: int, o: Owner)
    requires Total(o) && !p.raised && IsPrefix(copied, p.rows) && r.epoch <= now
    ensures var after := StartStep(p, copied, r, now, o, o.workflows.value);
            !after.raised && IsPrefix(p.rows, after.rows) && StartDone(after.rows, r, o)
  {
    hide Latest, NameMatch, LiveOrUnknown;
    var after := StartStep(p, copied, r, now, o, o.workflows.value);
    if r.kind.Start? { LiveExactlyWhen(UnitOf(r), o); }
    if after.rows != p.rows {
      var t := after.rows[|p.rows|];
      assert after.rows == p.rows + [t];
      NewHitSettles(p.rows, t, Settles(UnitOf(r)), r.epoch);
    } else if r.kind.Start? && IsTrackedKind(r.kind.repair) && !IsUnsettledStart(copied, r) {
      SettledSinceExtends(copied, p.rows, Settles(UnitOf(r)), r.epoch);
    }
  }

  lemma {:induction false} StartLoopDone(copied: seq<Row>, answered: seq<Row>, n: nat, now: int, o: Owner)
    requires n <= |copied| && Total(o) && NotAfter(copied, now) && IsPrefix(copied, answered)
    ensures !StartLoop(copied, answered, n, now, o, o.workflows.value).raised
    ensures forall i :: 0 <= i < n ==>
              StartDone(StartLoop(copied, answered, n, now, o, o.workflows.value).rows, copied[i], o)
  {
    if n > 0 {
      StartLoopDone(copied, answered, n - 1, now, o);
      var workflows := o.workflows.value;
      StartLoopWork(copied, answered, n - 1, now, o, workflows);
      var p := StartLoop(copied, answered, n - 1, now, o, workflows);
      var after := StartStep(p, copied, copied[n - 1], now, o, workflows);
      assert IsPrefix(copied, p.rows);
      hide StartStep, StartDone, Latest;
      StartStepDone(p, copied, copied[n - 1], now, o);
      forall i | 0 <= i < n - 1
        ensures StartDone(after.rows, copied[i], o)
      {
        StartDoneStays(p.rows, after.rows, copied[i], o);
      }
    }
  }

  /** Every tracked request is acknowledged or settled. */
  ghost predicate AllAnswered(rows: seq<Row>) {
    forall i :: 0 <= i < |rows| && rows[i].kind.Pending? && rows[i].kind.repair != RequeueEscalation ==>
      Answered(rows, rows[i])
  }

  /** Every tracked START is settled, or its workflow is not terminal. */
  ghost predicate AllStartsDone(rows: seq<Row>, o: Owner)
    requires o.workflows.Some?
  {
    forall i :: 0 <= i < |rows| ==> StartDone(rows, rows[i], o)
  }

  /** One pass answers every request, and settles every START that was there before it. */
  lemma PlanPassWork(rows: seq<Row>, now: int, o: Owner)
    requires Total(o) && NotAfter(rows, now)
    ensures var p := PlanPass(rows, now, o);
            && !p.raised && IsPrefix(rows, p.rows) && NotAfter(p.rows, now) && AllAnswered(p.rows)
            && (forall i :: 0 <= i < |rows| ==> StartDone(p.rows, rows[i], o))
  {
    var workflows := o.workflows.value;
    var answered, p := PendingLoop(rows, |rows|, now, o, workflows), PlanPass(rows, now, o);
    PendingLoopWork(rows, |rows|, now, o, workflows);
    PendingLoopAnswers(rows, |rows|, now, o, workflows);
    StartLoopWork(rows, answered, |rows|, now, o, workflows);
    StartLoopDone(rows, answered, |rows|, now, o);
    assert forall k :: 0 <= k < |answered| ==> p.rows[k] == answered[k];
    assert forall k :: 0 <= k < |rows| ==> answered[k] == rows[k];
    assert p.rows[..|rows|] == answered[..|rows|];
    forall i | 0 <= i < |p.rows| && IsPendingRequest(p.rows[i])
      ensures Answered(p.rows, p.rows[i])
    {
      assert i < |answered| && i < |rows|;
      AnsweredExtends(answered, p.rows, rows[i]);
    }
  }

  lemma {:induction false} PendingLoopIdle(rows: seq<Row>, n: nat, now: int, o: Owner, workflows: seq<Workflow>)
    requires n <= |rows| && AllAnswered(rows)
    ensures PendingLoop(rows, n, now, o, workflows) == rows
  {
    if n > 0 { PendingLoopIdle(rows, n - 1, now, o, workflows); }
  }

  lemma {:induction false} StartLoopIdle(rows: seq<Row>, n: nat, now: int, o: Owner)
    requires n <= |rows| && o.workflows.Some? && AllStartsDone(rows, o)
    ensures StartLoop(rows, rows, n, now, o, o.workflows.value) == PassState(rows, false)
  {
    if n > 0 {
      StartLoopIdle(rows, n - 1, now, o);
      assert StartDone(rows, rows[n - 1], o);
      if rows[n - 1].kind.Start? { LiveExactlyWhen(UnitOf(rows[n - 1]), o); }
    }
  }

  /** After one pass a second one only settles acknowledgements of the first. */
  lemma SecondPassWork(rows: seq<Row>, now: int, o: Owner)
    requires Total(o) && NotAfter(rows, now) && AllAnswered(rows)
    ensures var p := PlanPass(rows, now, o);
            && !p.raised && IsPrefix(rows, p.rows) && AllAnswered(p.rows) && AllStartsDone(p.rows, o)
            && (forall k :: |rows| <= k < |p.rows| ==> p.rows[k].kind.Settled?)
  {
    var workflows := o.workflows.value;
    PendingLoopIdle(rows, |rows|, now, o, workflows);
    PlanPassWork(rows, now, o);
    StartLoopWork(rows, rows, |rows|, now, o, workflows);
    var p := PlanPass(rows, now, o);
    forall i | 0 <= i < |p.rows|
      ensures StartDone(p.rows, p.rows[i], o)
    {
      if i < |rows| { assert p.rows[i] == rows[i]; }
    }
  }

  lemma PlanPassOrdered(rows: seq<Row>, now: int, o: Owner)
    requires Monotone(rows) && NotAfter(rows, now)
    ensures Monotone(PlanPass(rows, now, o).rows) && NotAfter(PlanPass(rows, now, o).rows, now)
  {
    hide StartLoop, PendingLoop;
    if o.workflows.Some? {
      var workflows := o.workflows.value;
      var answered, p := PendingLoop(rows, |rows|, now, o, workflows), PlanPass(rows, now, o);
      PendingLoopWork(rows, |rows|, now, o, workflows);
      RowsOfNow(rows, answered, now);
      StartLoopWork(rows, answered, |rows|, now, o, workflows);
      RowsOfNow(answered, p.rows, now);
    }
  }

  /** The plan pass is through with the START at `i`: settled behind, or masked, or no terminal
      workflow of its plan is known. */
  ghost predicate PlanThrough(rows: seq<Row>, i: nat, o: Owner)
    requires i < |rows| && o.workflows.Some?
  {
    rows[i].kind.Start? && rows[i].kind.repair != RequeueEscalation ==>
      SettledBehind(rows, i) || IsMasked(rows, i) || LiveOrUnknown(UnitOf(rows[i]), o)
  }

  lemma StartDoneIsThrough(rows: seq<Row>, i: nat, o: Owner)
    requires Monotone(rows) && i < |rows| && o.workflows.Some? && StartDone(rows, rows[i], o)
    ensures PlanThrough(rows, i, o)
  {
    hide LiveOrUnknown;
    if rows[i].kind.Start? { SinceByPosition(rows, i); }
  }

  /** The plan pass reaches a fixed point after two passes at the latest: the first leaves every
      tracked request acknowledged or settled, the second every tracked START settled behind,
      masked or live, and a third, at any later time, appends nothing. */
  lemma PlanPassConverges(rows: seq<Row>, first: int, second: int, third: int, o: Owner)
    requires Total(o) && NotAfter(rows, first) && first <= second
    ensures var once := PlanPass(rows, first, o);
            var twice := PlanPass(once.rows, second, o);
            && !once.raised && !twice.raised && AllAnswered(once.rows)
            && IsPrefix(rows, once.rows) && IsPrefix(once.rows, twice.rows)
            && (Monotone(rows) ==>
                  Monotone(twice.rows) && forall i :: 0 <= i < |twice.rows| ==> PlanThrough(twice.rows, i, o))
            && PlanPass(twice.rows, third, o) == PassState(twice.rows, false)
  {
    hide PlanThrough, StartDone, StartLoop, PendingLoop, Answered;
    PlanPassWork(rows, first, o);
    var once := PlanPass(rows, first, o);
    SecondPassWork(once.rows, second, o);
    var twice := PlanPass(once.rows, second, o);
    if Monotone(rows) {
      PlanPassOrdered(rows, first, o);
      PlanPassOrdered(once.rows, second, o);
      forall i | 0 <= i < |twice.rows|
        ensures PlanThrough(twice.rows, i, o)
      {
        StartDoneIsThrough(twice.rows, i, o);
      }
    }
    PendingLoopIdle(twice.rows, |twice.rows|, third, o, o.workflows.value);
    StartLoopIdle(twice.rows, |twice.rows|, third, o);
  }
}
