/** The objects that carry a tick out: the GitHub executor, the repairer and the cycle itself,
    appending to one shared ledger. */
module RunCycle {
  import opened Wrappers
  import opened LedgerModel
  import opened RetryBudget
  import opened RetryGate
  import opened SettlePasses
  import opened StackFactsModel
  import opened Planner
  import opened PlannerSafety
  import opened FilingClaims
  import opened Dispatch
  import opened LedgerInvariant
  import opened Controller

  class GhExecutor {
    const ledger: Ledger

    constructor (ledger: Ledger)
      ensures this.ledger == ledger
    {
      this.ledger := ledger;
    }

    /** An action GitHub performs before the ledger remembers it. */
    method PerformThenRecord(row: Row, w: World) returns (raised: bool)
      modifies ledger
      ensures raised == !w.effectSucceeds
      ensures ledger.rows == if raised then old(ledger.rows) else old(ledger.rows) + [row]
    {
      if !w.effectSucceeds { return true; }
      ledger.Record(row);
      return false;
    }

    /** An action done, and recorded, once per head and key. */
    method OncePerHead(row: Row, w: World) returns (raised: bool)
      modifies ledger
      ensures var first := CountHits(old(ledger.rows), Exact(row.kind, row.pr, row.head, row.key)) == 0;
              && raised == (first && !w.effectSucceeds)
              && ledger.rows == if first && w.effectSucceeds then old(ledger.rows) + [row] else old(ledger.rows)
    {
      raised := false;
      var seen := ledger.Count(row.kind, row.pr, row.head, row.key);
      if seen == 0 { raised := PerformThenRecord(row, w); }
    }

    method CommentRepairDispatchFailed(e: Effect, pr: PrSnapshot, kindName: string, now: int, w: World)
      requires ledger.rows == e.rows && e.failed
      modifies ledger
      ensures ledger.rows == Announced(e, pr, kindName, now, w).rows
    {
      var seen := ledger.Count(DispatchFailed, pr.number, pr.head, kindName);
      if seen != 0 || !w.failureCommentSucceeds { return; }
      ledger.Record(Plain(DispatchFailed, pr, kindName, now));
    }

    /** `performed` is false for a head that moved on. */
    method Carry(a: Action, pr: PrSnapshot, now: int, w: World) returns (performed: bool, raised: bool)
      modifies ledger
      ensures performed == (w.headCurrent && !raised)
      ensures raised == (w.headCurrent && CallsGitHub(old(ledger.rows), a, pr) && !w.effectSucceeds)
      ensures ledger.rows == if performed && ExecutedRow(old(ledger.rows), a, pr, now).Some?
                             then old(ledger.rows) + [ExecutedRow(old(ledger.rows), a, pr, now).value]
                             else old(ledger.rows)
    {
      raised := false;
      if !w.headCurrent { return false, false; }
      match a.kind {
        case RequeueAction => raised := PerformThenRecord(Plain(Requeue, pr, a.key, now), w);
        case RefreshStaleQueueAction => raised := PerformThenRecord(Plain(RefreshStaleQueue, pr, a.key, now), w);
        case SquashMergeAction => raised := PerformThenRecord(Plain(SquashMerge, pr, a.key, now), w);
        case RetargetBaseAction => raised := PerformThenRecord(Plain(RetargetBase, pr, pr.base + "->" + a.key, now), w);
        case RemoveMergeHoldAction => raised := PerformThenRecord(Plain(RemoveMergeHold, pr, "merge-hold", now), w);
        case RestoreLabelAction => raised := OncePerHead(Plain(RestoreLabel, pr, "admin-bypass", now), w);
        case NudgeAction => raised := OncePerHead(Plain(AdminBypassNudge, pr, a.key, now), w);
        case CommentBlockedAction => raised := OncePerHead(Plain(CommentBlocked, pr, CommentKey(a), now), w);
        case ResolveBotThreads => raised := !w.effectSucceeds;
        case _ =>
      }
      performed := !raised;
    }
  }

  datatype Status = Submitted | Noop | NoopQueueOnly | BlockedInvalid

  /** The rows after the cycle recorded what a repair attempt came to. */
  function WithOutcome(rows: seq<Row>, status: Status, pr: PrSnapshot, check: string, now: int): seq<Row> {
    if status == NoopQueueOnly then rows + [Plain(QueueOnlyNoop, pr, check, now)]
    else if status == Noop && check == "PR Body" then rows + [Plain(RepairNoop, pr, check, now)]
    else rows
  }

  class Repairer {
    const ledger: Ledger

    constructor (ledger: Ledger)
      ensures this.ledger == ledger
    {
      this.ledger := ledger;
    }

    method SubmitRepairPlan(u: Unit, now: int, w: World) returns (raised: bool)
      modifies ledger
      ensures Effect(ledger.rows, raised, false) == Submit(old(ledger.rows), u, now, w)
    {
      var plan := w.submittedPlan(u);
      ledger.Record(PendingRow(u, now, plan));
      match w.submission
      case SubmitRaises =>
        ledger.Record(UnsentRow(u, now, plan));
        return true;
      case Acknowledged(id) =>
        ledger.Record(StartRow(u, now, Some(plan), id));
        return false;
    }

    method SubmitAggregatedRepairPlan(pr: PrSnapshot, checks: seq<string>, now: int, w: World) returns (raised: bool)
      requires checks != []
      modifies ledger
      ensures Effect(ledger.rows, raised, false) == SubmitShared(old(ledger.rows), pr, checks, now, w)
    {
      hide PendingRow, UnsentRow, StartRow;
      var plan := w.submittedPlan(CheckUnit(pr, checks[0]));
      for i := 0 to |checks|
        invariant ledger.rows == old(ledger.rows) + PendingRows(pr, checks, i, now, plan)
      {
        ledger.Record(PendingRow(CheckUnit(pr, checks[i]), now, plan));
      }
      ghost var requested := ledger.rows;
      match w.submission
      case SubmitRaises =>
        for i := 0 to |checks|
          invariant ledger.rows == requested + UnsentRows(pr, checks, i, now, plan)
        {
          ledger.Record(UnsentRow(CheckUnit(pr, checks[i]), now, plan));
        }
        return true;
      case Acknowledged(id) =>
        for i := 0 to |checks|
          invariant ledger.rows == requested + StartRows(pr, checks, i, now, plan, id)
        {
          ledger.Record(StartRow(CheckUnit(pr, checks[i]), now, Some(plan), id));
        }
        return false;
    }

    /** The specs loop of `repair_checks`. */
    method CollectSpecs(pr: PrSnapshot, names: seq<string>, w: World) returns (specs: Specs)
      ensures specs == SpecsOf(pr, names, |names|, w)
    {
      var checks := [];
      for i := 0 to |names|
        invariant SpecsOf(pr, names, i, w) == SpecsFor(checks)
      {
        var name := names[i];
        if IsQueueOnlyRun(pr, name) && DetailsUrl(pr, name) == "" {
          StoppedStays(pr, names, i + 1, w);
          return SpecsInvalid;
        }
        var log := LogOf(pr, name, w);
        if log.LogRaises? {
          StoppedStays(pr, names, i + 1, w);
          return SpecsRaise;
        }
        if IsQueueOnlyRun(pr, name) && log != TextLog { continue; }
        checks := checks + [name];
      }
      specs := SpecsFor(checks);
    }

    method RepairChecks(pr: PrSnapshot, check: string, names: seq<string>, now: int, w: World)
      returns (status: Status, raised: bool)
      modifies ledger
      ensures Effect(if raised then ledger.rows else WithOutcome(ledger.rows, status, pr, check, now), raised, false)
              == RepairShared(old(ledger.rows), pr, check, names, now, w)
    {
      var specs := CollectSpecs(pr, names, w);
      match specs
      case SpecsRaise => return BlockedInvalid, true;
      case SpecsInvalid => return BlockedInvalid, false;
      case SpecsFor(checks) =>
        if checks == [] { return NoopQueueOnly, false; }
        raised := SubmitAggregatedRepairPlan(pr, checks, now, w);
        status := Submitted;
    }

    method RepairCheck(pr: PrSnapshot, check: string, now: int, w: World) returns (status: Status, raised: bool)
      modifies ledger
      ensures Effect(if raised then ledger.rows else WithOutcome(ledger.rows, status, pr, check, now), raised, false)
              == Dispatch.RepairChecks(old(ledger.rows), pr, check, now, w)
    {
      status, raised := Submitted, false;
      if SeveralFailing(pr) {
        status, raised := RepairChecks(pr, check, pr.latest.value.failingChecks, now, w);
        return;
      }
      var queueOnly := IsQueueOnlyRun(pr, check);
      if queueOnly && DetailsUrl(pr, check) == "" { return BlockedInvalid, false; }
      var log := LogOf(pr, check, w);
      if log.LogRaises? { return Submitted, true; }
      if check == "PR Body" && (log == BlankLog || !w.foreign) {
        if w.checkoutRaises { return Submitted, true; }
        if w.prTerminal { return Noop, false; }
        if log == BlankLog && w.prBodyValid { return Noop, false; }
      } else if queueOnly && log != TextLog {
        return NoopQueueOnly, false;
      } else if w.prTerminal {
        return Noop, false;
      }
      raised := SubmitRepairPlan(CheckUnit(pr, check), now, w);
    }

    method RebaseOntoMaster(pr: PrSnapshot, now: int, w: World) returns (raised: bool)
      modifies ledger
      ensures Effect(ledger.rows, raised, false) == Submit(old(ledger.rows), RebaseUnit(pr), now, w)
    {
      raised := SubmitRepairPlan(RebaseUnit(pr), now, w);
    }

    method EscalateStuckRequeue(pr: PrSnapshot, key: string, now: int, w: World) returns (raised: bool)
      modifies ledger
      ensures Effect(ledger.rows, raised, false)
              == Submit(old(ledger.rows), Unit(RequeueEscalation, pr.number, pr.head, key), now, w)
    {
      raised := SubmitRepairPlan(Unit(RequeueEscalation, pr.number, pr.head, key), now, w);
    }

    method RepairBotThread(pr: PrSnapshot, thread: string, now: int, w: World) returns (raised: bool)
      modifies ledger
      ensures Effect(ledger.rows, raised, false) == Submit(old(ledger.rows), ThreadUnit(pr, thread), now, w)
    {
      raised := SubmitRepairPlan(ThreadUnit(pr, thread), now, w);
    }
  }

  lemma {:induction false} StoppedStays(pr: PrSnapshot, names: seq<string>, n: nat, w: World)
    requires n <= |names| && !SpecsOf(pr, names, n, w).SpecsFor?
    ensures SpecsOf(pr, names, |names|, w) == SpecsOf(pr, names, n, w)
    decreases |names| - n
  {
    if n < |names| { StoppedStays(pr, names, n + 1, w); }
  }

  // ----- one action of the cycle -----

  method DispatchNamedCheck(ledger: Ledger, repairer: Repairer, pr: PrSnapshot, check: string, now: int, w: World)
    returns (failed: bool)
    requires repairer.ledger == ledger
    modifies ledger
    ensures Effect(ledger.rows, failed, false) == RepairNamedCheck(old(ledger.rows), pr, check, now, w)
  {
    hide IsQueueOnlyRun, DetailsUrl, LogOf, SeveralFailing, Dispatch.RepairChecks;
    if w.resolve.ResolveRaises? { return true; }
    if w.resolve.ResolvedTo? && w.resolve.id != "" {
      if !w.fastAccepted { return true; }
      ledger.Record(StartRow(CheckUnit(pr, check), now, None, Some(w.resolve.id)));
      return false;
    }
    var status, raised := repairer.RepairCheck(pr, check, now, w);
    if raised { return true; }
    if status == NoopQueueOnly {
      ledger.Record(Plain(QueueOnlyNoop, pr, check, now));
    } else if status == Noop && check == "PR Body" {
      ledger.Record(Plain(RepairNoop, pr, check, now));
    }
    return false;
  }

  method DispatchRebase(ledger: Ledger, repairer: Repairer, pr: PrSnapshot, now: int, w: World) returns (failed: bool)
    requires repairer.ledger == ledger
    modifies ledger
    ensures Effect(ledger.rows, failed, false) == Rebase(old(ledger.rows), pr, now, w)
  {
    if w.resolve.ResolveRaises? { return true; }
    if w.resolve.ResolvedTo? && w.resolve.id != "" {
      if !w.fastAccepted { return true; }
      ledger.Record(StartRow(RebaseUnit(pr), now, None, Some(w.resolve.id)));
      return false;
    }
    failed := repairer.RebaseOntoMaster(pr, now, w);
  }

  method ExecuteAction(ledger: Ledger, executor: GhExecutor, a: Action, pr: PrSnapshot, facts: StackFacts, now: int,
                       w: World) returns (aborted: bool)
    requires executor.ledger == ledger
    modifies ledger
    ensures Effect(ledger.rows, false, aborted) == Execute(old(ledger.rows), a, pr, facts, now, w)
  {
    aborted := false;
    var performed, raised := executor.Carry(a, pr, now, w);
    if raised {
      if a.kind != RetargetBaseAction || !w.retargetRejected { return true; }
      ledger.Record(Plain(RetargetRejected, pr, pr.base + "->" + a.key, now));
      return;
    }
    if performed && a.kind == RequeueAction && facts.bottom.Some? && facts.bottom.value.number == a.pr {
      if facts.prereq.Some? && facts.prereq.value.needsFollowup {
        ledger.Record(Plain(PrereqRequeue, pr, facts.prereq.value.checkName, now));
      }
      if facts.queueOnlyNoop.Some? && facts.queueOnlyNoop.value != "" {
        ledger.Record(Plain(QueueOnlyRequeue, pr, facts.queueOnlyNoop.value, now));
      }
    }
  }

  /** The rows an action leaves, and the claims it gives back: all those of a failed dispatch. */
  method PerformAction(ledger: Ledger, executor: GhExecutor, repairer: Repairer, a: Action, pr: PrSnapshot,
                       facts: StackFacts, now: int,
                       w: World, filing: Filing)
    returns (aborted: bool, released: set<ClaimKey>)
    requires executor.ledger == ledger == repairer.ledger
    modifies ledger
    ensures var e := Perform(old(ledger.rows), a, pr, facts, now, w);
            && ledger.rows == e.rows && aborted == e.aborted
            && released == if e.failed && filing.releases then ReleaseKeys(filing, pr, a) else {}
  {
    hide RepairNamedCheck, Rebase, Submit, Execute;
    aborted, released := false, {};
    var failed, kindName := false, "repair_check";
    match a.kind {
      case RepairCheckAction =>
        if BOT_THREAD_PREFIX <= a.key {
          failed := repairer.RepairBotThread(pr, a.key[|BOT_THREAD_PREFIX|..], now, w);
        } else {
          failed := DispatchNamedCheck(ledger, repairer, pr, a.key, now, w);
        }
      case RebaseOntoMasterAction =>
        kindName := "rebase_onto_master";
        failed := DispatchRebase(ledger, repairer, pr, now, w);
      case EscalateRequeueStuck =>
        kindName := "escalate_requeue_stuck";
        failed := repairer.EscalateStuckRequeue(pr, a.key, now, w);
      case _ =>
        aborted := ExecuteAction(ledger, executor, a, pr, facts, now, w);
        return;
    }
    if failed {
      if filing.releases { released := ReleaseKeys(filing, pr, a); }
      executor.CommentRepairDispatchFailed(Effect(ledger.rows, true, false), pr, kindName, now, w);
    }
  }

  /** One stack of the loop: plan, then carry the planned action out. */
  method PlanAndPerform(ledger: Ledger, executor: GhExecutor, repairer: Repairer, t: Tick, stack: StackTick, l: Limits,
                        ghost crashed: map<nat, Oracles>)
    returns (aborted: bool, ghost after: map<nat, Oracles>)
    requires executor.ledger == ledger == repairer.ledger
    modifies ledger
    ensures CycleState(History(ledger.rows, after), aborted)
            == StackStep(CycleState(History(old(ledger.rows), crashed), false), t, stack, l)
  {
    hide Perform, PlanStack, BuildFacts, CrashBehind, AllPrs, Marks;
    aborted, after := false, crashed;
    if stack.prs == [] || !Distinct(stack.prs) { return true, crashed; }
    var facts := BuildStackFacts(stack.prs, t.required, ledger, AllPrs(t).Keys, t.openByHead, t.trunk, t.staleBase);
    var c := ContextOf(facts, ledger.rows, l.maxRequeue, l.maxRepair, t.now, stack.oracles, stack.filing);
    assert c == PlanningContext(ledger.rows, t, stack, l);
    var planned := PlanStack(c);
    if planned.action.None? { return; }
    var a := planned.action.value;
    if a.pr !in AllPrs(t) { return true, crashed; }
    var pr := AllPrs(t)[a.pr];
    after := AfterAction(History(ledger.rows, crashed), Perform(ledger.rows, a, pr, facts, t.now, stack.world).rows,
                         DispatchUnit(pr, a), CrashBehind(c, pr, a)).crashed;
    var released: set<ClaimKey>;
    aborted, released := PerformAction(ledger, executor, repairer, a, pr, facts, t.now, stack.world, stack.filing);
  }

  /** The rows other processes appended, read at the start of a tick. */
  method ReadLedger(ledger: Ledger, external: seq<Row>)
    modifies ledger
    ensures ledger.rows == old(ledger.rows) + external
  {
    for i := 0 to |external|
      invariant ledger.rows == old(ledger.rows) + external[..i]
    {
      ledger.Record(external[i]);
    }
  }

  /** `run_cycle`: settle, settle, then every stack until one aborts. */
  method RunTick(ledger: Ledger, t: Tick, l: Limits, ghost crashed: map<nat, Oracles>)
    returns (aborted: bool, ghost after: map<nat, Oracles>)
    modifies ledger
    ensures CycleState(History(ledger.rows, after), aborted) == Cycle(History(old(ledger.rows), crashed), t, l)
  {
    hide FastPass, PlanPass, StackStep;
    var executor := new GhExecutor(ledger);
    var repairer := new Repairer(ledger);
    ReadLedger(ledger, t.external);
    var fast, fastRaised := SettleWorkflowFastpathRows(ledger, t.now, t.owner);
    assert ledger.rows == FastPass(old(ledger.rows) + t.external, t.now, t.owner).rows;
    label settledFast:
    var plans, plansRaised := SettleRepairerPlanRows(ledger, t.now, t.owner);
    assert ledger.rows == PlanPass(old@settledFast(ledger.rows), t.now, t.owner).rows;
    ghost var settled := History(ledger.rows, crashed);
    aborted, after := false, crashed;
    for i := 0 to |t.stacks|
      invariant CycleState(History(ledger.rows, after), aborted) == StackLoop(settled, t, i, l)
      invariant !aborted
    {
      aborted, after := PlanAndPerform(ledger, executor, repairer, t, t.stacks[i], l, after);
      if aborted {
        AbortedStays(settled, t, i + 1, l);
        return;
      }
    }
  }

  lemma {:induction false} AbortedStays(h: History, t: Tick, n: nat, l: Limits)
    requires n <= |t.stacks| && StackLoop(h, t, n, l).aborted
    ensures StackLoop(h, t, |t.stacks|, l) == StackLoop(h, t, n, l)
    decreases |t.stacks| - n
  {
    hide PlanningContext, PlanStack, Perform;
    if n < |t.stacks| { AbortedStays(h, t, n + 1, l); }
  }
}
