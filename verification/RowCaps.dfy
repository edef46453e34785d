/** The caps counted on ledger rows, over whole runs: requeues and their one escalation per head,
    comments, nudges, labels and dispatch-failure notes once per head and key, one hold removal,
    and as many refreshes and squash merges as requeues are allowed. */
module RowCaps {
  import opened Wrappers
  import opened LedgerModel
  import opened RetryBudget
  import opened SettlePasses
  import opened StackFactsModel
  import opened Planner
  import opened PlannerSafety
  import opened LandingSafety
  import opened Dispatch
  import opened LedgerInvariant
  import opened Controller
  import opened ActionRows
  import opened RunSafety

  predicate OncePerKey(k: Kind) {
    k == CommentBlocked || k == AdminBypassNudge || k == RestoreLabel || k == DispatchFailed || k == RemoveMergeHold
  }

  /** The kinds counted per head whatever their key. */
  predicate CountedPerHead(k: Kind) { k == Requeue || k == Start(RequeueEscalation) }

  predicate IsCapped(k: Kind) { OncePerKey(k) || k == RefreshStaleQueue || k == SquashMerge || CountedPerHead(k) }

  /** The filters a cap is counted with. */
  predicate IsCap(q: Query) {
    IsCapped(q.kind) && if CountedPerHead(q.kind) then q.ForHead? else q.Exact?
  }

  function CapOf(k: Kind, l: Limits): nat { if OncePerKey(k) || k == Start(RequeueEscalation) then 1 else l.maxRequeue }

  function CapQuery(r: Row): Query {
    if CountedPerHead(r.kind) then ForHead(r.kind, r.pr, r.head) else Exact(r.kind, r.pr, r.head, r.key)
  }

  ghost predicate WithinCap(rows: seq<Row>, q: Query, l: Limits) { CountHits(rows, q) <= CapOf(q.kind, l) }

  /** A row that may be appended: no capped kind, or one more of it is still allowed. */
  ghost predicate Allowed(rows: seq<Row>, r: Row, l: Limits) {
    IsCapped(r.kind) ==> CountHits(rows, CapQuery(r)) < CapOf(r.kind, l)
  }

  lemma AllowedRowKeepsCap(rows: seq<Row>, r: Row, q: Query, l: Limits)
    requires IsCap(q) && WithinCap(rows, q, l) && Allowed(rows, r, l)
    ensures WithinCap(rows + [r], q, l)
  {
    AppendStep(rows, r, q);
  }

  /** No appended row meets the filter. */
  ghost predicate NoHits(before: seq<Row>, after: seq<Row>, q: Query) {
    IsPrefix(before, after) && forall k :: |before| <= k < |after| ==> !Hits(q, after[k])
  }

  lemma {:induction false} CountStays(before: seq<Row>, after: seq<Row>, q: Query)
    requires NoHits(before, after, q)
    ensures CountHits(after, q) == CountHits(before, q)
  {
    if after == before {
    } else {
      var init := after[..|after| - 1];
      assert init[..|before|] == before;
      CountStays(before, init, q);
    }
  }

  lemma {:induction false} CountGrows(before: seq<Row>, after: seq<Row>, q: Query)
    requires IsPrefix(before, after)
    ensures CountHits(after, q) >= CountHits(before, q)
  {
    if after == before {
    } else {
      var init := after[..|after| - 1];
      assert init[..|before|] == before;
      CountGrows(before, init, q);
    }
  }

  // ----- what the planner allows -----

  /** A planned requeue, refresh, squash merge or hold removal is still allowed by its cap, and an
      escalation is the first one and comes at the cap of requeues. */
  ghost predicate CappedByPlan(rows: seq<Row>, a: Action, pr: PrSnapshot, l: Limits) {
    && (a.kind == RequeueAction ==> CountHits(rows, ForHead(Requeue, pr.number, pr.head)) < l.maxRequeue)
    && (a.kind == EscalateRequeueStuck ==>
          && CountHits(rows, ForHead(Start(RequeueEscalation), pr.number, pr.head)) == 0
          && CountHits(rows, ForHead(Requeue, pr.number, pr.head)) >= l.maxRequeue)
    && (a.kind == RefreshStaleQueueAction ==>
          CountHits(rows, Exact(RefreshStaleQueue, pr.number, pr.head, a.key)) < l.maxRequeue)
    && (a.kind == SquashMergeAction ==> CountHits(rows, Exact(SquashMerge, pr.number, pr.head, a.key)) < l.maxRequeue)
    && (a.kind == RemoveMergeHoldAction ==>
          CountHits(rows, Exact(RemoveMergeHold, pr.number, pr.head, "merge-hold")) < 1)
  }

  predicate TakesACap(a: Action) {
    IsLanding(a) || a.kind == RefreshStaleQueueAction || a.kind == RemoveMergeHoldAction
  }

  lemma {:induction false} PrOfIsIn(prs: seq<PrSnapshot>, number: int, i: nat)
    requires i <= |prs|
    ensures PrOf(prs, number, i).Some? ==>
              PrOf(prs, number, i).value in prs && PrOf(prs, number, i).value.number == number
    decreases |prs| - i
  {
    if i < |prs| { PrOfIsIn(prs, number, i + 1); }
  }

  /** Where such an action comes from: the progress of the bottom, or the hold cleanup. */
  lemma WhereCappedActionsComeFrom(c: Context, a: Action)
    requires PlanActions(c).action == Some(a) && !IsRepairKind(a.kind)
    ensures PlanBottomProgress(c) == Some(a) || PlanUpperAcceptance(c) == Some(a) || PlanMergeHoldCleanup(c) == Some(a)
  {
    hide PlanRepairs, PlanHardBlockers, PlanBottomProgress, PlanUpperAcceptance, PlanMergeHoldCleanup, HasActiveRepair,
         Candidates;
    HardBlockersStep(c, c.facts.prs, 0);
    if c.facts.bottom.None? {
      RepairKinds(c, c.facts.prs, []);
    } else {
      var prs := Candidates(c.facts, Some(c.facts.bottom.value.number));
      RepairKinds(c, prs, []);
      HardBlockersStep(c, prs, 0);
      match PlanBottomHalf(c, c.facts.bottom.value)
      case Decided(_) =>
      case GoOn(log) => RepairKinds(c, c.facts.prs, log);
    }
  }

  lemma HoldCleanupIsCapped(c: Context, a: Action) returns (pr: PrSnapshot)
    requires PlanMergeHoldCleanup(c) == Some(a) && a.kind == RemoveMergeHoldAction
    ensures pr.number == a.pr && pr in c.facts.prs
    ensures CountHits(c.rows, Exact(RemoveMergeHold, pr.number, pr.head, "merge-hold")) < 1
  {
    hide HasPendingOrHuman;
    PrOfIsIn(c.facts.prs, c.facts.allBlockers[0].pr, 0);
    pr := PrOf(c.facts.prs, c.facts.allBlockers[0].pr, 0).value;
  }

  lemma ProgressIsCapped(c: Context, a: Action)
    requires PlanBottomProgress(c) == Some(a) && (IsLanding(a) || a.kind == RefreshStaleQueueAction)
    requires c.maxRequeue >= 0
    ensures c.facts.bottom.Some? && a.pr == c.facts.bottom.value.number
    ensures CappedByPlan(c.rows, a, c.facts.bottom.value, Limits(c.maxRequeue, 0))
  {
    hide BottomHasPendingOrHuman, HasActiveQueueEvent, HasStaleQueueEvent, AllObservedGreen, CountHits;
  }

  lemma OtherPlansAreOther(c: Context)
    ensures PlanUpperAcceptance(c).Some? ==> PlanUpperAcceptance(c).value.kind == CommentBlockedAction
    ensures PlanMergeHoldCleanup(c).Some? ==>
              PlanMergeHoldCleanup(c).value.kind == CommentBlockedAction
                || PlanMergeHoldCleanup(c).value.kind == RemoveMergeHoldAction
    ensures PlanBottomProgress(c).Some? ==> PlanBottomProgress(c).value.kind != RemoveMergeHoldAction
  {
    hide HasPendingOrHuman, BottomHasPendingOrHuman, HasActiveQueueEvent, HasStaleQueueEvent, AllObservedGreen,
         CountHits, PrOf;
  }

  /** The PR such an action is planned for. */
  lemma CappedActionTarget(c: Context, a: Action) returns (pr: PrSnapshot)
    requires PlanActions(c).action == Some(a) && c.maxRequeue >= 0 && TakesACap(a)
    ensures pr.number == a.pr && (pr in c.facts.prs || c.facts.bottom == Some(pr))
    ensures CappedByPlan(c.rows, a, pr, Limits(c.maxRequeue, 0))
  {
    hide PlanActions, PlanBottomProgress, PlanUpperAcceptance, PlanMergeHoldCleanup, CountHits;
    WhereCappedActionsComeFrom(c, a);
    OtherPlansAreOther(c);
    if a.kind == RemoveMergeHoldAction {
      pr := HoldCleanupIsCapped(c, a);
    } else {
      ProgressIsCapped(c, a);
      pr := c.facts.bottom.value;
    }
  }

  lemma TargetInStack(c: Context, s: StackInput, a: Action) returns (i: nat)
    requires BuiltFrom(c, s) && PlanActions(c).action == Some(a) && c.maxRequeue >= 0 && TakesACap(a)
    ensures i < |s.prs| && s.prs[i].number == a.pr && CappedByPlan(c.rows, a, s.prs[i], Limits(c.maxRequeue, 0))
  {
    assert c.facts.prs == s.prs;
    hide PlanActions, BuildFacts, CappedByPlan;
    var pr := CappedActionTarget(c, a);
    if c.facts.bottom == Some(pr) {
      i := BottomIsInStack(c, s);
    } else {
      i :| 0 <= i < |s.prs| && s.prs[i] == pr;
    }
  }

  lemma PlannedIsCapped(rows: seq<Row>, t: Tick, n: nat, l: Limits, a: Action)
    requires n < |t.stacks| && t.stacks[n].prs != [] && Distinct(t.stacks[n].prs) && OneSnapshot(t, a.pr)
    requires PlanActions(PlanningContext(rows, t, t.stacks[n], l)).action == Some(a) && a.pr in AllPrs(t)
    ensures CappedByPlan(rows, a, AllPrs(t)[a.pr], l)
  {
    hide PlanActions, AllPrs, OneSnapshot, BuildFacts, BuiltFrom, CountHits;
    if TakesACap(a) {
      ContextIsBuilt(rows, t, t.stacks[n], l);
      var i := TargetInStack(PlanningContext(rows, t, t.stacks[n], l), InputOf(t, t.stacks[n].prs), a);
      TheSnapshot(t, n, i, a.pr);
    }
  }

  // ----- what carrying it out appends -----

  lemma RepairRowsHitNoCap(before: seq<Row>, after: seq<Row>, q: Query)
    requires OnlyRepairRows(before, after) && IsCap(q)
    ensures NoHits(before, after, q)
  {
  }

  lemma AnnouncementKeepsCap(rows: seq<Row>, e: Effect, pr: PrSnapshot, kindName: string, now: int, w: World, q: Query,
                             l: Limits)
    requires IsCap(q) && WithinCap(e.rows, q, l)
    ensures WithinCap(Announced(e, pr, kindName, now, w).rows, q, l)
  {
    var r := Plain(DispatchFailed, pr, kindName, now);
    if CountHits(e.rows, CapQuery(r)) == 0 { AllowedRowKeepsCap(e.rows, r, q, l); }
  }

  lemma RepairKeepsCap(rows: seq<Row>, a: Action, pr: PrSnapshot, facts: StackFacts, now: int, w: World, q: Query,
                       l: Limits)
    requires IsCap(q) && WithinCap(rows, q, l) && IsRepair(a)
    ensures WithinCap(Perform(rows, a, pr, facts, now, w).rows, q, l)
  {
    var u := DispatchUnit(pr, a);
    ThreadDispatch(pr, a);
    hide CountHits, Submit, RepairNamedCheck, Rebase, DispatchUnit, OnlyRepairRows, OwnRows, FilesNothing, NoHits,
         Announced, WithinCap;
    if a.kind == RebaseOntoMasterAction {
      RebaseAppends(rows, pr, now, w, u);
      RepairRowsHitNoCap(rows, Rebase(rows, pr, now, w).rows, q);
      SameCountWithinCap(rows, Rebase(rows, pr, now, w).rows, q, l);
      AnnouncementKeepsCap(rows, Rebase(rows, pr, now, w), pr, "rebase_onto_master", now, w, q, l);
    } else {
      var e := if BOT_THREAD_PREFIX <= a.key then Submit(rows, u, now, w)
      else RepairNamedCheck(rows, pr, a.key, now, w);
      if BOT_THREAD_PREFIX <= a.key {
        SubmitAppends(rows, pr, u, now, w, u);
      } else {
        CheckAppends(rows, pr, a.key, now, w, u);
      }
      RepairRowsHitNoCap(rows, e.rows, q);
      SameCountWithinCap(rows, e.rows, q, l);
      AnnouncementKeepsCap(rows, e, pr, "repair_check", now, w, q, l);
    }
  }

  lemma SameCountWithinCap(before: seq<Row>, after: seq<Row>, q: Query, l: Limits)
    requires WithinCap(before, q, l) && NoHits(before, after, q)
    ensures WithinCap(after, q, l)
  {
    CountStays(before, after, q);
  }

  lemma EscalationKeepsCap(rows: seq<Row>, a: Action, pr: PrSnapshot, facts: StackFacts, now: int, w: World, q: Query,
                           l: Limits)
    requires IsCap(q) && WithinCap(rows, q, l) && a.kind == EscalateRequeueStuck && CappedByPlan(rows, a, pr, l)
    ensures WithinCap(Perform(rows, a, pr, facts, now, w).rows, q, l)
  {
    hide CountHits;
    var u := Unit(RequeueEscalation, pr.number, pr.head, a.key);
    var e, request := Escalate(rows, a, pr, now, w), PendingRow(u, now, w.submittedPlan(u));
    AllowedRowKeepsCap(rows, request, q, l);
    match w.submission {
      case SubmitRaises => AllowedRowKeepsCap(rows + [request], UnsentRow(u, now, w.submittedPlan(u)), q, l);
      case Acknowledged(id) =>
        AppendStep(rows, request, ForHead(Start(RequeueEscalation), pr.number, pr.head));
        AllowedRowKeepsCap(rows + [request], StartRow(u, now, Some(w.submittedPlan(u)), id), q, l);
    }
    AnnouncementKeepsCap(rows, e, pr, "escalate_requeue_stuck", now, w, q, l);
  }

  lemma ExecutionKeepsCap(rows: seq<Row>, a: Action, pr: PrSnapshot, facts: StackFacts, now: int, w: World, q: Query,
                          l: Limits)
    requires IsCap(q) && WithinCap(rows, q, l) && CappedByPlan(rows, a, pr, l)
    ensures WithinCap(Execute(rows, a, pr, facts, now, w).rows, q, l)
  {
    hide CountHits, Describe;
    var row, after := ExecutedRow(rows, a, pr, now), Execute(rows, a, pr, facts, now, w).rows;
    if row.Some? {
      assert Allowed(rows, row.value, l);
      AllowedRowKeepsCap(rows, row.value, q, l);
      if a.kind == RequeueAction && IsPrefix(rows + [row.value], after) { CountStays(rows + [row.value], after, q); }
    }
    AllowedRowKeepsCap(rows, Plain(RetargetRejected, pr, pr.base + "->" + a.key, now), q, l);
  }

  lemma ActionKeepsCap(rows: seq<Row>, a: Action, pr: PrSnapshot, facts: StackFacts, now: int, w: World, q: Query,
                       l: Limits)
    requires IsCap(q) && WithinCap(rows, q, l) && CappedByPlan(rows, a, pr, l)
    ensures WithinCap(Perform(rows, a, pr, facts, now, w).rows, q, l)
  {
    if IsRepair(a) {
      RepairKeepsCap(rows, a, pr, facts, now, w, q, l);
    } else if a.kind == EscalateRequeueStuck {
      EscalationKeepsCap(rows, a, pr, facts, now, w, q, l);
    } else {
      hide CountHits, Execute, WithinCap, CappedByPlan;
      ExecutionKeepsCap(rows, a, pr, facts, now, w, q, l);
    }
  }

  // ----- ticks and runs -----

  /** An action on another PR appends no row a filter of this PR meets. */
  lemma OtherPrKeepsCount(rows: seq<Row>, a: Action, pr: PrSnapshot, facts: StackFacts, now: int, w: World, q: Query)
    requires q.pr != pr.number
    ensures CountHits(Perform(rows, a, pr, facts, now, w).rows, q) == CountHits(rows, q)
  {
    PerformAppends(rows, a, pr, facts, now, w, Unit(RepairCheck, 0, "", ""));
    hide Perform, CountHits;
    CountStays(rows, Perform(rows, a, pr, facts, now, w).rows, q);
  }

  lemma StackStepKeepsCap(s: CycleState, t: Tick, n: nat, l: Limits, q: Query)
    requires n < |t.stacks| && IsCap(q) && WithinCap(s.history.rows, q, l) && OneSnapshot(t, q.pr)
    ensures WithinCap(StackStep(s, t, t.stacks[n], l).history.rows, q, l)
  {
    hide PlanActions, PlanningContext, CrashBehind, Perform, OneSnapshot, CountHits, AllPrs, CappedByPlan, Marks;
    var stack := t.stacks[n];
    if !s.aborted && stack.prs != [] && Distinct(stack.prs) {
      var c := PlanningContext(s.history.rows, t, stack, l);
      if PlanStack(c).action.Some? && PlanStack(c).action.value.pr in AllPrs(t) {
        var a := PlanStack(c).action.value;
        NumberedPrs(t, a.pr);
        if a.pr == q.pr {
          PlannedIsCapped(s.history.rows, t, n, l, a);
          ActionKeepsCap(s.history.rows, a, AllPrs(t)[a.pr], c.facts, t.now, stack.world, q, l);
        } else {
          OtherPrKeepsCount(s.history.rows, a, AllPrs(t)[a.pr], c.facts, t.now, stack.world, q);
        }
      }
    }
  }

  lemma {:induction false} StackLoopKeepsCap(h: History, t: Tick, n: nat, l: Limits, q: Query)
    requires n <= |t.stacks| && IsCap(q) && WithinCap(h.rows, q, l) && OneSnapshot(t, q.pr)
    ensures WithinCap(StackLoop(h, t, n, l).history.rows, q, l)
  {
    hide StackStep, WithinCap, OneSnapshot;
    if n > 0 {
      StackLoopKeepsCap(h, t, n - 1, l, q);
      StackStepKeepsCap(StackLoop(h, t, n - 1, l), t, n - 1, l, q);
    }
  }

  /** Other processes append no row the cap counts, and its PR has one snapshot. */
  ghost predicate CapIsOurs(t: Tick, q: Query) {
    OneSnapshot(t, q.pr) && forall i :: 0 <= i < |t.external| ==> !Hits(q, t.external[i])
  }

  /** The rows before the stacks are looked at. */
  function Settled(h: History, t: Tick): History {
    h.(rows := PlanPass(FastPass(h.rows + t.external, t.now, t.owner).rows, t.now, t.owner).rows)
  }

  lemma PassesHitNoCap(rows: seq<Row>, now: int, o: Owner, q: Query)
    requires IsCap(q)
    ensures NoHits(rows, FastPass(rows, now, o).rows, q) && NoHits(rows, PlanPass(rows, now, o).rows, q)
  {
    hide FastLoop, PendingLoop, StartLoop;
    PassesGrow(rows, now, o);
    FastLoopWork(rows, |rows|, now, o);
    var fast := FastPass(rows, now, o).rows;
    assert forall k :: |rows| <= k < |fast| ==> FastJustified(fast[k], rows, now, o);
    if o.workflows.Some? {
      var answered, after := PendingLoop(rows, |rows|, now, o, o.workflows.value), PlanPass(rows, now, o).rows;
      PendingLoopWork(rows, |rows|, now, o, o.workflows.value);
      StartLoopWork(rows, answered, |rows|, now, o, o.workflows.value);
      assert forall k :: 0 <= k < |answered| ==> after[k] == answered[k];
    }
  }

  lemma SettledKeepsCount(h: History, t: Tick, q: Query)
    requires IsCap(q) && CapIsOurs(t, q)
    ensures CountHits(Settled(h, t).rows, q) == CountHits(h.rows, q)
  {
    hide FastPass, PlanPass, OneSnapshot, CountHits;
    var loaded := h.rows + t.external;
    var fast := FastPass(loaded, t.now, t.owner).rows;
    CountStays(h.rows, loaded, q);
    PassesHitNoCap(loaded, t.now, t.owner, q);
    CountStays(loaded, fast, q);
    PassesHitNoCap(fast, t.now, t.owner, q);
    CountStays(fast, PlanPass(fast, t.now, t.owner).rows, q);
  }

  lemma CycleKeepsCap(h: History, t: Tick, l: Limits, q: Query)
    requires IsCap(q) && WithinCap(h.rows, q, l) && CapIsOurs(t, q)
    ensures WithinCap(Cycle(h, t, l).history.rows, q, l)
  {
    hide StackLoop, FastPass, PlanPass, OneSnapshot, CountHits;
    SettledKeepsCount(h, t, q);
    StackLoopKeepsCap(Settled(h, t), t, |t.stacks|, l, q);
  }

  /** Over any run, per head and key: one blocked comment, nudge, label, dispatch-failure note and
      hold removal, and at most as many refreshes and squash merges as requeues are allowed; per
      head, whatever their keys: that many requeues and one escalation. */
  lemma {:induction false} CapsOverRuns(ticks: seq<Tick>, n: nat, l: Limits, q: Query)
    requires n <= |ticks| && IsCap(q) && forall i :: 0 <= i < n ==> CapIsOurs(ticks[i], q)
    ensures CountHits(Run(ticks, n, l).rows, q) <= CapOf(q.kind, l)
  {
    hide Cycle, CapIsOurs;
    if n > 0 {
      CapsOverRuns(ticks, n - 1, l, q);
      CycleKeepsCap(Run(ticks, n - 1, l), ticks[n - 1], l, q);
    }
  }

  // ----- an escalation only follows the last requeue -----

  ghost predicate EscalatedAtCap(rows: seq<Row>, pr: int, head: string, l: Limits) {
    CountHits(rows, ForHead(Start(RequeueEscalation), pr, head)) > 0 ==>
      CountHits(rows, ForHead(Requeue, pr, head)) >= l.maxRequeue
  }

  /** Only an escalation appends an escalation's START. */
  lemma OnlyEscalationsEscalate(rows: seq<Row>, a: Action, pr: PrSnapshot, facts: StackFacts, now: int, w: World,
                                number: int, head: string)
    requires a.kind != EscalateRequeueStuck
    ensures NoHits(rows, Perform(rows, a, pr, facts, now, w).rows, ForHead(Start(RequeueEscalation), number, head))
  {
    var after := Perform(rows, a, pr, facts, now, w).rows;
    PerformAppends(rows, a, pr, facts, now, w, Unit(RequeueEscalation, number, head, ""));
    forall k | |rows| <= k < |after|
      ensures !Hits(ForHead(Start(RequeueEscalation), number, head), after[k])
    {
      PerformAppends(rows, a, pr, facts, now, w, Unit(RequeueEscalation, number, head, after[k].key));
    }
  }

  lemma ActionEscalatesAtCap(rows: seq<Row>, a: Action, pr: PrSnapshot, facts: StackFacts, now: int, w: World,
                             l: Limits, number: int, head: string)
    requires EscalatedAtCap(rows, number, head, l) && (pr.number == number ==> CappedByPlan(rows, a, pr, l))
    ensures EscalatedAtCap(Perform(rows, a, pr, facts, now, w).rows, number, head, l)
  {
    var after := Perform(rows, a, pr, facts, now, w).rows;
    PerformAppends(rows, a, pr, facts, now, w, Unit(RequeueEscalation, number, head, a.key));
    CountGrows(rows, after, ForHead(Requeue, number, head));
    hide CountHits;
    if a.kind != EscalateRequeueStuck {
      OnlyEscalationsEscalate(rows, a, pr, facts, now, w, number, head);
      CountStays(rows, after, ForHead(Start(RequeueEscalation), number, head));
    } else if pr.number != number || pr.head != head {
      CountStays(rows, after, ForHead(Start(RequeueEscalation), number, head));
    }
  }

  lemma StepEscalatesAtCap(s: CycleState, t: Tick, n: nat, l: Limits, number: int, head: string)
    requires n < |t.stacks| && EscalatedAtCap(s.history.rows, number, head, l) && OneSnapshot(t, number)
    ensures EscalatedAtCap(StackStep(s, t, t.stacks[n], l).history.rows, number, head, l)
  {
    hide PlanActions, PlanningContext, CrashBehind, Perform, OneSnapshot, CountHits, AllPrs, CappedByPlan, Marks;
    var stack := t.stacks[n];
    if !s.aborted && stack.prs != [] && Distinct(stack.prs) {
      var c := PlanningContext(s.history.rows, t, stack, l);
      if PlanStack(c).action.Some? && PlanStack(c).action.value.pr in AllPrs(t) {
        var a := PlanStack(c).action.value;
        NumberedPrs(t, a.pr);
        if a.pr == number { PlannedIsCapped(s.history.rows, t, n, l, a); }
        ActionEscalatesAtCap(s.history.rows, a, AllPrs(t)[a.pr], c.facts, t.now, stack.world, l, number, head);
      }
    }
  }

  lemma {:induction false} LoopEscalatesAtCap(h: History, t: Tick, n: nat, l: Limits, number: int, head: string)
    requires n <= |t.stacks| && EscalatedAtCap(h.rows, number, head, l) && OneSnapshot(t, number)
    ensures EscalatedAtCap(StackLoop(h, t, n, l).history.rows, number, head, l)
  {
    hide StackStep, EscalatedAtCap, OneSnapshot;
    if n > 0 {
      LoopEscalatesAtCap(h, t, n - 1, l, number, head);
      StepEscalatesAtCap(StackLoop(h, t, n - 1, l), t, n - 1, l, number, head);
    }
  }

  /** Per PR head, over any run: at most `maxRequeue` requeues whatever comment ids key them, and
      at most one escalation, which only follows the last allowed requeue. */
  lemma RequeueCapOverRuns(ticks: seq<Tick>, n: nat, l: Limits, pr: int, head: string)
    requires n <= |ticks|
    requires forall i :: 0 <= i < n ==>
               CapIsOurs(ticks[i], ForHead(Requeue, pr, head))
                 && CapIsOurs(ticks[i], ForHead(Start(RequeueEscalation), pr, head))
    ensures var rows := Run(ticks, n, l).rows;
            && CountHits(rows, ForHead(Requeue, pr, head)) <= l.maxRequeue
            && CountHits(rows, ForHead(Start(RequeueEscalation), pr, head)) <= 1
            && (CountHits(rows, ForHead(Start(RequeueEscalation), pr, head)) == 1 ==>
                CountHits(rows, ForHead(Requeue, pr, head)) == l.maxRequeue)
  {
    hide Run, CapIsOurs, CountHits;
    CapsOverRuns(ticks, n, l, ForHead(Requeue, pr, head));
    CapsOverRuns(ticks, n, l, ForHead(Start(RequeueEscalation), pr, head));
    EscalationsAtCapOverRuns(ticks, n, l, pr, head);
  }

  lemma {:induction false} EscalationsAtCapOverRuns(ticks: seq<Tick>, n: nat, l: Limits, pr: int, head: string)
    requires n <= |ticks|
    requires forall i :: 0 <= i < n ==>
               CapIsOurs(ticks[i], ForHead(Requeue, pr, head))
                 && CapIsOurs(ticks[i], ForHead(Start(RequeueEscalation), pr, head))
    ensures EscalatedAtCap(Run(ticks, n, l).rows, pr, head, l)
  {
    hide StackLoop, FastPass, PlanPass;
    if n > 0 {
      var h, t := Run(ticks, n - 1, l), ticks[n - 1];
      EscalationsAtCapOverRuns(ticks, n - 1, l, pr, head);
      SettledKeepsCount(h, t, ForHead(Requeue, pr, head));
      SettledKeepsCount(h, t, ForHead(Start(RequeueEscalation), pr, head));
      LoopEscalatesAtCap(Settled(h, t), t, |t.stacks|, l, pr, head);
    }
  }
}
