/** What a plan does where nothing is left to repair: land or escalate, ask for the label, remove a
    hold, or put a stack without a bottom back on trunk. */
module ProgressRules {
  import opened Wrappers
  import opened LedgerModel
  import opened StackFactsModel
  import opened Planner
  import opened LandingSafety
  import opened BlockerFacts
  import opened DispatchOutcomes
  import opened PlannedRepairs

  /** All checks GitHub reports passed or do not count, and there is one. */
  lemma GreenExactlyWhen(pr: PrSnapshot)
    ensures AllObservedGreen(pr) <==>
            pr.checks != map[] && forall n :: n in pr.checks ==>
              pr.checks[n].state in {Green, SkippedCheck, CancelledCheck, NeutralCheck}
  {
  }

  /** Nobody is waited for: no blocker of these PRs is a human's, an unfinished check or a merged PR. */
  ghost predicate WaitsForNobody(blockers: seq<Blocker>) {
    forall k :: 0 <= k < |blockers| ==>
      blockers[k].kind in {FailedCheck, Conflict, BotThread, OutdatedBotThread, MergeHoldBlocker}
  }

  lemma WaitsExactlyWhen(f: StackFacts)
    ensures HasPendingOrHuman(f) <==> !WaitsForNobody(f.allBlockers)
  {
    if !WaitsForNobody(f.allBlockers) {
      var k :| 0 <= k < |f.allBlockers|
        && f.allBlockers[k].kind !in {FailedCheck, Conflict, BotThread, OutdatedBotThread, MergeHoldBlocker};
      assert WaitsOnOthers(f.allBlockers[k]);
    }
  }

  // ----- landing, or asking for what landing needs -----

  /** How a ready, labelled bottom lands. Without required checks it is squash-merged, up to the cap of
      merges of its head; with them it is requeued, up to the cap of requeues of its head, then
      escalated once, then only commented on. */
  lemma LandingDecides(c: Context, bottom: PrSnapshot)
    ensures var requeues := CountHits(c.rows, ForHead(Requeue, bottom.number, bottom.head));
            var merges := CountHits(c.rows, Exact(SquashMerge, bottom.number, bottom.head, "squash"));
            var escalated := exists k :: 0 <= k < |c.rows| && c.rows[k].kind == Start(RequeueEscalation)
                                         && c.rows[k].pr == bottom.number && c.rows[k].head == bottom.head;
            var key := LandingOf(bottom, c.facts.required).key;
            if c.facts.required == {} && (bottom.mergeable != MERGEABLE || !AllObservedGreen(bottom))
            then PlanLanding(c, bottom) == None
            else if (if c.facts.required == {} then merges else requeues) < c.maxRequeue
            then PlanLanding(c, bottom) == Some(LandingOf(bottom, c.facts.required))
            else if c.facts.required != {} && !escalated
            then PlanLanding(c, bottom)
              == Some(Action(EscalateRequeueStuck, bottom.number, key, Note("requeue capped")))
            else PlanLanding(c, bottom).Some? && PlanLanding(c, bottom).value.kind == CommentBlockedAction
                 && PlanLanding(c, bottom).value.key == "capped" && PlanLanding(c, bottom).value.pr == bottom.number
  {
    CountIsPositiveIffHit(c.rows, ForHead(Start(RequeueEscalation), bottom.number, bottom.head));
    hide CountHits, AllObservedGreen;
    if k :| 0 <= k < |c.rows| && c.rows[k].kind == Start(RequeueEscalation) && c.rows[k].pr == bottom.number
            && c.rows[k].head == bottom.head {
      assert Hits(ForHead(Start(RequeueEscalation), bottom.number, bottom.head), c.rows[k]);
    }
  }

  /** A bottom without the label, with nobody waited for and nothing held, gets it back where a
      queue-only no-op explains its dequeue, and is asked for otherwise. */
  lemma UnlabelledDecides(c: Context)
    requires c.facts.bottom.Some? && AdminBypass !in c.facts.bottom.value.labels
    requires !BottomHasPendingOrHuman(c.facts) && !HasKind(c.facts.allBlockers, MergeHoldBlocker)
    ensures var bottom := c.facts.bottom.value;
            var explained := c.facts.queueOnlyNoop.Some? && c.facts.queueOnlyNoop.value != "" && bottom.latest.Some?
                             && bottom.latest.value.adminBypassRule && bottom.latest.value.state == DequeuedState;
            && PlanBottomProgress(c).Some? && PlanBottomProgress(c).value.pr == bottom.number
            && (PlanBottomProgress(c).value.kind == RestoreLabelAction <==> explained)
            && (PlanBottomProgress(c).value.kind == NudgeAction <==> !explained)
            && PlanBottomProgress(c).value.key
               == if explained then c.facts.queueOnlyNoop.value else "admin-bypass"
  {
    hide BottomHasPendingOrHuman;
  }

  // ----- what stops a plan -----

  predicate IsHard(b: Blocker) {
    b.kind in {PendingCheckBlocker, Draft, HumanThread, MissingCheck, Closed, HumanDecision}
  }

  /** The first blocker of a PR no repair can remove. */
  ghost predicate FirstHard(blockers: seq<Blocker>, j: int) {
    0 <= j < |blockers| && IsHard(blockers[j]) && forall k :: 0 <= k < j ==> !IsHard(blockers[k])
  }

  /** A human is asked once for the head; an unfinished check is waited for, and so is a human who has
      been asked to decide. */
  ghost function Reply(c: Context, pr: PrSnapshot, b: Blocker): Option<Action> {
    if b.kind == PendingCheckBlocker || b.kind == HumanDecision || IsRemembered(c.rows, pr, (CommentBlocked, b.key))
    then None else Some(Action(CommentBlockedAction, pr.number, b.key, b.detail))
  }

  lemma {:induction false} HardIsReplied(c: Context, pr: PrSnapshot, blockers: seq<Blocker>, i: nat)
    requires i <= |blockers| && forall k :: 0 <= k < i ==> !IsHard(blockers[k])
    ensures HardBlocker(c, pr, blockers, i).Continue? <==> forall k :: 0 <= k < |blockers| ==> !IsHard(blockers[k])
    ensures forall j :: FirstHard(blockers, j) ==> HardBlocker(c, pr, blockers, i) == Stop(Reply(c, pr, blockers[j]))
    decreases |blockers| - i
  {
    if i < |blockers| {
      RememberedExactlyWhen(c.rows, pr, CommentBlocked, blockers[i].key);
      hide IsRemembered, CountHits;
      if IsHard(blockers[i]) { assert FirstHard(blockers, i); } else { HardIsReplied(c, pr, blockers, i + 1); }
    }
  }

  /** The first hard blocker of the first PR that has one, from `i` on. */
  ghost predicate FirstHardOf(f: StackFacts, prs: seq<PrSnapshot>, i: nat, p: int, j: int) {
    && i <= p < |prs| && FirstHard(BlockersFor(f, prs[p]), j)
    && forall q :: i <= q < p ==> forall k :: 0 <= k < |BlockersFor(f, prs[q])| ==> !IsHard(BlockersFor(f, prs[q])[k])
  }

  lemma {:induction false} FirstHardIsReplied(c: Context, prs: seq<PrSnapshot>, i: nat, p: nat, j: nat)
    requires FirstHardOf(c.facts, prs, i, p, j)
    ensures PlanHardBlockers(c, prs, i) == Reply(c, prs[p], BlockersFor(c.facts, prs[p])[j])
    decreases |prs| - i
  {
    hide BlockersFor, Reply, IsHard;
    HardIsReplied(c, prs[i], BlockersFor(c.facts, prs[i]), 0);
    if i < p { FirstHardIsReplied(c, prs, i + 1, p, j); }
  }

  lemma {:induction false} NoneHardNoReply(c: Context, prs: seq<PrSnapshot>, i: nat)
    requires i <= |prs| && forall q :: i <= q < |prs| ==> forall k :: 0 <= k < |BlockersFor(c.facts, prs[q])| ==>
                                                            !IsHard(BlockersFor(c.facts, prs[q])[k])
    ensures PlanHardBlockers(c, prs, i).None?
    decreases |prs| - i
  {
    hide BlockersFor, IsHard;
    if i < |prs| {
      HardIsReplied(c, prs[i], BlockersFor(c.facts, prs[i]), 0);
      NoneHardNoReply(c, prs, i + 1);
    }
  }

  lemma HardIsWaitedFor(c: Context, s: StackInput, i: nat, j: nat)
    requires BuiltFrom(c, s) && i < |s.prs| && j < |BlockersFor(c.facts, s.prs[i])|
    requires IsHard(BlockersFor(c.facts, s.prs[i])[j])
    ensures HasPendingOrHuman(c.facts) && c.facts.allBlockers != []
    ensures c.facts.bottom == Some(s.prs[i]) ==> BottomHasPendingOrHuman(c.facts)
  {
    LookupBlockers(c, s, i);
    BlockersNameTheirPr(c.rows, s.prs[i], s.required, s.trunk, SuppressedFor(c.facts.suppressed, s.prs[i]));
    var k := BlockerIsListed(c, s, i, j);
    hide BuildFacts, BuiltFrom, BlockersFor, BlockersOf;
    assert WaitsOnOthers(c.facts.allBlockers[k]);
  }

  lemma BottomHalfIsQuiet(c: Context, s: StackInput)
    requires BuiltFrom(c, s) && GrantsAll(c.filing) && c.facts.bottom.Some?
    requires NothingDue(RepairJobs(c, [c.facts.bottom.value]))
    ensures PlanRepairs(c, [c.facts.bottom.value], []).action.None?
    ensures Candidates(c.facts, Some(c.facts.bottom.value.number)) == [c.facts.bottom.value]
  {
    var bottom := c.facts.bottom.value;
    BottomIsTheCandidate(c, s);
    hide PlanRepairs, RepairJobs, FirstGranted, NothingDue, BuiltFrom;
    RepairsTakeFirstGrantedJob(c, [bottom], []);
    GrantedIsFirstDue(c.filing, RepairJobs(c, [bottom]), [], CapAction(bottom, IsDraft));
  }

  lemma HardBottomIsReplied(c: Context, s: StackInput, j: nat)
    requires BuiltFrom(c, s) && GrantsAll(c.filing) && c.facts.bottom.Some?
    requires NothingDue(RepairJobs(c, [c.facts.bottom.value]))
    requires FirstHard(BlockersFor(c.facts, c.facts.bottom.value), j)
    ensures PlanActions(c).action == Reply(c, c.facts.bottom.value, BlockersFor(c.facts, c.facts.bottom.value)[j])
  {
    BottomHalfIsQuiet(c, s);
    var i := BottomIsInStack(c, s);
    HardIsWaitedFor(c, s, i, j);
    hide BuiltFrom, PlanRepairs, RepairJobs, NothingDue, HasActiveRepair, PlanBottomProgress, BottomHasPendingOrHuman,
         BottomHasRepairable, BlockersFor, Reply, PlanWholeStack, IsHard, PlanHardBlockers, Candidates;
    FirstHardIsReplied(c, [c.facts.bottom.value], 0, 0, j);
  }

  lemma SoftBottomWaits(c: Context, s: StackInput)
    requires BuiltFrom(c, s) && GrantsAll(c.filing) && c.facts.bottom.Some?
    requires NothingDue(RepairJobs(c, [c.facts.bottom.value]))
    requires forall j :: 0 <= j < |BlockersFor(c.facts, c.facts.bottom.value)| ==>
                           !IsHard(BlockersFor(c.facts, c.facts.bottom.value)[j])
    ensures HasActiveRepair(c) || !OnlyHolds(BlockersFor(c.facts, c.facts.bottom.value)) ==>
              PlanActions(c).action == None
    ensures OnlyHolds(BlockersFor(c.facts, c.facts.bottom.value)) && !HasActiveRepair(c) ==>
              PlanBottomProgress(c).Some? ==> PlanActions(c).action == PlanBottomProgress(c)
  {
    BottomHalfIsQuiet(c, s);
    if !BottomHasPendingOrHuman(c.facts) && !BottomHasRepairable(c.facts) { ClearedIsOnlyHolds(c, s); }
    if OnlyHolds(BlockersFor(c.facts, c.facts.bottom.value)) { OnlyHoldsDoNotStop(c, s); }
    hide BuiltFrom, PlanRepairs, RepairJobs, NothingDue, HasActiveRepair, PlanBottomProgress, BottomHasPendingOrHuman,
         BottomHasRepairable, BlockersFor, PlanWholeStack, IsHard, PlanHardBlockers, Candidates, OnlyHolds;
    NoneHardNoReply(c, [c.facts.bottom.value], 0);
  }

  /** With no repair due on the bottom, claims granted: its first hard blocker is answered or waited
      for; a repair in flight or any other blocker but a hold is waited for too; else what the bottom
      has to do is done. */
  lemma BottomDecides(c: Context, s: StackInput)
    requires BuiltFrom(c, s) && GrantsAll(c.filing) && c.facts.bottom.Some?
    requires NothingDue(RepairJobs(c, [c.facts.bottom.value]))
    ensures var bottom, own := c.facts.bottom.value, BlockersFor(c.facts, c.facts.bottom.value);
            && (forall j :: FirstHard(own, j) ==> PlanActions(c).action == Reply(c, bottom, own[j]))
            && ((forall j :: 0 <= j < |own| ==> !IsHard(own[j])) && (HasActiveRepair(c) || !OnlyHolds(own)) ==>
                  PlanActions(c).action == None)
            && (OnlyHolds(own) && !HasActiveRepair(c) && PlanBottomProgress(c).Some? ==>
                  PlanActions(c).action == PlanBottomProgress(c))
  {
    var own := BlockersFor(c.facts, c.facts.bottom.value);
    hide BuiltFrom, RepairJobs, NothingDue, HasActiveRepair, PlanBottomProgress, BlockersFor, Reply, PlanActions,
         IsHard,
         OnlyHolds, FirstHard;
    forall j | FirstHard(own, j)
      ensures PlanActions(c).action == Reply(c, c.facts.bottom.value, own[j])
    {
      FirstIsAnIndex(own, j);
      HardBottomIsReplied(c, s, j);
    }
    if OnlyHolds(own) { HoldsAreSoft(own); }
    if forall j :: 0 <= j < |own| ==> !IsHard(own[j]) { SoftBottomWaits(c, s); }
  }

  lemma FirstIsAnIndex(blockers: seq<Blocker>, j: int)
    requires FirstHard(blockers, j)
    ensures 0 <= j < |blockers|
  {
  }

  lemma HoldsAreSoft(blockers: seq<Blocker>)
    requires OnlyHolds(blockers)
    ensures forall j :: 0 <= j < |blockers| ==> !IsHard(blockers[j])
  {
  }

  /** Where the bottom, if there is one, leaves the plan to the stack, and no repair is due in it: a
      repair in flight is waited for, and so is the first hard blocker of the first PR that has one,
      unless a human is still to be asked. */
  lemma StackDecides(c: Context, s: StackInput, p: nat, j: nat)
    requires BuiltFrom(c, s) && GrantsAll(c.filing) && NothingDue(RepairJobs(c, s.prs))
    requires c.facts.bottom.Some? ==>
               NothingDue(RepairJobs(c, [c.facts.bottom.value])) && LooksBeyond(c, c.facts.bottom.value)
    requires FirstHardOf(c.facts, s.prs, 0, p, j)
    ensures PlanActions(c).action == if HasActiveRepair(c) then None
                                     else Reply(c, s.prs[p], BlockersFor(c.facts, s.prs[p])[j])
  {
    FirstHardIsReplied(c, s.prs, 0, p, j);
    HardIsWaitedFor(c, s, p, j);
    hide BuildFacts, RepairJobs, NothingDue, HasActiveRepair, PlanBottomProgress, BlockersFor, Reply, OnlyHolds,
         BuiltFrom, PlanHardBlockers, FirstHardOf, PlanActions, PlanWholeStack, PlanRest, HasPendingOrHuman,
         BottomHasPendingOrHuman;
    var log := LeftToStack(c, s);
    QuietStack(c, s, log);
    RestWaits(c);
  }

  lemma LeftToStack(c: Context, s: StackInput) returns (log: seq<Call>)
    requires BuiltFrom(c, s) && GrantsAll(c.filing)
    requires c.facts.bottom.Some? ==>
               NothingDue(RepairJobs(c, [c.facts.bottom.value])) && LooksBeyond(c, c.facts.bottom.value)
    ensures PlanActions(c) == PlanWholeStack(c, log)
  {
    hide BuildFacts, RepairJobs, NothingDue, LooksBeyond, BuiltFrom, PlanWholeStack, PlanBottomHalf, PlanRepairs;
    if c.facts.bottom.None? {
      log := [];
    } else {
      BottomHalfIsQuiet(c, s);
      HalfGoesOn(c, s);
      log := PlanBottomHalf(c, c.facts.bottom.value).log;
    }
  }

  lemma QuietStack(c: Context, s: StackInput, log: seq<Call>)
    requires BuiltFrom(c, s) && GrantsAll(c.filing) && NothingDue(RepairJobs(c, s.prs))
    ensures PlanWholeStack(c, log).action == if HasActiveRepair(c) then None
                                             else
                                               var hard := PlanHardBlockers(c, s.prs, 0);
                                               if hard.Some? then hard else PlanRest(c)
  {
    assert c.facts.prs == s.prs && s.prs != [];
    hide BuildFacts, BuiltFrom, PlanRepairs, RepairJobs, FirstGranted, NothingDue, HasActiveRepair, PlanHardBlockers,
         PlanRest;
    RepairsTakeFirstGrantedJob(c, s.prs, log);
    GrantedIsFirstDue(c.filing, RepairJobs(c, s.prs), log, CapAction(s.prs[0], IsDraft));
  }

  lemma RestWaits(c: Context)
    requires HasPendingOrHuman(c.facts) && c.facts.allBlockers != []
    requires c.facts.bottom.Some? ==> PlanBottomProgress(c).None?
    ensures PlanRest(c).None?
  {
    hide HasPendingOrHuman, PlanWithoutBottom, PlanLanding;
  }

  // ----- the whole stack, where nothing is to be repaired -----

  /** Nothing is due, nothing is alive, and no blocker stops the plan. */
  ghost predicate NothingElse(c: Context) {
    && GrantsAll(c.filing) && NothingDue(RepairJobs(c, c.facts.prs)) && !HasActiveRepair(c)
    && WaitsForNobody(c.facts.allBlockers)
    && (c.facts.bottom.Some? ==> NothingDue(RepairJobs(c, [c.facts.bottom.value])))
  }

  lemma {:induction false} NobodyStops(c: Context, pr: PrSnapshot, blockers: seq<Blocker>, i: nat)
    requires i <= |blockers| && WaitsForNobody(blockers)
    ensures HardBlocker(c, pr, blockers, i).Continue?
    decreases |blockers| - i
  {
    if i < |blockers| { NobodyStops(c, pr, blockers, i + 1); }
  }

  lemma {:induction false} NoHardBlocker(c: Context, prs: seq<PrSnapshot>, i: nat)
    requires i <= |prs| && forall k :: 0 <= k < |prs| ==> WaitsForNobody(BlockersFor(c.facts, prs[k]))
    ensures PlanHardBlockers(c, prs, i).None?
    decreases |prs| - i
  {
    hide BlockersFor, WaitsForNobody;
    if i < |prs| {
      NobodyStops(c, prs[i], BlockersFor(c.facts, prs[i]), 0);
      NoHardBlocker(c, prs, i + 1);
    }
  }

  lemma OwnWaitForNobody(c: Context, s: StackInput, i: nat)
    requires BuiltFrom(c, s) && i < |s.prs| && WaitsForNobody(c.facts.allBlockers)
    ensures WaitsForNobody(BlockersFor(c.facts, s.prs[i]))
  {
    forall j | 0 <= j < |BlockersFor(c.facts, s.prs[i])|
      ensures BlockersFor(c.facts, s.prs[i])[j].kind in {FailedCheck, Conflict, BotThread, OutdatedBotThread,
                                                         MergeHoldBlocker}
    {
      var k := BlockerIsListed(c, s, i, j);
    }
  }

  lemma WholeStackRests(c: Context, s: StackInput, log: seq<Call>)
    requires BuiltFrom(c, s) && NothingElse(c)
    ensures PlanWholeStack(c, log).action == PlanRest(c)
  {
    assert c.facts.prs == s.prs;
    RepairsTakeFirstGrantedJob(c, s.prs, log);
    GrantedIsFirstDue(c.filing, RepairJobs(c, s.prs), log, CapAction(s.prs[0], IsDraft));
    hide BuildFacts, PlanRepairs, RepairJobs, FirstGranted, BlockersFor, PlanRest, HasActiveRepair, BuiltFrom,
         NothingDue, WaitsForNobody;
    forall i | 0 <= i < |s.prs|
      ensures WaitsForNobody(BlockersFor(c.facts, s.prs[i]))
    {
      OwnWaitForNobody(c, s, i);
    }
    NoHardBlocker(c, s.prs, 0);
  }

  /** A stack without a bottom that waits for nobody, with nothing held, due or alive: where a PR
      outside it is open on the branch its root is based on, that is said; else its root is put back
      on trunk, unless GitHub rejected just that on its head. */
  lemma BottomlessDecides(c: Context, s: StackInput)
    requires BuiltFrom(c, s) && NothingElse(c) && c.facts.bottom.None?
    requires !HasKind(c.facts.allBlockers, MergeHoldBlocker)
    ensures var root := s.prs[0];
            PlanActions(c).action ==
            if exists x :: OwnsBase(s.prs, s.openByHead, x)
            then Some(Action(CommentBlockedAction, root.number, "external-open-base-pr", Note("external open base")))
            else if IsRemembered(c.rows, root, (RetargetRejected, root.base + "->" + s.trunk)) then None
            else Some(Action(RetargetBaseAction, root.number, s.trunk, Note("retarget stack root")))
  {
    var root := s.prs[0];
    RootStandsOff(c, s);
    RestWithoutBottom(c);
    RememberedExactlyWhen(c.rows, root, RetargetRejected, root.base + "->" + s.trunk);
    hide BuildFacts, BuiltFrom, OwnsBase, IsRemembered, CountHits, PlanWholeStack, PlanRest, NothingElse, HasKind;
    WholeStackRests(c, s, []);
  }

  lemma RootStandsOff(c: Context, s: StackInput)
    requires BuiltFrom(c, s) && c.facts.bottom.None?
    ensures c.facts.topology.root == s.prs[0] && c.facts.trunk == s.trunk
    ensures c.facts.topology.kind == ExternalOpenBase <==> exists x :: OwnsBase(s.prs, s.openByHead, x)
  {
    assert c.facts.topology == ClassifyTopology(s.prs, s.trunk, s.openByHead)
           && c.facts.bottom == c.facts.topology.bottom;
    TopologyExactlyWhen(s.prs, s.trunk, s.openByHead);
    hide OwnsBase;
  }

  lemma RestWithoutBottom(c: Context)
    requires NothingElse(c) && c.facts.bottom.None? && !HasKind(c.facts.allBlockers, MergeHoldBlocker)
    ensures PlanRest(c) == PlanWithoutBottom(c)
  {
    WaitsExactlyWhen(c.facts);
    hide HasPendingOrHuman, PlanWithoutBottom, RepairJobs, NothingDue;
  }

  /** A stack that only holds block, with nothing due or alive, is relieved of the first of them, once
      for that PR's head; after that it is only commented on. */
  lemma HeldStackIsRelieved(c: Context, s: StackInput) returns (i: nat)
    requires BuiltFrom(c, s) && NothingElse(c) && c.facts.bottom.Some?
    requires c.facts.allBlockers != [] && OnlyHolds(c.facts.allBlockers)
    ensures i < |s.prs| && s.prs[i].number == c.facts.allBlockers[0].pr && MergeHold in s.prs[i].labels
    ensures PlanActions(c).action ==
            Some(if IsRemembered(c.rows, s.prs[i], (RemoveMergeHold, "merge-hold"))
                 then CapAction(s.prs[i], c.facts.allBlockers[0].detail)
                 else Action(RemoveMergeHoldAction, s.prs[i].number, "merge-hold", c.facts.allBlockers[0].detail))
  {
    i := FirstHoldIsOn(c, s);
    CleanupTakesFirstHold(c, s, i);
    RememberedExactlyWhen(c.rows, s.prs[i], RemoveMergeHold, "merge-hold");
    HeldRests(c);
    hide BuildFacts, BuiltFrom, NothingElse, IsRemembered, CountHits, PlanActions, PlanMergeHoldCleanup,
         PlanBottomProgress, PlanUpperAcceptance;
    BeyondIsRest(c, s);
  }

  lemma FirstHoldIsOn(c: Context, s: StackInput) returns (i: nat)
    requires BuiltFrom(c, s) && c.facts.allBlockers != [] && OnlyHolds(c.facts.allBlockers)
    ensures i < |s.prs| && s.prs[i].number == c.facts.allBlockers[0].pr && MergeHold in s.prs[i].labels
  {
    var j: nat;
    i, j := ListedBlocker(c, s, 0);
    LookupBlockers(c, s, i);
    HoldNeedsLabel(c.rows, s.prs[i], s.required, s.trunk, SuppressedFor(c.facts.suppressed, s.prs[i]), j);
    hide BuildFacts, BlockersFor, BlockersOf;
  }

  /** Past a bottom with nothing to do, the plan of a stack with nothing else to do is its rest. */
  lemma BeyondIsRest(c: Context, s: StackInput)
    requires BuiltFrom(c, s) && NothingElse(c) && c.facts.bottom.Some?
    requires OnlyHolds(c.facts.allBlockers) && PlanBottomProgress(c).None?
    ensures PlanActions(c).action == PlanRest(c)
  {
    hide BuildFacts, BuiltFrom, NothingElse, PlanBottomHalf, PlanWholeStack, PlanRest;
    BottomGoesOn(c, s);
    match PlanBottomHalf(c, c.facts.bottom.value)
    case GoOn(log) => WholeStackRests(c, s, log);
  }

  lemma CleanupTakesFirstHold(c: Context, s: StackInput, i: nat)
    requires BuiltFrom(c, s) && c.facts.bottom.Some? && c.facts.allBlockers != [] && OnlyHolds(c.facts.allBlockers)
    requires i < |s.prs| && s.prs[i].number == c.facts.allBlockers[0].pr
    ensures PlanUpperAcceptance(c).None?
    ensures PlanMergeHoldCleanup(c) ==
            Some(if CountHits(c.rows, Exact(RemoveMergeHold, s.prs[i].number, s.prs[i].head, "merge-hold")) > 0
                 then CapAction(s.prs[i], c.facts.allBlockers[0].detail)
                 else Action(RemoveMergeHoldAction, s.prs[i].number, "merge-hold", c.facts.allBlockers[0].detail))
  {
    assert c.facts.prs == s.prs;
    assert s.prs[i].number == c.facts.allBlockers[0].pr;
    PrOfFinds(s.prs, i, 0);
    WaitsExactlyWhen(c.facts);
    hide BuildFacts, BuiltFrom, CountHits, HasPendingOrHuman, PrOf;
  }

  lemma {:induction false} PrOfFinds(prs: seq<PrSnapshot>, i: nat, k: nat)
    requires Distinct(prs) && k <= i < |prs|
    ensures PrOf(prs, prs[i].number, k) == Some(prs[i])
    decreases i - k
  {
    if k < i { PrOfFinds(prs, i, k + 1); }
  }

  lemma BottomGoesOn(c: Context, s: StackInput)
    requires BuiltFrom(c, s) && NothingElse(c) && c.facts.bottom.Some?
    requires OnlyHolds(c.facts.allBlockers) && PlanBottomProgress(c).None?
    ensures PlanBottomHalf(c, c.facts.bottom.value).GoOn?
  {
    var bottom := c.facts.bottom.value;
    var b := BottomIsInStack(c, s);
    assert OnlyHolds(BlockersFor(c.facts, bottom)) by {
      forall j | 0 <= j < |BlockersFor(c.facts, bottom)|
        ensures BlockersFor(c.facts, bottom)[j].kind == MergeHoldBlocker
      {
        var k := BlockerIsListed(c, s, b, j);
      }
    }
    hide BuildFacts, BlockersFor, PlanRepairs, RepairJobs, FirstGranted, NothingDue, HasActiveRepair,
         PlanBottomProgress;
    RepairsTakeFirstGrantedJob(c, [bottom], []);
    GrantedIsFirstDue(c.filing, RepairJobs(c, [bottom]), [], CapAction(bottom, IsDraft));
    HalfGoesOn(c, s);
  }

  lemma HeldRests(c: Context)
    requires c.facts.allBlockers != [] && OnlyHolds(c.facts.allBlockers)
    ensures PlanBottomProgress(c).None?
  {
    assert HasKind(c.facts.allBlockers, MergeHoldBlocker) by { assert c.facts.allBlockers[0].kind == MergeHoldBlocker; }
    hide BottomHasPendingOrHuman, HasActiveQueueEvent, HasStaleQueueEvent, PlanLanding;
  }

  /** Where nothing blocks the stack and the bottom is labelled, but an upper PR is not, the plan asks
      once for the head of the bottom, and then waits. */
  lemma AcceptanceIsAsked(c: Context, s: StackInput)
    requires BuiltFrom(c, s) && NothingElse(c) && c.facts.bottom.Some? && c.facts.allBlockers == []
    requires AdminBypass in c.facts.bottom.value.labels
    requires exists pr :: pr in s.prs && pr.state == OPEN && pr.number != c.facts.bottom.value.number
                          && AdminBypass !in pr.labels
    ensures var bottom := c.facts.bottom.value;
            PlanActions(c).action ==
            if IsRemembered(c.rows, bottom, (CommentBlocked, "upper-stack-needs-acceptance")) then None
            else Some(Action(CommentBlockedAction, bottom.number, "upper-stack-needs-acceptance",
                             Note("upper stack needs acceptance")))
  {
    hide BuildFacts, BuiltFrom, NothingElse, IsRemembered, PlanActions, PlanRest;
    AcceptanceIsNeeded(c, s);
    RestIsAcceptance(c);
    BeyondIsRest(c, s);
  }

  lemma RestIsAcceptance(c: Context)
    requires PlanBottomProgress(c).None? && PlanMergeHoldCleanup(c).None?
    ensures PlanRest(c) == PlanUpperAcceptance(c)
  {
    hide PlanBottomProgress, PlanMergeHoldCleanup, PlanUpperAcceptance;
  }

  lemma AcceptanceIsNeeded(c: Context, s: StackInput)
    requires BuiltFrom(c, s) && c.facts.bottom.Some? && c.facts.allBlockers == []
    requires AdminBypass in c.facts.bottom.value.labels
    requires exists pr :: pr in s.prs && pr.state == OPEN && pr.number != c.facts.bottom.value.number
                          && AdminBypass !in pr.labels
    ensures PlanBottomProgress(c).None? && PlanMergeHoldCleanup(c).None?
    ensures PlanUpperAcceptance(c) ==
            if IsRemembered(c.rows, c.facts.bottom.value, (CommentBlocked, "upper-stack-needs-acceptance")) then None
            else Some(Action(CommentBlockedAction, c.facts.bottom.value.number, "upper-stack-needs-acceptance",
                             Note("upper stack needs acceptance")))
  {
    var bottom := c.facts.bottom.value;
    assert c.facts.upperNeedsAcceptance by { AcceptanceExactlyWhen(s.prs, c.facts.bottom); }
    RememberedExactlyWhen(c.rows, bottom, CommentBlocked, "upper-stack-needs-acceptance");
    hide BuildFacts, IsRemembered, CountHits, BuiltFrom;
  }
}
