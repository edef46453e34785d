/** What stands behind a requeue or a squash merge, and when a ready PR is sure to get one. */
module LandingSafety {
  import opened Wrappers
  import opened LedgerModel
  import opened RetryGate
  import opened StackFactsModel
  import opened Planner
  import opened PlannerSafety

  /** Everything `build_stack_facts` reads besides the ledger. */
  datatype StackInput = StackInput(
    prs: seq<PrSnapshot>,
    required: set<string>,
    openPrs: set<int>,
    openByHead: map<string, set<int>>,
    trunk: string,
    staleBase: map<int, bool>)

  ghost predicate BuiltFrom(c: Context, s: StackInput) {
    s.prs != [] && Distinct(s.prs)
    && c.facts == BuildFacts(s.prs, s.required, c.rows, s.openPrs, s.openByHead, s.trunk, s.staleBase)
  }

  lemma LookupBlockers(c: Context, s: StackInput, i: nat)
    requires BuiltFrom(c, s) && i < |s.prs|
    ensures BlockersFor(c.facts, s.prs[i])
            == BlockersOf(c.rows, s.prs[i], s.required, s.trunk, SuppressedFor(c.facts.suppressed, s.prs[i]))
  {
    var lists := BlockerLists(c.rows, s.prs, s.required, s.trunk, c.facts.suppressed);
    ByNumberLookup(s.prs, lists, |s.prs|, i);
  }

  lemma BlockerIsListed(c: Context, s: StackInput, i: nat, j: nat) returns (k: nat)
    requires BuiltFrom(c, s) && i < |s.prs| && j < |BlockersFor(c.facts, s.prs[i])|
    ensures k < |c.facts.allBlockers| && c.facts.allBlockers[k] == BlockersFor(c.facts, s.prs[i])[j]
  {
    k := FlattenHas(s.prs, |s.prs|, c.facts.blockers, i, j);
  }

  lemma BottomIsInStack(c: Context, s: StackInput) returns (i: nat)
    requires BuiltFrom(c, s) && c.facts.bottom.Some?
    ensures i < |s.prs| && s.prs[i] == c.facts.bottom.value && s.prs[i].state == OPEN && s.prs[i].base == s.trunk
  {
    i :| 0 <= i < |s.prs| && s.prs[i] == c.facts.bottom.value;
  }

  lemma BottomBlockerIsListed(c: Context, s: StackInput) returns (k: nat)
    requires BuiltFrom(c, s) && c.facts.bottom.Some? && BlockersFor(c.facts, c.facts.bottom.value) != []
    ensures k < |c.facts.allBlockers| && c.facts.allBlockers[k].pr == c.facts.bottom.value.number
  {
    var i := BottomIsInStack(c, s);
    LookupBlockers(c, s, i);
    BlockersNameTheirPr(c.rows, s.prs[i], s.required, s.trunk, SuppressedFor(c.facts.suppressed, s.prs[i]));
    k := BlockerIsListed(c, s, i, 0);
  }

  lemma EveryKindStops(b: Blocker)
    ensures WaitsOnOthers(b) || IsRepairable(b) || b.kind == MergeHoldBlocker
  {
  }

  /** A bottom that neither waits, nor needs repair, nor is held has no blocker at all. */
  lemma ClearBottomHasNoBlocker(c: Context, s: StackInput)
    requires BuiltFrom(c, s) && c.facts.bottom.Some?
    requires !BottomHasPendingOrHuman(c.facts) && !BottomHasRepairable(c.facts)
    requires !HasKind(c.facts.allBlockers, MergeHoldBlocker)
    ensures BlockersFor(c.facts, c.facts.bottom.value) == []
  {
    if BlockersFor(c.facts, c.facts.bottom.value) != [] {
      var k := BottomBlockerIsListed(c, s);
      EveryKindStops(c.facts.allBlockers[k]);
    }
  }

  /** No hold blocker means no hold label on any open PR that is not a draft. */
  lemma NoHoldLabel(c: Context, s: StackInput, i: nat)
    requires BuiltFrom(c, s) && i < |s.prs| && !HasKind(c.facts.allBlockers, MergeHoldBlocker)
    ensures s.prs[i].state == OPEN && !s.prs[i].isDraft ==> MergeHold !in s.prs[i].labels
  {
    var pr := s.prs[i];
    if pr.state == OPEN && !pr.isDraft && MergeHold in pr.labels {
      LookupBlockers(c, s, i);
      var j := HoldIsABlocker(c.rows, pr, s.required, s.trunk, SuppressedFor(c.facts.suppressed, pr));
      var k := BlockerIsListed(c, s, i, j);
    }
  }

  /** What the three repair passes may return. */
  predicate IsRepairKind(k: ActionKind) {
    k == RepairCheckAction || k == RebaseOntoMasterAction || k == ResolveBotThreads || k == CommentBlockedAction
  }

  lemma RepairKinds(c: Context, prs: seq<PrSnapshot>, log: seq<Call>)
    ensures PlanRepairs(c, prs, log).action.Some? ==> IsRepairKind(PlanRepairs(c, prs, log).action.value.kind)
  {
    QueueRepairsStep(c, prs, 0, log);
    var queue := PlanQueueRepairs(c, prs, 0, log);
    if queue.action.None? {
      DirectRepairsStep(c, prs, 0, queue.log);
      var i := BotThreadsStep(c, prs, 0);
    }
  }

  lemma OtherPlansDoNotLand(c: Context)
    ensures PlanUpperAcceptance(c).Some? ==> !IsLanding(PlanUpperAcceptance(c).value)
    ensures PlanMergeHoldCleanup(c).Some? ==> !IsLanding(PlanMergeHoldCleanup(c).value)
    ensures c.facts.bottom.None? && PlanBottomProgress(c).Some? ==> !IsLanding(PlanBottomProgress(c).value)
  {
    hide HasPendingOrHuman, BottomHasPendingOrHuman, CountHits, PrOf;
  }

  /** A landing plan comes out of the bottom-only half, with nothing left to wait for. */
  lemma LandingComesFromBottom(c: Context, a: Action)
    requires PlanActions(c).action == Some(a) && IsLanding(a)
    ensures c.facts.bottom.Some? && PlanBottomProgress(c) == Some(a)
    ensures !HasActiveRepair(c) && !BottomHasPendingOrHuman(c.facts) && !BottomHasRepairable(c.facts)
  {
    hide PlanRepairs, PlanHardBlockers, PlanBottomProgress, PlanUpperAcceptance, PlanMergeHoldCleanup, HasActiveRepair,
         Candidates, BottomHasPendingOrHuman, BottomHasRepairable;
    OtherPlansDoNotLand(c);
    HardBlockersStep(c, c.facts.prs, 0);
    if c.facts.bottom.None? {
      RepairKinds(c, c.facts.prs, []);
    } else {
      var prs := Candidates(c.facts, Some(c.facts.bottom.value.number));
      RepairKinds(c, prs, []);
      HardBlockersStep(c, prs, 0);
      match PlanBottomHalf(c, c.facts.bottom.value)
      case Decided(_) =>
      case GoOn(log) => RepairKinds(c, c.facts.prs, log);
    }
  }

  /** What a landing action was checked for. */
  ghost predicate SafeToLand(c: Context, s: StackInput, bottom: PrSnapshot, a: Action) {
    var suppressed := SuppressedFor(c.facts.suppressed, bottom);
    && a.pr == bottom.number && bottom.base == s.trunk
    && Ready(bottom, s.required, s.trunk, suppressed) && !QueueRepairInvalid(c.rows, bottom, suppressed)
    && AdminBypass in bottom.labels
    && (forall i :: 0 <= i < |s.prs| && s.prs[i].state == OPEN && !s.prs[i].isDraft ==> MergeHold !in s.prs[i].labels)
    && (forall i :: 0 <= i < |s.prs| && s.prs[i].state == OPEN && s.prs[i].number != bottom.number ==>
          AdminBypass in s.prs[i].labels)
    && !HasActiveQueueEvent(bottom, c.now) && !HasStaleQueueEvent(bottom, c.now)
    && !HasActiveRepair(c)
    && (a.kind == RequeueAction ==>
          s.required != {} && CountHits(c.rows, ForHead(Requeue, bottom.number, bottom.head)) < c.maxRequeue)
    && (a.kind == SquashMergeAction ==>
          s.required == {} && bottom.mergeable == MERGEABLE && AllObservedGreen(bottom)
          && CountHits(c.rows, Exact(SquashMerge, bottom.number, bottom.head, "squash")) < c.maxRequeue)
  }

  lemma ClearBottomIsReady(c: Context, s: StackInput)
    requires BuiltFrom(c, s) && c.facts.bottom.Some?
    requires !BottomHasPendingOrHuman(c.facts) && !BottomHasRepairable(c.facts)
    requires !HasKind(c.facts.allBlockers, MergeHoldBlocker)
    ensures var bottom := c.facts.bottom.value;
            var suppressed := SuppressedFor(c.facts.suppressed, bottom);
            bottom.base == s.trunk && Ready(bottom, s.required, s.trunk, suppressed)
              && !QueueRepairInvalid(c.rows, bottom, suppressed)
  {
    var i := BottomIsInStack(c, s);
    LookupBlockers(c, s, i);
    ClearBottomHasNoBlocker(c, s);
    NoBlockersIffReady(c.rows, s.prs[i], s.required, s.trunk, SuppressedFor(c.facts.suppressed, s.prs[i]));
  }

  lemma StackAcceptsLanding(c: Context, s: StackInput)
    requires BuiltFrom(c, s) && c.facts.bottom.Some?
    requires !c.facts.upperNeedsAcceptance && !HasKind(c.facts.allBlockers, MergeHoldBlocker)
    ensures forall i :: 0 <= i < |s.prs| && s.prs[i].state == OPEN && !s.prs[i].isDraft ==>
              MergeHold !in s.prs[i].labels
    ensures forall i :: 0 <= i < |s.prs| && s.prs[i].state == OPEN && s.prs[i].number != c.facts.bottom.value.number ==>
              AdminBypass in s.prs[i].labels
  {
    forall i | 0 <= i < |s.prs|
      ensures s.prs[i].state == OPEN && !s.prs[i].isDraft ==> MergeHold !in s.prs[i].labels
    {
      NoHoldLabel(c, s, i);
    }
    assert forall i :: 0 <= i < |s.prs| ==> !UnacceptedUpper(s.prs[i], c.facts.bottom.value);
  }

  /** What `plan_bottom_progress` itself checks before it lands. */
  lemma ProgressChecks(c: Context, a: Action)
    requires c.facts.bottom.Some? && PlanBottomProgress(c) == Some(a) && IsLanding(a)
    ensures var bottom := c.facts.bottom.value;
            && PlanLanding(c, bottom) == Some(a)
            && !HasKind(c.facts.allBlockers, MergeHoldBlocker) && AdminBypass in bottom.labels
               && !c.facts.upperNeedsAcceptance
            && !HasActiveQueueEvent(bottom, c.now) && !HasStaleQueueEvent(bottom, c.now)
  {
  }

  lemma LandingChecks(c: Context, bottom: PrSnapshot, a: Action)
    requires PlanLanding(c, bottom) == Some(a)
    ensures a.pr == bottom.number
    ensures a.kind == RequeueAction ==>
              c.facts.required != {} && CountHits(c.rows, ForHead(Requeue, bottom.number, bottom.head)) < c.maxRequeue
    ensures a.kind == SquashMergeAction ==>
              c.facts.required == {} && bottom.mergeable == MERGEABLE && AllObservedGreen(bottom)
              && CountHits(c.rows, Exact(SquashMerge, bottom.number, bottom.head, "squash")) < c.maxRequeue
    ensures a.kind == EscalateRequeueStuck ==>
              && CountHits(c.rows, ForHead(Requeue, bottom.number, bottom.head)) >= c.maxRequeue
              && CountHits(c.rows, ForHead(Start(RequeueEscalation), bottom.number, bottom.head)) == 0
  {
  }

  lemma ProgressIsSafe(c: Context, s: StackInput, a: Action)
    requires BuiltFrom(c, s) && c.facts.bottom.Some? && PlanBottomProgress(c) == Some(a)
    requires (a.kind == RequeueAction || a.kind == SquashMergeAction)
    requires !HasActiveRepair(c) && !BottomHasPendingOrHuman(c.facts) && !BottomHasRepairable(c.facts)
    ensures SafeToLand(c, s, c.facts.bottom.value, a)
  {
    ProgressChecks(c, a);
    LandingChecks(c, c.facts.bottom.value, a);
    ClearBottomIsReady(c, s);
    StackAcceptsLanding(c, s);
  }

  /** A requeue or squash merge is only ever returned for a bottom PR that is safe to land. */
  lemma LandingIsSafe(c: Context, s: StackInput, a: Action)
    requires BuiltFrom(c, s) && PlanActions(c).action == Some(a)
    requires (a.kind == RequeueAction || a.kind == SquashMergeAction)
    ensures c.facts.bottom.Some? && SafeToLand(c, s, c.facts.bottom.value, a)
  {
    LandingComesFromBottom(c, a);
    ProgressIsSafe(c, s, a);
  }

  // ----- the converse -----

  lemma {:induction false} FlattenOnly(prs: seq<PrSnapshot>, n: nat, blockers: map<int, seq<Blocker>>, k: nat)
    returns (i: nat, j: nat)
    requires n <= |prs| && (forall x :: 0 <= x < |prs| ==> prs[x].number in blockers)
    requires k < |Flatten(prs, n, blockers)|
    ensures i < n && j < |blockers[prs[i].number]| && Flatten(prs, n, blockers)[k] == blockers[prs[i].number][j]
  {
    var before := |Flatten(prs, n - 1, blockers)|;
    if k < before {
      i, j := FlattenOnly(prs, n - 1, blockers, k);
    } else {
      i, j := n - 1, k - before;
    }
  }

  /** Every listed blocker belongs to the PR it names. */
  lemma ListedBlocker(c: Context, s: StackInput, k: nat) returns (i: nat, j: nat)
    requires BuiltFrom(c, s) && k < |c.facts.allBlockers|
    ensures i < |s.prs| && j < |BlockersFor(c.facts, s.prs[i])|
    ensures c.facts.allBlockers[k] == BlockersFor(c.facts, s.prs[i])[j] && c.facts.allBlockers[k].pr == s.prs[i].number
  {
    i, j := FlattenOnly(s.prs, |s.prs|, c.facts.blockers, k);
    LookupBlockers(c, s, i);
    BlockersNameTheirPr(c.rows, s.prs[i], s.required, s.trunk, SuppressedFor(c.facts.suppressed, s.prs[i]));
  }

  lemma NoOwnBlocker(c: Context, s: StackInput)
    requires BuiltFrom(c, s) && c.facts.bottom.Some? && BlockersFor(c.facts, c.facts.bottom.value) == []
    ensures forall k :: 0 <= k < |c.facts.allBlockers| ==> c.facts.allBlockers[k].pr != c.facts.bottom.value.number
  {
    var b := BottomIsInStack(c, s);
    forall k | 0 <= k < |c.facts.allBlockers|
      ensures c.facts.allBlockers[k].pr != c.facts.bottom.value.number
    {
      var i, j := ListedBlocker(c, s, k);
      assert i != b;
      assert s.prs[i].number != s.prs[b].number;
    }
  }

  lemma {:induction false} WithNumberNone(prs: seq<PrSnapshot>, number: int)
    requires forall i :: 0 <= i < |prs| ==> prs[i].number != number
    ensures WithNumber(prs, number) == []
  {
    if prs != [] { WithNumberNone(prs[1..], number); }
  }

  lemma {:induction false} WithNumberOne(prs: seq<PrSnapshot>, b: nat)
    requires Distinct(prs) && b < |prs|
    ensures WithNumber(prs, prs[b].number) == [prs[b]]
  {
    if b == 0 { WithNumberNone(prs[1..], prs[0].number); } else { WithNumberOne(prs[1..], b - 1); }
  }

  lemma BottomIsTheCandidate(c: Context, s: StackInput)
    requires BuiltFrom(c, s) && c.facts.bottom.Some?
    ensures Candidates(c.facts, Some(c.facts.bottom.value.number)) == [c.facts.bottom.value]
  {
    var b := BottomIsInStack(c, s);
    assert c.facts.prs == s.prs;
    hide BuildFacts, BuiltFrom;
    WithNumberOne(s.prs, b);
  }

  lemma NoHoldBlocker(c: Context, s: StackInput)
    requires BuiltFrom(c, s)
    requires forall i :: 0 <= i < |s.prs| && s.prs[i].state == OPEN && !s.prs[i].isDraft ==>
               MergeHold !in s.prs[i].labels
    ensures !HasKind(c.facts.allBlockers, MergeHoldBlocker)
  {
    forall k | 0 <= k < |c.facts.allBlockers|
      ensures c.facts.allBlockers[k].kind != MergeHoldBlocker
    {
      var i, j := ListedBlocker(c, s, k);
      LookupBlockers(c, s, i);
      HoldNeedsLabel(c.rows, s.prs[i], s.required, s.trunk, SuppressedFor(c.facts.suppressed, s.prs[i]), j);
    }
  }

  /** The way a ready bottom lands: squash-merged where no check is required, else requeued, by
      the comment that dequeued it. */
  function LandingOf(bottom: PrSnapshot, required: set<string>): Action {
    if required == {}
    then Action(SquashMergeAction, bottom.number, "squash", Note("MERGEABLE with all observed CI green"))
    else
      Action(RequeueAction, bottom.number,
             if bottom.latest.None? || bottom.latest.value.state != DequeuedState then "ready"
             else if bottom.latest.value.commentId == "" then "manual"
             else bottom.latest.value.commentId,
             Note("eligible"))
  }

  /** What a repair pass over the bottom alone finds to do. */
  function BottomRepairs(c: Context, bottom: PrSnapshot): Planned { PlanRepairs(c, [bottom], []) }

  lemma ClearBottomStopsNothing(c: Context, bottom: PrSnapshot)
    requires BlockersFor(c.facts, bottom) == []
    ensures PlanHardBlockers(c, [bottom], 0).None?
  {
    assert HardBlocker(c, bottom, [], 0).Continue?;
    assert PlanHardBlockers(c, [bottom], 1).None?;
  }

  /** A clear bottom with nothing to repair and no live repair in the stack makes progress. */
  lemma ClearBottomProgresses(c: Context, s: StackInput)
    requires BuiltFrom(c, s) && c.facts.bottom.Some? && BlockersFor(c.facts, c.facts.bottom.value) == []
    requires BottomRepairs(c, c.facts.bottom.value).action.None? && !HasActiveRepair(c) && PlanBottomProgress(c).Some?
    ensures PlanActions(c).action == PlanBottomProgress(c)
  {
    BottomIsTheCandidate(c, s);
    NoOwnBlocker(c, s);
    ClearBottomStopsNothing(c, c.facts.bottom.value);
    hide BuildFacts, HasActiveRepair, PlanBottomProgress, PlanRepairs, Candidates, BuiltFrom, PlanHardBlockers;
  }

  lemma RepairsComeFirst(c: Context, s: StackInput)
    requires BuiltFrom(c, s) && c.facts.bottom.Some? && BottomRepairs(c, c.facts.bottom.value).action.Some?
    ensures PlanActions(c).action == BottomRepairs(c, c.facts.bottom.value).action
  {
    BottomIsTheCandidate(c, s);
    hide BuildFacts, PlanRepairs, Candidates, BuiltFrom;
  }

  /** A stack whose bottom is clear never waits without a reason: with no blocker on the bottom, no
      hold, no live repair, no queue event and accepted uppers, the plan acts. Where no check is
      required, a labelled bottom must also be mergeable with everything observed green. */
  lemma ClearBottomAlwaysActs(c: Context, s: StackInput)
    requires BuiltFrom(c, s) && c.facts.bottom.Some? && BlockersFor(c.facts, c.facts.bottom.value) == []
    requires !HasKind(c.facts.allBlockers, MergeHoldBlocker) && !HasActiveRepair(c)
    requires !HasActiveQueueEvent(c.facts.bottom.value, c.now) && !c.facts.upperNeedsAcceptance
    requires var bottom := c.facts.bottom.value;
             s.required == {} && AdminBypass in bottom.labels && !HasStaleQueueEvent(bottom, c.now) ==>
               bottom.mergeable == MERGEABLE && AllObservedGreen(bottom)
    ensures PlanActions(c).action.Some?
  {
    NoOwnBlocker(c, s);
    assert c.facts.required == s.required;
    hide BuildFacts, HasActiveRepair, HasActiveQueueEvent, HasStaleQueueEvent, PlanRepairs, BuiltFrom, AllObservedGreen,
         PlanActions, CountHits;
    assert PlanBottomProgress(c).Some?;
    if BottomRepairs(c, c.facts.bottom.value).action.None? {
      ClearBottomProgresses(c, s);
    } else {
      RepairsComeFirst(c, s);
    }
  }

  /** The plan lands its bottom exactly when that is safe and there is nothing to repair on it. */
  lemma LandsExactlyWhenSafe(c: Context, s: StackInput)
    requires BuiltFrom(c, s) && c.facts.bottom.Some?
    ensures var bottom := c.facts.bottom.value;
            var a := LandingOf(bottom, s.required);
            PlanActions(c).action == Some(a) <==> SafeToLand(c, s, bottom, a) && BottomRepairs(c, bottom).action.None?
  {
    var bottom := c.facts.bottom.value;
    var a := LandingOf(bottom, s.required);
    hide PlanActions, BuildFacts, SafeToLand, PlanRepairs, BuiltFrom;
    if PlanActions(c).action == Some(a) {
      LandingIsSafe(c, s, a);
      if BottomRepairs(c, bottom).action.Some? {
        RepairsComeFirst(c, s);
        RepairKinds(c, [bottom], []);
      }
    }
    if SafeToLand(c, s, bottom, a) && BottomRepairs(c, bottom).action.None? {
      SafeBottomIsClear(c, s, a);
      ClearBottomProgresses(c, s);
    }
  }

  /** A safe bottom has no blocker, nothing of its stack is held, and its uppers are accepted. */
  lemma SafeStackIsClear(c: Context, s: StackInput, a: Action)
    requires BuiltFrom(c, s) && c.facts.bottom.Some? && SafeToLand(c, s, c.facts.bottom.value, a)
    ensures BlockersFor(c.facts, c.facts.bottom.value) == []
    ensures !HasKind(c.facts.allBlockers, MergeHoldBlocker) && !c.facts.upperNeedsAcceptance
    ensures c.facts.required == s.required
  {
    var bottom := c.facts.bottom.value;
    assert !c.facts.upperNeedsAcceptance by {
      assert forall k :: 0 <= k < |s.prs| ==> !UnacceptedUpper(s.prs[k], bottom);
    }
    var i := BottomIsInStack(c, s);
    hide BuildFacts, HasActiveRepair, HasActiveQueueEvent, HasStaleQueueEvent, AllObservedGreen, CountHits;
    LookupBlockers(c, s, i);
    NoBlockersIffReady(c.rows, bottom, s.required, s.trunk, SuppressedFor(c.facts.suppressed, bottom));
    NoHoldBlocker(c, s);
  }

  lemma SafeBottomIsClear(c: Context, s: StackInput, a: Action)
    requires BuiltFrom(c, s) && c.facts.bottom.Some? && a == LandingOf(c.facts.bottom.value, s.required)
    requires SafeToLand(c, s, c.facts.bottom.value, a)
    ensures BlockersFor(c.facts, c.facts.bottom.value) == [] && PlanBottomProgress(c) == Some(a) && !HasActiveRepair(c)
  {
    hide BuildFacts, HasActiveRepair, HasActiveQueueEvent, HasStaleQueueEvent, AllObservedGreen, CountHits,
         BlockersFor, Ready, QueueRepairInvalid, HasKind;
    SafeStackIsClear(c, s, a);
    NoOwnBlocker(c, s);
    hide BuiltFrom;
  }

  /** A failing queue check no repair is planned for, without a claim table: suppressed, not
      repairable, or held back by its gate. */
  predicate PassedOver(c: Context, pr: PrSnapshot, name: string) {
    || name in SuppressedFor(c.facts.suppressed, pr)
    || (name in pr.checks && IsNonRepairable(pr.checks[name].state))
    || c.gate(CheckUnit(pr, name)) == Hold
  }

  lemma {:induction false} QueueChecksPassedOver(c: Context, pr: PrSnapshot, names: seq<string>, i: nat, log: seq<Call>)
    requires i <= |names| && pr.latest.Some? && !c.filing.claims
    ensures QueueCheckRepair(c, pr, names, i, log).action.None? <==>
            forall k :: i <= k < |names| ==> PassedOver(c, pr, names[k])
    ensures QueueCheckRepair(c, pr, names, i, log).log == log
    decreases |names| - i
  {
    if i < |names| { QueueChecksPassedOver(c, pr, names, i + 1, log); }
  }

  lemma {:induction false} KindsHold(names: seq<string>, queueOnly: bool, n: string)
    ensures n in OfQueueKind(names, queueOnly) <==> n in names && IsQueueOnly(n) == queueOnly
  {
    if names != [] { KindsHold(names[1..], queueOnly, n); }
  }

  lemma RepairOrderHolds(names: seq<string>, n: string)
    ensures n in RepairOrder(names) <==> n in names
  {
    KindsHold(names, false, n);
    KindsHold(names, true, n);
  }

  lemma FailedChecksPassedOver(c: Context, pr: PrSnapshot)
    requires !c.filing.claims
    ensures FailedQueueChecks(c, pr, []).action.None? <==>
            (DequeuedAtHead(pr) ==> forall name :: name in pr.latest.value.failingChecks ==> PassedOver(c, pr, name))
    ensures FailedQueueChecks(c, pr, []).log == []
  {
    hide PassedOver;
    if DequeuedAtHead(pr) {
      var names := pr.latest.value.failingChecks;
      var order := RepairOrder(names);
      QueueChecksPassedOver(c, pr, order, 0, []);
      forall n
        ensures n in order <==> n in names
      {
        RepairOrderHolds(names, n);
      }
    }
  }

  lemma RebasePassedOver(c: Context, pr: PrSnapshot)
    requires !c.filing.claims
    ensures PlanRebase(c, pr, BehindMaster, []).action.None? <==>
            c.gate(RebaseUnit(pr)) == Hold
              || (c.gate(RebaseUnit(pr)) == Pass(false) && RepairInFlight(c.rows, LegacyUnit(pr), c.now))
    ensures PlanRebase(c, pr, BehindMaster, []).log == []
  {
    hide RepairInFlight, StaleClaim;
  }

  /** On a bottom without blockers, and without a claim table, there is nothing to repair exactly
      when every failing queue check is passed over and no rebase of a green dequeue is due. */
  lemma NothingToRepairExactlyWhen(c: Context, bottom: PrSnapshot)
    requires !c.filing.claims && BlockersFor(c.facts, bottom) == [] && !c.facts.upperNeedsAcceptance
    ensures BottomRepairs(c, bottom).action.None? <==>
            && (DequeuedAtHead(bottom) ==> forall name :: name in bottom.latest.value.failingChecks ==>
                                             PassedOver(c, bottom, name))
            && (GreenDequeueBehindMaster(c, bottom) ==>
                  || c.gate(RebaseUnit(bottom)) == Hold
                  || (c.gate(RebaseUnit(bottom)) == Pass(false) && RepairInFlight(c.rows, LegacyUnit(bottom), c.now)))
  {
    FailedChecksPassedOver(c, bottom);
    RebasePassedOver(c, bottom);
    hide PassedOver, GreenDequeueBehindMaster, FailedQueueChecks, PlanRebase, RepairInFlight;
    assert PlanQueueRepairs(c, [bottom], 1, []) == Planned(None, []);
    assert FirstOfKind([], Conflict, 0).None?;
    assert DirectRepair(c, bottom, [], 0, []) == Planned(None, []);
    assert PlanDirectRepairs(c, [bottom], 1, []) == Planned(None, []);
    assert PlanDirectRepairs(c, [bottom], 0, []) == Planned(None, []);
    assert BotThreadRepair(c, bottom, [], 0).None?;
    assert PlanBotThreadRepairs(c, [bottom], 1).None?;
    assert PlanBotThreadRepairs(c, [bottom], 0).None?;
  }

  lemma {:induction false} EffectiveIgnoresLabels(pr: PrSnapshot, labels: set<Label>, blockers: seq<Blocker>, n: nat,
                                                  suppressed: seq<string>)
    requires n <= |blockers|
    ensures Effective(pr.(labels := labels), blockers, n, suppressed) == Effective(pr, blockers, n, suppressed)
  {
    if n > 0 { EffectiveIgnoresLabels(pr, labels, blockers, n - 1, suppressed); }
  }

  lemma {:induction false} QueueInvalidIgnoresLabels(rows: seq<Row>, pr: PrSnapshot, labels: set<Label>,
                                                     names: seq<string>, n: nat, suppressed: seq<string>,
                                                       known: set<string>)
    requires n <= |names|
    ensures QueueInvalid(rows, pr.(labels := labels), names, n, suppressed, known)
            == QueueInvalid(rows, pr, names, n, suppressed, known)
  {
    if n > 0 { QueueInvalidIgnoresLabels(rows, pr, labels, names, n - 1, suppressed, known); }
  }

  /** A hold label is invisible exactly on a PR that is a draft or not open: adding it there
      changes no blocker, so such an upper PR never stops a landing. */
  lemma HoldIsSeenExactlyOnReadyPrs(rows: seq<Row>, pr: PrSnapshot, required: set<string>, trunk: string,
                                    suppressed: seq<string>)
    requires MergeHold !in pr.labels
    ensures BlockersOf(rows, pr.(labels := pr.labels + {MergeHold}), required, trunk, suppressed)
            == BlockersOf(rows, pr, required, trunk, suppressed)
            <==> pr.state != OPEN || pr.isDraft
  {
    var held := pr.(labels := pr.labels + {MergeHold});
    if pr.state == OPEN && !pr.isDraft {
      var k := HoldIsABlocker(rows, held, required, trunk, suppressed);
      if k < |BlockersOf(rows, pr, required, trunk, suppressed)| {
        HoldNeedsLabel(rows, pr, required, trunk, suppressed, k);
      }
    } else {
      var own := ResolveAll(rows, pr, EffectiveBlockers(pr, required, trunk, suppressed));
      assert EffectiveBlockers(held, required, trunk, suppressed)
             == EffectiveBlockers(pr, required, trunk, suppressed) by {
        EffectiveIgnoresLabels(pr, held.labels, Classify(pr, required, trunk), |Classify(pr, required, trunk)|,
                               suppressed);
      }
      assert ResolveAll(rows, held, EffectiveBlockers(held, required, trunk, suppressed)) == own;
      if DequeuedAtHead(pr) {
        var names := pr.latest.value.failingChecks;
        QueueInvalidIgnoresLabels(rows, pr, held.labels, names, |names|, suppressed, KeysOf(own, |own|));
      }
    }
  }
}
