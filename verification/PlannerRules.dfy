/** Rules the planner keeps besides the caps: whose threads it touches, when it comments, when it
    removes a hold, retargets a stack or releases a claim. */
module PlannerRules {
  import opened Wrappers
  import opened LedgerModel
  import opened RetryBudget
  import opened RetryGate
  import opened StackFactsModel
  import opened Planner
  import opened FilingClaims
  import opened PlannerSafety
  import opened LandingSafety
  import opened RowCaps
  import opened Dispatch

  // ----- the order of queue-check repairs -----

  lemma {:induction false} QueueKindsSplit(names: seq<string>)
    ensures multiset(RepairOrder(names)) == multiset(names)
    ensures forall n :: n in OfQueueKind(names, false) ==> !IsQueueOnly(n)
    ensures forall n :: n in OfQueueKind(names, true) ==> IsQueueOnly(n)
  {
    if names != [] {
      QueueKindsSplit(names[1..]);
      assert names == [names[0]] + names[1..];
    }
  }

  /** Failing queue checks are all tried, the queue-only ones last. */
  lemma QueueOnlyChecksComeLast(names: seq<string>, i: nat, j: nat)
    requires i < j < |RepairOrder(names)| && IsQueueOnly(RepairOrder(names)[i])
    ensures IsQueueOnly(RepairOrder(names)[j]) && multiset(RepairOrder(names)) == multiset(names)
  {
    QueueKindsSplit(names);
    var first, last := OfQueueKind(names, false), OfQueueKind(names, true);
    assert forall k :: 0 <= k < |first| ==> !IsQueueOnly(first[k]);
    assert RepairOrder(names)[j] == last[j - |first|];
  }

  // ----- comments on hard blockers -----

  predicate Stops(b: Blocker) { b.kind == PendingCheckBlocker || IsHumanKind(b.kind) }

  /** What the first stopping blocker of a PR makes the plan do: wait, or comment once. */
  function Answer(c: Context, pr: PrSnapshot, b: Blocker): Option<Action> {
    if b.kind == PendingCheckBlocker || b.kind == HumanDecision
       || CountHits(c.rows, Exact(CommentBlocked, pr.number, pr.head, b.key)) > 0
    then None else Some(Action(CommentBlockedAction, pr.number, b.key, b.detail))
  }

  ghost predicate FirstStop(blockers: seq<Blocker>, j: int) {
    0 <= j < |blockers| && Stops(blockers[j]) && forall k :: 0 <= k < j ==> !Stops(blockers[k])
  }

  lemma {:induction false} HardBlockerIsFirstStop(c: Context, pr: PrSnapshot, blockers: seq<Blocker>, i: nat)
    requires i <= |blockers| && forall k :: 0 <= k < i ==> !Stops(blockers[k])
    ensures HardBlocker(c, pr, blockers, i).Continue? <==> forall k :: 0 <= k < |blockers| ==> !Stops(blockers[k])
    ensures forall j :: FirstStop(blockers, j) ==> HardBlocker(c, pr, blockers, i) == Stop(Answer(c, pr, blockers[j]))
    decreases |blockers| - i
  {
    if i < |blockers| {
      if Stops(blockers[i]) { assert FirstStop(blockers, i); } else { HardBlockerIsFirstStop(c, pr, blockers, i + 1); }
    }
  }

  /** The comment pass answers exactly the first stopping blocker of the first PR that has one. */
  lemma {:induction false} HardBlockersAnswerFirstStop(c: Context, prs: seq<PrSnapshot>, i: nat, p: nat, j: nat)
    requires i <= p < |prs| && FirstStop(BlockersFor(c.facts, prs[p]), j)
    requires forall q :: i <= q < p ==> forall k :: 0 <= k < |BlockersFor(c.facts, prs[q])| ==>
                                          !Stops(BlockersFor(c.facts, prs[q])[k])
    ensures PlanHardBlockers(c, prs, i) == Answer(c, prs[p], BlockersFor(c.facts, prs[p])[j])
    decreases |prs| - i
  {
    hide BlockersFor, Answer;
    HardBlockerIsFirstStop(c, prs[i], BlockersFor(c.facts, prs[i]), 0);
    if i < p { HardBlockersAnswerFirstStop(c, prs, i + 1, p, j); }
  }

  // ----- review threads -----

  /** An unresolved thread all of whose authors are bots or the owner. */
  predicate IsBotsThread(t: ReviewThread) { !t.isResolved && t.authors != {} && t.authors <= BOT_OR_SELF_AUTHORS }

  ghost predicate ComesFromThread(pr: PrSnapshot, b: Blocker) {
    exists k :: 0 <= k < |pr.threads| && pr.threads[k].id == b.key && IsBotsThread(pr.threads[k])
                && (b.kind == OutdatedBotThread <==> pr.threads[k].isOutdated)
  }

  predicate IsBotKind(k: BlockerKind) { k == BotThread || k == OutdatedBotThread }

  lemma {:induction false} ThreadsAreBots(pr: PrSnapshot, n: nat)
    requires n <= |pr.threads|
    ensures forall i :: 0 <= i < |ThreadBlockers(pr, n)| && IsBotKind(ThreadBlockers(pr, n)[i].kind) ==>
              ComesFromThread(pr, ThreadBlockers(pr, n)[i])
  {
    if n > 0 {
      ThreadsAreBots(pr, n - 1);
      var before, after, t := ThreadBlockers(pr, n - 1), ThreadBlockers(pr, n), pr.threads[n - 1];
      if !t.isResolved && IsBotKind(ThreadKind(t)) {
        assert t.authors <= BOT_OR_SELF_AUTHORS by { assert t.authors - BOT_OR_SELF_AUTHORS == {}; }
        assert ComesFromThread(pr, after[|before|]);
      }
    }
  }

  lemma {:induction false} ChecksAreNoBots(pr: PrSnapshot, names: seq<string>, n: nat, configured: bool, trunk: string)
    requires n <= |names|
    ensures forall i :: 0 <= i < |CheckBlockers(pr, names, n, configured, trunk)| ==>
              !IsBotKind(CheckBlockers(pr, names, n, configured, trunk)[i].kind)
  {
    if n > 0 { ChecksAreNoBots(pr, names, n - 1, configured, trunk); }
  }

  lemma RawBotsAreThreads(pr: PrSnapshot, required: set<string>, trunk: string, i: nat)
    requires i < |Classify(pr, required, trunk)| && IsBotKind(Classify(pr, required, trunk)[i].kind)
    ensures ComesFromThread(pr, Classify(pr, required, trunk)[i])
  {
    var names := CheckNames(pr, required);
    hide CheckNames, ComesFromThread, HasConflict;
    ThreadsAreBots(pr, |pr.threads|);
    ChecksAreNoBots(pr, names, |names|, required != {}, trunk);
  }

  /** A bot-thread blocker stands for an unresolved thread that no human wrote in. */
  lemma BotBlockerIsAThread(rows: seq<Row>, pr: PrSnapshot, required: set<string>, trunk: string,
                            suppressed: seq<string>, j: nat)
    requires j < |BlockersOf(rows, pr, required, trunk, suppressed)|
    requires IsBotKind(BlockersOf(rows, pr, required, trunk, suppressed)[j].kind)
    ensures ComesFromThread(pr, BlockersOf(rows, pr, required, trunk, suppressed)[j])
  {
    hide ComesFromThread;
    var raw, effective := Classify(pr, required, trunk), EffectiveBlockers(pr, required, trunk, suppressed);
    var own := ResolveAll(rows, pr, effective);
    if j < |own| {
      var i := EffectiveSource(pr, raw, |raw|, suppressed, j);
      assert own[j] == effective[j];
      RawBotsAreThreads(pr, required, trunk, i);
    } else {
      var names := pr.latest.value.failingChecks;
      QueueInvalidEmpty(rows, pr, names, |names|, suppressed, KeysOf(own, |own|));
    }
  }

  /** The thread an action of the bot-thread pass names. */
  ghost predicate NamesThread(a: Action, b: Blocker) {
    match a.kind
    case ResolveBotThreads => a.key == b.key && IsBotKind(b.kind)
    case RepairCheckAction => a.key == BOT_THREAD_PREFIX + b.key && b.kind == BotThread
    case _ => true
  }

  lemma {:induction false} BotActionNamesThread(c: Context, pr: PrSnapshot, blockers: seq<Blocker>, i: nat)
    returns (j: nat)
    requires i <= |blockers| && BotThreadRepair(c, pr, blockers, i).Some?
    ensures j < |blockers| && NamesThread(BotThreadRepair(c, pr, blockers, i).value, blockers[j])
    ensures BotThreadRepair(c, pr, blockers, i).value.kind == ResolveBotThreads ==>
              blockers[j].kind == OutdatedBotThread
                || DifferentHead(c.rows, Start(RepairBotThread), pr.number, pr.head, blockers[j].key)
    decreases |blockers| - i
  {
    hide DifferentHead;
    j := i;
    if BotThreadRepair(c, pr, blockers, i) == BotThreadRepair(c, pr, blockers, i + 1)
      && blockers[i].kind != OutdatedBotThread && blockers[i].kind != BotThread {
      j := BotActionNamesThread(c, pr, blockers, i + 1);
    } else if blockers[i].kind == BotThread
      && !DifferentHead(c.rows, Start(RepairBotThread), pr.number, pr.head, blockers[i].key)
         && c.gate(ThreadUnit(pr, blockers[i].key)).Hold? {
      j := BotActionNamesThread(c, pr, blockers, i + 1);
    }
  }

  lemma ResolveComesFromBotPass(c: Context, a: Action) returns (pr: PrSnapshot)
    requires PlanActions(c).action == Some(a) && a.kind == ResolveBotThreads
    ensures pr in c.facts.prs && BotThreadRepair(c, pr, BlockersFor(c.facts, pr), 0) == Some(a) && a.pr == pr.number
  {
    assert Candidates(c.facts, None) == c.facts.prs;
    hide PlanHardBlockers, PlanBottomProgress, PlanUpperAcceptance, PlanMergeHoldCleanup, HasActiveRepair, Candidates,
         BlockersFor, BotThreadRepair;
    OtherPlansResolveNothing(c);
    HardBlockersStep(c, c.facts.prs, 0);
    if c.facts.bottom.None? {
      pr := BotPassTarget(c, None, [], a);
    } else {
      var only := Some(c.facts.bottom.value.number);
      HardBlockersStep(c, Candidates(c.facts, only), 0);
      match PlanBottomHalf(c, c.facts.bottom.value)
      case Decided(_) => pr := BotPassTarget(c, only, [], a);
      case GoOn(log) => pr := BotPassTarget(c, None, log, a);
    }
  }

  lemma OtherPlansResolveNothing(c: Context)
    ensures PlanUpperAcceptance(c).Some? ==> PlanUpperAcceptance(c).value.kind != ResolveBotThreads
    ensures PlanMergeHoldCleanup(c).Some? ==> PlanMergeHoldCleanup(c).value.kind != ResolveBotThreads
    ensures PlanBottomProgress(c).Some? ==> PlanBottomProgress(c).value.kind != ResolveBotThreads
  {
    hide HasPendingOrHuman, BottomHasPendingOrHuman, HasActiveQueueEvent, HasStaleQueueEvent, AllObservedGreen,
         CountHits, PrOf;
  }

  lemma BotPassTarget(c: Context, only: Option<int>, log: seq<Call>, a: Action) returns (pr: PrSnapshot)
    requires PlanRepairs(c, Candidates(c.facts, only), log).action == Some(a) && a.kind == ResolveBotThreads
    ensures pr in c.facts.prs && BotThreadRepair(c, pr, BlockersFor(c.facts, pr), 0) == Some(a) && a.pr == pr.number
  {
    hide Candidates, BlockersFor, BotThreadRepair, Grants;
    var prs := Candidates(c.facts, only);
    QueueRepairsStep(c, prs, 0, log);
    var queue := PlanQueueRepairs(c, prs, 0, log);
    DirectRepairsStep(c, prs, 0, queue.log);
    var i := BotThreadsStep(c, prs, 0);
    var j := CandidateIn(c.facts, only, i);
    pr := prs[i];
  }

  lemma ResolvedThread(rows: seq<Row>, pr: PrSnapshot, a: Action, b: Blocker)
    requires a.kind == ResolveBotThreads && NamesThread(a, b) && ComesFromThread(pr, b)
    requires b.kind == OutdatedBotThread || DifferentHead(rows, Start(RepairBotThread), pr.number, pr.head, b.key)
    ensures exists k :: 0 <= k < |pr.threads| && pr.threads[k].id == a.key && IsBotsThread(pr.threads[k])
                        && (pr.threads[k].isOutdated
                            || DifferentHead(rows, Start(RepairBotThread), pr.number, pr.head, a.key))
  {
    hide DifferentHead, IsBotsThread;
  }

  /** The planner only resolves threads no human wrote in: unresolved, by bots or the owner, and
      outdated or already repaired on an earlier head. */
  lemma ResolvedThreadsAreBots(c: Context, s: StackInput, a: Action) returns (pr: PrSnapshot)
    requires BuiltFrom(c, s) && PlanActions(c).action == Some(a) && a.kind == ResolveBotThreads
    ensures pr in s.prs && pr.number == a.pr
    ensures exists k :: 0 <= k < |pr.threads| && pr.threads[k].id == a.key && IsBotsThread(pr.threads[k])
                        && (pr.threads[k].isOutdated
                            || DifferentHead(c.rows, Start(RepairBotThread), pr.number, pr.head, a.key))
  {
    hide PlanActions, BuildFacts, DifferentHead, BotThreadRepair, BlockersFor, BlockersOf, BuiltFrom, ComesFromThread,
         IsBotsThread;
    pr := ResolveComesFromBotPass(c, a);
    StackIsGiven(c, s);
    var j := BotActionNamesThread(c, pr, BlockersFor(c.facts, pr), 0);
    BotBlockersAreThreads(c, s, pr, j);
    ResolvedThread(c.rows, pr, a, BlockersFor(c.facts, pr)[j]);
  }

  lemma StackIsGiven(c: Context, s: StackInput)
    requires BuiltFrom(c, s)
    ensures c.facts.prs == s.prs
  {
  }

  lemma BotBlockersAreThreads(c: Context, s: StackInput, pr: PrSnapshot, j: nat)
    requires BuiltFrom(c, s) && pr in s.prs && j < |BlockersFor(c.facts, pr)|
    requires IsBotKind(BlockersFor(c.facts, pr)[j].kind)
    ensures ComesFromThread(pr, BlockersFor(c.facts, pr)[j])
  {
    hide BuildFacts, BlockersFor, BlockersOf, BuiltFrom, ComesFromThread;
    var i :| 0 <= i < |s.prs| && s.prs[i] == pr;
    LookupBlockers(c, s, i);
    BotBlockerIsAThread(c.rows, pr, s.required, s.trunk, SuppressedFor(c.facts.suppressed, pr), j);
  }

  // ----- holds, bases, claims -----

  /** A hold label is only removed where holds are all that blocks the stack, from a PR that has one. */
  lemma HoldRemovalIsSafe(c: Context, s: StackInput, a: Action) returns (i: nat)
    requires BuiltFrom(c, s) && PlanActions(c).action == Some(a) && a.kind == RemoveMergeHoldAction
    ensures forall k :: 0 <= k < |c.facts.allBlockers| ==> c.facts.allBlockers[k].kind == MergeHoldBlocker
    ensures c.facts.bottom.Some? && i < |s.prs| && s.prs[i].number == a.pr && s.prs[i].state == OPEN
    ensures MergeHold in s.prs[i].labels
  {
    hide PlanActions, PlanBottomProgress, PlanUpperAcceptance, BuildFacts, CountHits;
    WhereCappedActionsComeFrom(c, a);
    OtherPlansAreOther(c);
    var j: nat;
    i, j := ListedBlocker(c, s, 0);
    LookupBlockers(c, s, i);
    HoldNeedsLabel(c.rows, s.prs[i], s.required, s.trunk, SuppressedFor(c.facts.suppressed, s.prs[i]), j);
  }

  /** A stack is only retargeted to trunk where no PR of it stands on trunk and no open PR
      outside it owns the base of its root. */
  lemma RetargetIsSafe(c: Context, s: StackInput, a: Action)
    requires BuiltFrom(c, s) && PlanActions(c).action == Some(a) && a.kind == RetargetBaseAction
    ensures a.pr == s.prs[0].number && a.key == s.trunk && c.facts.bottom.None?
    ensures s.prs[0].base in s.openByHead ==> s.openByHead[s.prs[0].base] <= Numbers(s.prs)
    ensures CountHits(c.rows, Exact(RetargetRejected, a.pr, s.prs[0].head, s.prs[0].base + "->" + s.trunk)) == 0
  {
    assert PlanBottomProgress(c) == Some(a) by {
      hide PlanActions, PlanUpperAcceptance, PlanMergeHoldCleanup, PlanBottomProgress, BuildFacts;
      WhereCappedActionsComeFrom(c, a);
      OtherPlansAreOther(c);
    }
    hide PlanActions, PlanBottomProgress, CountHits;
    RetargetFromTopology(c, a);
    TopologyOf(c, s);
  }

  lemma TopologyOf(c: Context, s: StackInput)
    requires BuiltFrom(c, s)
    ensures c.facts.topology.root == s.prs[0] && c.facts.trunk == s.trunk
    ensures c.facts.bottom.None? && c.facts.topology.kind != ExternalOpenBase && s.prs[0].base in s.openByHead ==>
              s.openByHead[s.prs[0].base] <= Numbers(s.prs)
  {
    assert c.facts.topology == ClassifyTopology(s.prs, s.trunk, s.openByHead)
           && c.facts.bottom == c.facts.topology.bottom;
    hide BuildFacts, Numbers, CurrentBottomPr;
    if s.prs[0].base in s.openByHead { NothingOutside(s.openByHead[s.prs[0].base], Numbers(s.prs)); }
  }

  lemma NothingOutside(a: set<int>, b: set<int>)
    ensures a - b == {} <==> a <= b
  {
    if a - b == {} {
      forall x | x in a
        ensures x in b
      {
        assert x !in a - b;
      }
    }
  }

  lemma RetargetFromTopology(c: Context, a: Action)
    requires PlanBottomProgress(c) == Some(a) && a.kind == RetargetBaseAction
    ensures c.facts.bottom.None? && c.facts.topology.kind != ExternalOpenBase && a.pr == c.facts.topology.root.number
    ensures a.key == c.facts.trunk
    ensures CountHits(c.rows,
                      Exact(RetargetRejected, a.pr, c.facts.topology.root.head, c.facts.topology.root.base + "->"
                            + c.facts.trunk)) == 0
  {
    hide BottomHasPendingOrHuman, HasActiveQueueEvent, HasStaleQueueEvent, AllObservedGreen, CountHits;
  }

  /** The planner only releases a rebase claim of a PR none of whose rebases is alive and one of
      which was settled, and only to take it again. */
  lemma ReleasedClaimWasDead(c: Context, pr: PrSnapshot, log: seq<Call>, k: nat)
    requires |log| <= k < |ClaimRebase(c, pr, log).log| && ClaimRebase(c, pr, log).log[k].ReleaseCall?
    ensures !RepairInFlight(c.rows, RebaseUnit(pr), c.now) && !RepairInFlight(c.rows, LegacyUnit(pr), c.now)
    ensures Latest(c.rows, ByUnit(Settled(RebaseOntoMaster), pr.number, RebaseKey(pr.number))).Some?
            || Latest(c.rows, ByUnit(Settled(ConflictRepair), pr.number, LegacyConflictKey(pr.number))).Some?
    ensures k + 1 < |ClaimRebase(c, pr, log).log| && ClaimRebase(c, pr, log).log[k + 1].ClaimCall?
            && ClaimRebase(c, pr, log).log[k + 1].key == ClaimRebase(c, pr, log).log[k].key
  {
    hide RepairInFlight;
    if LatestSettle(c.rows, RebaseUnit(pr)).Some? { SettleOfUnit(c.rows, RebaseUnit(pr)); }
    if LatestSettle(c.rows, LegacyUnit(pr)).Some? { SettleOfUnit(c.rows, LegacyUnit(pr)); }
  }

  /** A settle on the current head is a settle of the unit on some head. */
  lemma SettleOfUnit(rows: seq<Row>, u: Unit)
    requires LatestSettle(rows, u).Some?
    ensures Latest(rows, ByUnit(Settled(u.kind), u.pr, u.key)).Some?
  {
    var at := LatestPosition(rows, Settles(u));
    var other := LatestPosition(rows, ByUnit(Settled(u.kind), u.pr, u.key));
    assert Hits(ByUnit(Settled(u.kind), u.pr, u.key), rows[at]);
  }

  // ----- queue events and follow-ups -----

  /** Mergify's last word on the PR still stands for it, whatever the time: it waits with nothing
      to wait for but the queue, or has the PR queued; an event of another head counts only under
      the queued label. */
  predicate EventHolds(pr: PrSnapshot) {
    pr.latest.Some? &&
    var e := pr.latest.value;
    var ofOther := e.headSha != "" && e.headSha != pr.head;
    && (ofOther ==> Queued in pr.labels)
    && (|| (e.state == WaitingState && !HasConflict(pr) && Dequeued !in pr.labels && !e.waitsOnConflict)
        || ((e.state == QueuedState || e.state == MergingState) && e.adminBypassRule))
  }

  /** The event names the PR's very head and was queued ninety minutes ago or more. */
  predicate EventIsOld(pr: PrSnapshot, now: int) {
    pr.latest.Some? &&
    var e := pr.latest.value;
    && e.state != WaitingState && e.headSha == pr.head && e.queuedAt.Some?
    && now - e.queuedAt.value >= 5400
  }

  /** The clock never makes an event let go: it only turns an active one into a stale one. */
  lemma EventHoldsActiveOrStale(pr: PrSnapshot, now: int)
    ensures HasStaleQueueEvent(pr, now) <==> EventHolds(pr) && EventIsOld(pr, now)
    ensures HasActiveQueueEvent(pr, now) <==> EventHolds(pr) && !EventIsOld(pr, now)
  {
  }

  /** Everything but a queue event speaks for landing the bottom by a requeue. */
  ghost predicate OnlyTheEventCounts(c: Context, s: StackInput) {
    && BuiltFrom(c, s) && c.facts.bottom.Some? && s.required != {}
    && BlockersFor(c.facts, c.facts.bottom.value) == [] && BottomRepairs(c, c.facts.bottom.value).action.None?
    && !HasKind(c.facts.allBlockers, MergeHoldBlocker) && !c.facts.upperNeedsAcceptance && !HasActiveRepair(c)
    && AdminBypass in c.facts.bottom.value.labels
    && CountHits(c.rows, ForHead(Requeue, c.facts.bottom.value.number, c.facts.bottom.value.head)) < c.maxRequeue
  }

  lemma ProgressUnderEvent(c: Context, s: StackInput)
    requires OnlyTheEventCounts(c, s)
    ensures var bottom := c.facts.bottom.value;
            PlanBottomProgress(c) ==
            if !EventHolds(bottom) then Some(LandingOf(bottom, s.required))
            else if !EventIsOld(bottom, c.now) then None
            else if CountHits(c.rows,
                              Exact(RefreshStaleQueue, bottom.number, bottom.head,
                                    STALE_QUEUE_EVENT_REFRESH_KEY)) < c.maxRequeue
                 then Some(Action(RefreshStaleQueueAction, bottom.number, STALE_QUEUE_EVENT_REFRESH_KEY,
                                  Note("stale queue event")))
            else Some(CapAction(bottom, Note("stale queue event")))
  {
    assert c.facts.required == s.required;
    hide BuildFacts, HasActiveRepair, HasActiveQueueEvent, HasStaleQueueEvent, PlanRepairs, EventHolds, EventIsOld,
         CountHits, BuiltFrom, BlockersFor;
    NoOwnBlocker(c, s);
    EventHoldsActiveOrStale(c.facts.bottom.value, c.now);
  }

  /** With all else in favour, the plan requeues its bottom exactly when no queue event stands for
      it, whatever the time. A standing event is waited for, and refreshed exactly from its time on
      and below the cap of refreshes. */
  lemma QueueEventDecides(c: Context, s: StackInput)
    requires OnlyTheEventCounts(c, s)
    ensures var bottom := c.facts.bottom.value;
            && (PlanActions(c).action == Some(LandingOf(bottom, s.required)) <==> !EventHolds(bottom))
            && (PlanActions(c).action.Some? && PlanActions(c).action.value.kind == RefreshStaleQueueAction <==>
                && EventHolds(bottom) && EventIsOld(bottom, c.now)
                && CountHits(c.rows,
                             Exact(RefreshStaleQueue, bottom.number, bottom.head,
                                   STALE_QUEUE_EVENT_REFRESH_KEY)) < c.maxRequeue)
  {
    ProgressUnderEvent(c, s);
    hide PlanActions, PlanBottomProgress, PlanUpperAcceptance, PlanMergeHoldCleanup, BuildFacts, EventHolds, EventIsOld,
         CountHits, PlanRepairs, HasActiveRepair, BuiltFrom;
    if PlanBottomProgress(c).Some? {
      ClearBottomProgresses(c, s);
    } else if PlanActions(c).action.Some? && !IsRepairKind(PlanActions(c).action.value.kind) {
      WhereCappedActionsComeFrom(c, PlanActions(c).action.value);
      OtherPlansAreOther(c);
      OtherPlansDoNotLand(c);
    }
  }

  /** Acceptance of the upper PRs is asked for exactly once per head of the bottom, where one is
      unaccepted and no PR of the stack has any blocker. */
  lemma AcceptanceAskedExactlyWhen(c: Context, s: StackInput)
    requires BuiltFrom(c, s) && c.facts.bottom.Some?
    ensures PlanUpperAcceptance(c).Some? <==>
            && (exists i :: 0 <= i < |s.prs| && UnacceptedUpper(s.prs[i], c.facts.bottom.value))
            && (forall i :: 0 <= i < |s.prs| ==> BlockersFor(c.facts, s.prs[i]) == [])
            && CountHits(c.rows,
                         Exact(CommentBlocked, c.facts.bottom.value.number, c.facts.bottom.value.head,
                               "upper-stack-needs-acceptance")) == 0
  {
    assert c.facts.upperNeedsAcceptance <==>
           exists i :: 0 <= i < |s.prs| && UnacceptedUpper(s.prs[i], c.facts.bottom.value);
    hide BuildFacts, BlockersFor, CountHits, UnacceptedUpper;
    if c.facts.allBlockers == [] {
      forall i | 0 <= i < |s.prs|
        ensures BlockersFor(c.facts, s.prs[i]) == []
      {
        if BlockersFor(c.facts, s.prs[i]) != [] { var k := BlockerIsListed(c, s, i, 0); }
      }
    } else {
      var i, j := ListedBlocker(c, s, 0);
    }
  }

  /** A prerequisite needs its follow-up requeue until one is recorded for that check. */
  lemma FollowUpHappensOnce(rows: seq<Row>, bottom: PrSnapshot, openPrs: set<int>, now: int)
    requires PrereqOf(rows, Some(bottom), openPrs).Some?
    ensures var status := PrereqOf(rows, Some(bottom), openPrs).value;
            var after := PrereqOf(rows + [Plain(PrereqRequeue, bottom, status.checkName, now)], Some(bottom), openPrs);
            && after == Some(status.(needsFollowup := false))
            && (status.checkName != ""
                && Latest(rows, Exact(PrereqRequeue, bottom.number, bottom.head, status.checkName)).None? ==>
                     status.needsFollowup)
  {
    var status := PrereqOf(rows, Some(bottom), openPrs).value;
    var r := Plain(PrereqRequeue, bottom, status.checkName, now);
    AppendStep(rows, r, ForHead(PrereqCreated, bottom.number, bottom.head));
    AppendStep(rows, r, Exact(PrereqRequeue, bottom.number, bottom.head, status.checkName));
  }

  lemma NoopAfterRequeue(rows: seq<Row>, after: seq<Row>, bottom: PrSnapshot, openPrs: set<int>)
    requires forall q: Query :: q.kind != Requeue ==> Latest(after, q) == Latest(rows, q)
    ensures QueueOnlyNoopCheck(after, Some(bottom)) == QueueOnlyNoopCheck(rows, Some(bottom))
    ensures PrereqOf(after, Some(bottom), openPrs) == PrereqOf(rows, Some(bottom), openPrs)
  {
  }

  lemma NoopIsUsed(rows: seq<Row>, bottom: PrSnapshot, openPrs: set<int>, check: string, now: int)
    requires QueueOnlyNoopCheck(rows, Some(bottom)) == Some(check)
    ensures var after := rows + [Plain(QueueOnlyRequeue, bottom, check, now)];
            && QueueOnlyNoopCheck(after, Some(bottom)) == None
            && PrereqOf(after, Some(bottom), openPrs) == PrereqOf(rows, Some(bottom), openPrs)
  {
    var r := Plain(QueueOnlyRequeue, bottom, check, now);
    AppendStep(rows, r, ForHead(QueueOnlyNoop, bottom.number, bottom.head));
    AppendStep(rows, r, Exact(QueueOnlyRequeue, bottom.number, bottom.head, check));
    AppendStep(rows, r, ForHead(PrereqCreated, bottom.number, bottom.head));
    var row := Latest(rows, ForHead(PrereqCreated, bottom.number, bottom.head));
    if row.Some? { AppendStep(rows, r, Exact(PrereqRequeue, bottom.number, bottom.head, row.value.key)); }
  }

  lemma PrereqIsUsed(rows: seq<Row>, bottom: PrSnapshot, openPrs: set<int>, now: int)
    requires PrereqOf(rows, Some(bottom), openPrs).Some?
    ensures var check := PrereqOf(rows, Some(bottom), openPrs).value.checkName;
            var after := rows + [Plain(PrereqRequeue, bottom, check, now)];
            QueueOnlyNoopCheck(after, Some(bottom)) == QueueOnlyNoopCheck(rows, Some(bottom))
  {
    var r := Plain(PrereqRequeue, bottom, PrereqOf(rows, Some(bottom), openPrs).value.checkName, now);
    AppendStep(rows, r, ForHead(QueueOnlyNoop, bottom.number, bottom.head));
    var row := Latest(rows, ForHead(QueueOnlyNoop, bottom.number, bottom.head));
    if row.Some? { AppendStep(rows, r, Exact(QueueOnlyRequeue, bottom.number, bottom.head, row.value.key)); }
  }

  /** The rows a requeue of the bottom leaves: none where it was not carried out, else the requeue, the
      follow-up of a prerequisite that needs one, and the use of a queue-only no-op. */
  function RequeueRows(bottom: PrSnapshot, key: string, prereq: Option<PrereqStatus>, noop: Option<string>,
                       now: int): seq<Row> {
    [Row(Requeue, bottom.number, bottom.head, key, now, NO_META)]
    + (if prereq.Some? && prereq.value.needsFollowup
       then [Row(PrereqRequeue, bottom.number, bottom.head, prereq.value.checkName, now, NO_META)] else [])
    + (if noop.Some? && noop.value != ""
       then [Row(QueueOnlyRequeue, bottom.number, bottom.head, noop.value, now, NO_META)]
       else [])
  }

  /** A requeue of a head that moved on does nothing, and one GitHub refuses ends the tick; else it
      leaves its row, and where it is the bottom's, its excuses are used. */
  lemma RequeueLeavesRows(rows: seq<Row>, a: Action, pr: PrSnapshot, facts: StackFacts, now: int, w: World)
    requires a.kind == RequeueAction
    ensures var left := if facts.bottom.Some? && facts.bottom.value.number == a.pr
                        then RequeueRows(pr, a.key, facts.prereq, facts.queueOnlyNoop, now)
                        else [Row(Requeue, pr.number, pr.head, a.key, now, NO_META)];
            Execute(rows, a, pr, facts, now, w) ==
            if !w.headCurrent then Effect(rows, false, false)
            else if !w.effectSucceeds then Effect(rows, false, true)
            else Effect(rows + left, false, false)
  {
    assert ExecutedRow(rows, a, pr, 0).Some?;
  }

  lemma RequeueRowUsesNothing(rows: seq<Row>, key: string, bottom: PrSnapshot, openPrs: set<int>, now: int)
    ensures var after := rows + [Plain(Requeue, bottom, key, now)];
            && QueueOnlyNoopCheck(after, Some(bottom)) == QueueOnlyNoopCheck(rows, Some(bottom))
            && PrereqOf(after, Some(bottom), openPrs) == PrereqOf(rows, Some(bottom), openPrs)
  {
    forall q: Query | q.kind != Requeue
      ensures Latest(rows + [Plain(Requeue, bottom, key, now)], q) == Latest(rows, q)
    {
      AppendStep(rows, Plain(Requeue, bottom, key, now), q);
    }
    NoopAfterRequeue(rows, rows + [Plain(Requeue, bottom, key, now)], bottom, openPrs);
  }

  lemma FollowUpUsesPrereq(rows: seq<Row>, bottom: PrSnapshot, openPrs: set<int>, now: int)
    ensures var prereq := PrereqOf(rows, Some(bottom), openPrs);
            var after := rows + if prereq.Some? && prereq.value.needsFollowup
                                then [Plain(PrereqRequeue, bottom, prereq.value.checkName, now)] else [];
            && QueueOnlyNoopCheck(after, Some(bottom)) == QueueOnlyNoopCheck(rows, Some(bottom))
            && PrereqOf(after, Some(bottom), openPrs)
               == if prereq.Some? then Some(prereq.value.(needsFollowup := false)) else None
  {
    hide PrereqOf, QueueOnlyNoopCheck, Latest;
    assert rows + [] == rows;
    if PrereqOf(rows, Some(bottom), openPrs).Some? {
      PrereqIsUsed(rows, bottom, openPrs, now);
      FollowUpHappensOnce(rows, bottom, openPrs, now);
    }
  }

  lemma ExcusesAreUsed(rows: seq<Row>, key: string, bottom: PrSnapshot, openPrs: set<int>, now: int)
    ensures var prereq, noop := PrereqOf(rows, Some(bottom), openPrs), QueueOnlyNoopCheck(rows, Some(bottom));
            var after := rows + RequeueRows(bottom, key, prereq, noop, now);
            && QueueOnlyNoopCheck(after, Some(bottom)) == None
            && PrereqOf(after, Some(bottom), openPrs)
               == if prereq.Some? then Some(prereq.value.(needsFollowup := false)) else None
  {
    NoopHasAName(rows, bottom);
    hide PrereqOf, QueueOnlyNoopCheck;
    var prereq, noop := PrereqOf(rows, Some(bottom), openPrs), QueueOnlyNoopCheck(rows, Some(bottom));
    var first := rows + [Plain(Requeue, bottom, key, now)];
    var second := first + if prereq.Some? && prereq.value.needsFollowup
                          then [Plain(PrereqRequeue, bottom, prereq.value.checkName, now)] else [];
    RequeueRowUsesNothing(rows, key, bottom, openPrs, now);
    FollowUpUsesPrereq(first, bottom, openPrs, now);
    var after := rows + RequeueRows(bottom, key, prereq, noop, now);
    if noop.Some? {
      assert after == second + [Plain(QueueOnlyRequeue, bottom, noop.value, now)];
      NoopIsUsed(second, bottom, openPrs, noop.value, now);
    } else {
      assert after == second;
    }
  }

  /** A requeue uses its excuses up: after it the prerequisite needs no follow-up and no queue-only
      no-op is left, so the same excuse never requeues a head twice. One that is not carried out
      uses nothing. */
  lemma RequeueUsesItsExcuses(rows: seq<Row>, a: Action, bottom: PrSnapshot, facts: StackFacts, openPrs: set<int>,
                              now: int, w: World)
    requires a.kind == RequeueAction && a.pr == bottom.number && facts.bottom == Some(bottom)
    requires facts.prereq == PrereqOf(rows, Some(bottom), openPrs)
    requires facts.queueOnlyNoop == QueueOnlyNoopCheck(rows, Some(bottom))
    ensures var after := Execute(rows, a, bottom, facts, now, w).rows;
            if w.headCurrent && w.effectSucceeds then
              && after == rows + RequeueRows(bottom, a.key, facts.prereq, facts.queueOnlyNoop, now)
              && QueueOnlyNoopCheck(after, Some(bottom)) == None
              && PrereqOf(after, Some(bottom), openPrs)
                 == if facts.prereq.Some? then Some(facts.prereq.value.(needsFollowup := false)) else None
            else after == rows
  {
    hide PrereqOf, QueueOnlyNoopCheck, RequeueRows, Execute;
    RequeueLeavesRows(rows, a, bottom, facts, now, w);
    ExcusesAreUsed(rows, a.key, bottom, openPrs, now);
  }

  lemma NoopHasAName(rows: seq<Row>, bottom: PrSnapshot)
    ensures QueueOnlyNoopCheck(rows, Some(bottom)) != Some("")
  {
  }
}
