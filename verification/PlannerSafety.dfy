/** What every plan promises: what a requeue or squash was checked for, which gate a filed
    repair passed, and how many filing claims a planning call keeps. */
module PlannerSafety {
  import opened Wrappers
  import opened RetryBudget
  import opened RetryGate
  import opened StackFactsModel
  import opened Planner
  import opened FilingClaims

  /** A check the planner may repair on this PR: failing in Mergify's event or blocking it. */
  ghost predicate KnownCheck(c: Context, pr: PrSnapshot, check: string) {
    || (DequeuedAtHead(pr) && check in pr.latest.value.failingChecks)
    || (exists i :: 0 <= i < |BlockersFor(c.facts, pr)| && BlockersFor(c.facts, pr)[i].kind == FailedCheck
          && BlockersFor(c.facts, pr)[i].key == check)
  }

  /** No conflict repair of the older kind is alive on the PR, unless the last rebase crashed. */
  ghost predicate LegacyIsOver(c: Context, pr: PrSnapshot) {
    c.gate(RebaseUnit(pr)) == Pass(true) || !RepairInFlight(c.rows, LegacyUnit(pr), c.now)
  }

  /** Nobody has to decide anything about the PR before it is repaired. */
  ghost predicate IsUndisputed(c: Context, pr: PrSnapshot) { !HasKind(BlockersFor(c.facts, pr), HumanDecision) }

  /** The gate a filed repair of this PR passed. */
  ghost predicate GatedFor(c: Context, pr: PrSnapshot, a: Action) {
    a.pr == pr.number &&
    match a.kind
    case RepairCheckAction => c.gate(CheckUnit(pr, a.key)).Pass? && KnownCheck(c, pr, a.key)
    case RebaseOntoMasterAction => c.gate(RebaseUnit(pr)).Pass? && a.key == RebaseKey(pr.number) && LegacyIsOver(c, pr)
    case CommentBlockedAction => a.key == "capped"
    case _ => false
  }

  /** The claim kept for a filed repair was granted last, and is one a failed dispatch gives back. */
  ghost predicate EndsWithReleasable(c: Context, pr: PrSnapshot, a: Action, log: seq<Call>) {
    log != [] && IsGrant(log[|log| - 1]) && log[|log| - 1].key in ReleaseKeys(c.filing, pr, a)
  }

  /** A planned step keeps one grant when it files a repair and none when it does not. */
  ghost predicate KeepsOneGrant(c: Context, before: seq<Call>, p: Planned) {
    if c.filing.claims then
      Grants(p.log) == Grants(before)
      + if p.action.Some?
          && (p.action.value.kind == RepairCheckAction || p.action.value.kind == RebaseOntoMasterAction) then 1 else 0
    else p.log == before
  }

  ghost predicate PrStep(c: Context, pr: PrSnapshot, before: seq<Call>, p: Planned) {
    && (p.action.Some? ==> GatedFor(c, pr, p.action.value) && ClaimFollows(c, pr, p))
    && KeepsOneGrant(c, before, p)
  }

  ghost predicate ClaimFollows(c: Context, pr: PrSnapshot, p: Planned)
    requires p.action.Some?
  {
    c.filing.claims && IsClaimed(p.action.value) ==> EndsWithReleasable(c, pr, p.action.value, p.log)
  }

  /** ... and what it files passed the gate of one of the PRs. */
  ghost predicate ClaimingStep(c: Context, prs: seq<PrSnapshot>, before: seq<Call>, p: Planned) {
    && (p.action.Some? ==>
        exists i :: 0 <= i < |prs| && GatedFor(c, prs[i], p.action.value) && ClaimFollows(c, prs[i], p)
          && IsUndisputed(c, prs[i]))
    && KeepsOneGrant(c, before, p)
  }

  lemma RebaseGrants(c: Context, pr: PrSnapshot, log: seq<Call>)
    ensures c.filing.claims ==>
              Grants(ClaimRebase(c, pr, log).log) == Grants(log) + if ClaimRebase(c, pr, log).granted then 1 else 0
    ensures !c.filing.claims ==> ClaimRebase(c, pr, log) == Claimed(true, log)
  {
    var key := ClaimKey(REBASE_FILING_KIND, pr.number, pr.head);
    var first := TryClaim(c.filing, key, log);
    ClaimGrants(c.filing, key, log);
    ReleaseGrants(key, first.log);
    ClaimGrants(c.filing, key, first.log + [ReleaseCall(key)]);
  }

  lemma RebaseStep(c: Context, pr: PrSnapshot, reason: Detail, log: seq<Call>)
    ensures PrStep(c, pr, log, PlanRebase(c, pr, reason, log))
  {
    hide Grants, StaleClaim, RepairInFlight, QueueStateSha;
    RebaseGrants(c, pr, log);
    RebaseReleasable(c, pr, log);
    hide ClaimRebase;
  }

  /** A granted rebase claim is the last call, for the key a failed dispatch releases. */
  lemma RebaseReleasable(c: Context, pr: PrSnapshot, log: seq<Call>)
    ensures var claim := ClaimRebase(c, pr, log);
            c.filing.claims && claim.granted ==>
              claim.log != []
                && claim.log[|claim.log| - 1] == ClaimCall(ClaimKey(REBASE_FILING_KIND, pr.number, pr.head), false)
  {
    hide StaleClaim;
  }

  lemma {:induction false} OfQueueKindKeeps(names: seq<string>, queueOnly: bool)
    ensures forall n :: n in OfQueueKind(names, queueOnly) ==> n in names
  {
    if names != [] { OfQueueKindKeeps(names[1..], queueOnly); }
  }

  lemma {:induction false} QueueCheckStep(c: Context, pr: PrSnapshot, names: seq<string>, i: nat, log: seq<Call>)
    requires i <= |names| && DequeuedAtHead(pr) && forall n :: n in names ==> n in pr.latest.value.failingChecks
    ensures PrStep(c, pr, log, QueueCheckRepair(c, pr, names, i, log))
    decreases |names| - i
  {
    if i < |names| {
      assert names[i] in names;
      QueueCheckStep(c, pr, names, i + 1, log);
      var key := ClaimKey(CheckFilingKind(c.filing, names[i]), pr.number, QueueStateSha(pr, pr.latest.value));
      ClaimGrants(c.filing, key, log);
      QueueCheckStep(c, pr, names, i + 1, TryClaim(c.filing, key, log).log);
    }
  }

  lemma FailedQueueStep(c: Context, pr: PrSnapshot, log: seq<Call>)
    ensures PrStep(c, pr, log, FailedQueueChecks(c, pr, log))
  {
    if DequeuedAtHead(pr) {
      OfQueueKindKeeps(pr.latest.value.failingChecks, false);
      OfQueueKindKeeps(pr.latest.value.failingChecks, true);
      QueueCheckStep(c, pr, RepairOrder(pr.latest.value.failingChecks), 0, log);
    }
  }

  lemma {:induction false} DirectStep(c: Context, pr: PrSnapshot, blockers: seq<Blocker>, i: nat, log: seq<Call>)
    requires i <= |blockers| && blockers == BlockersFor(c.facts, pr)
    ensures PrStep(c, pr, log, DirectRepair(c, pr, blockers, i, log))
    decreases |blockers| - i
  {
    if i < |blockers| {
      var b := blockers[i];
      DirectStep(c, pr, blockers, i + 1, log);
      if b.kind == Conflict {
        RebaseStep(c, pr, b.detail, log);
        DirectStep(c, pr, blockers, i + 1, PlanRebase(c, pr, b.detail, log).log);
      } else if b.kind == FailedCheck {
        var key := ClaimKey(CheckFilingKind(c.filing, b.key), pr.number, pr.head);
        ClaimGrants(c.filing, key, log);
        DirectStep(c, pr, blockers, i + 1, TryClaim(c.filing, key, log).log);
      }
    }
  }

  lemma {:induction false} QueueRepairsStep(c: Context, prs: seq<PrSnapshot>, i: nat, log: seq<Call>)
    requires i <= |prs|
    ensures ClaimingStep(c, prs, log, PlanQueueRepairs(c, prs, i, log))
    decreases |prs| - i
  {
    if i < |prs| {
      var pr, blockers := prs[i], BlockersFor(c.facts, prs[i]);
      QueueRepairsStep(c, prs, i + 1, log);
      var conflict := FirstOfKind(blockers, Conflict, 0);
      if conflict.Some? {
        RebaseStep(c, pr, conflict.value.detail, log);
        QueueRepairsStep(c, prs, i + 1, PlanRebase(c, pr, conflict.value.detail, log).log);
      } else {
        FailedQueueStep(c, pr, log);
        var p := FailedQueueChecks(c, pr, log);
        QueueRepairsStep(c, prs, i + 1, p.log);
        RebaseStep(c, pr, BehindMaster, p.log);
        QueueRepairsStep(c, prs, i + 1, PlanRebase(c, pr, BehindMaster, p.log).log);
      }
    }
  }

  lemma {:induction false} DirectRepairsStep(c: Context, prs: seq<PrSnapshot>, i: nat, log: seq<Call>)
    requires i <= |prs|
    ensures ClaimingStep(c, prs, log, PlanDirectRepairs(c, prs, i, log))
    decreases |prs| - i
  {
    if i < |prs| {
      var blockers := BlockersFor(c.facts, prs[i]);
      DirectRepairsStep(c, prs, i + 1, log);
      DirectStep(c, prs[i], blockers, 0, log);
      DirectRepairsStep(c, prs, i + 1, DirectRepair(c, prs[i], blockers, 0, log).log);
    }
  }

  // ----- the whole plan -----

  /** The PR and the unit `run_cycle` files a repair action on: the key's prefix decides. */
  function DispatchUnit(pr: PrSnapshot, a: Action): Unit {
    if a.kind == RebaseOntoMasterAction then RebaseUnit(pr)
    else if BOT_THREAD_PREFIX <= a.key then ThreadUnit(pr, a.key[|BOT_THREAD_PREFIX|..])
    else CheckUnit(pr, a.key)
  }

  predicate IsRepair(a: Action) { a.kind == RepairCheckAction || a.kind == RebaseOntoMasterAction }

  /** The repairs whose filing is claimed: a rebase, or a repair of a check. */
  predicate IsClaimed(a: Action) {
    a.kind == RebaseOntoMasterAction || (a.kind == RepairCheckAction && !(BOT_THREAD_PREFIX <= a.key))
  }

  ghost predicate GatedThreadAction(c: Context, pr: PrSnapshot, a: Action) {
    && a.pr == pr.number
    && (a.kind == RepairCheckAction || a.kind == ResolveBotThreads || a.kind == CommentBlockedAction)
    && (a.kind == RepairCheckAction ==> BOT_THREAD_PREFIX <= a.key && c.gate(DispatchUnit(pr, a)).Pass?)
  }

  lemma {:induction false} BotStep(c: Context, pr: PrSnapshot, blockers: seq<Blocker>, i: nat)
    requires i <= |blockers|
    ensures var a := BotThreadRepair(c, pr, blockers, i);
            a.Some? ==> GatedThreadAction(c, pr, a.value)
    decreases |blockers| - i
  {
    if i < |blockers| {
      BotStep(c, pr, blockers, i + 1);
      assert (BOT_THREAD_PREFIX + blockers[i].key)[|BOT_THREAD_PREFIX|..] == blockers[i].key;
    }
  }

  lemma {:induction false} BotThreadsStep(c: Context, prs: seq<PrSnapshot>, i: nat) returns (at: nat)
    requires i <= |prs|
    ensures var a := PlanBotThreadRepairs(c, prs, i);
            a.Some? ==> at < |prs| && GatedThreadAction(c, prs[at], a.value) && IsUndisputed(c, prs[at])
                        && a == BotThreadRepair(c, prs[at], BlockersFor(c.facts, prs[at]), 0)
    decreases |prs| - i
  {
    at := i;
    if i < |prs| {
      BotStep(c, prs[i], BlockersFor(c.facts, prs[i]), 0);
      if HasKind(BlockersFor(c.facts, prs[i]), HumanDecision)
        || BotThreadRepair(c, prs[i], BlockersFor(c.facts, prs[i]), 0).None? {
        at := BotThreadsStep(c, prs, i + 1);
      }
    }
  }

  lemma {:induction false} HardStep(c: Context, pr: PrSnapshot, blockers: seq<Blocker>, i: nat)
    requires i <= |blockers|
    ensures var h := HardBlocker(c, pr, blockers, i);
            h.Stop? && h.action.Some? ==> h.action.value.kind == CommentBlockedAction
    decreases |blockers| - i
  {
    if i < |blockers| { HardStep(c, pr, blockers, i + 1); }
  }

  lemma {:induction false} HardBlockersStep(c: Context, prs: seq<PrSnapshot>, i: nat)
    requires i <= |prs|
    ensures PlanHardBlockers(c, prs, i).Some? ==> PlanHardBlockers(c, prs, i).value.kind == CommentBlockedAction
    decreases |prs| - i
  {
    if i < |prs| {
      HardStep(c, prs[i], BlockersFor(c.facts, prs[i]), 0);
      HardBlockersStep(c, prs, i + 1);
    }
  }

  lemma {:induction false} WithNumberIn(prs: seq<PrSnapshot>, number: int, i: nat) returns (j: nat)
    requires i < |WithNumber(prs, number)|
    ensures j < |prs| && prs[j] == WithNumber(prs, number)[i]
  {
    if prs[0].number == number {
      if i == 0 {
        j := 0;
      } else {
        j := WithNumberIn(prs[1..], number, i - 1);
        j := j + 1;
      }
    } else {
      j := WithNumberIn(prs[1..], number, i);
      j := j + 1;
    }
  }

  /** A filed repair that passed the gate of the very unit it is filed on. */
  ghost predicate GatedDispatch(c: Context, pr: PrSnapshot, p: Planned)
    requires p.action.Some?
  {
    && pr.number == p.action.value.pr && c.gate(DispatchUnit(pr, p.action.value)).Pass? && ClaimFollows(c, pr, p)
    && IsUndisputed(c, pr) && (p.action.value.kind == RebaseOntoMasterAction ==> LegacyIsOver(c, pr))
  }

  /** A filed repair of a failing check whose name reads as a bot-thread key: it passed the gate
      of the check, and is filed on the thread its name spells. */
  ghost predicate IsMisread(c: Context, pr: PrSnapshot, a: Action) {
    && pr.number == a.pr && a.kind == RepairCheckAction && BOT_THREAD_PREFIX <= a.key
    && KnownCheck(c, pr, a.key) && c.gate(CheckUnit(pr, a.key)).Pass? && IsUndisputed(c, pr)
  }

  /** The planning so far kept `n` more granted claims; without a claim table it made no call. */
  ghost predicate KeptClaims(c: Context, before: seq<Call>, p: Planned, n: nat) {
    if c.filing.claims then Grants(p.log) == Grants(before) + n else p.log == before
  }

  ghost predicate FiledRight(c: Context, before: seq<Call>, p: Planned, i: int)
    requires p.action.Some?
  {
    0 <= i < |c.facts.prs| && GatedDispatch(c, c.facts.prs[i], p)
      && KeptClaims(c, before, p, if IsClaimed(p.action.value) then 1 else 0)
  }

  ghost predicate FiledMisread(c: Context, before: seq<Call>, p: Planned, i: int)
    requires p.action.Some?
  {
    0 <= i < |c.facts.prs| && IsMisread(c, c.facts.prs[i], p.action.value) && KeptClaims(c, before, p, 1)
  }

  ghost predicate PlanPromise(c: Context, before: seq<Call>, p: Planned) {
    if p.action.Some? && IsRepair(p.action.value)
    then (exists i :: FiledRight(c, before, p, i)) || (exists i :: FiledMisread(c, before, p, i))
    else KeptClaims(c, before, p, 0)
  }

  /** The actions only `plan_bottom_progress` returns that move or escalate a ready bottom. */
  predicate IsLanding(a: Action) {
    a.kind == RequeueAction || a.kind == SquashMergeAction || a.kind == EscalateRequeueStuck
  }

  predicate Lands(p: Planned) { p.action.Some? && IsLanding(p.action.value) }

  lemma CandidateIn(f: StackFacts, only: Option<int>, i: nat) returns (j: nat)
    requires i < |Candidates(f, only)|
    ensures j < |f.prs| && f.prs[j] == Candidates(f, only)[i]
  {
    j := i;
    if only.Some? { j := WithNumberIn(f.prs, only.value, i); }
  }

  lemma ClaimingStepPromise(c: Context, only: Option<int>, before: seq<Call>, p: Planned)
    requires ClaimingStep(c, Candidates(c.facts, only), before, p)
    ensures PlanPromise(c, before, p) && !Lands(p)
  {
    if p.action.Some? {
      var prs, a := Candidates(c.facts, only), p.action.value;
      var i :| 0 <= i < |prs| && GatedFor(c, prs[i], a) && ClaimFollows(c, prs[i], p) && IsUndisputed(c, prs[i]);
      var j := CandidateIn(c.facts, only, i);
      if IsRepair(a) {
        if a.kind == RepairCheckAction && BOT_THREAD_PREFIX <= a.key {
          assert FiledMisread(c, before, p, j);
        } else {
          assert FiledRight(c, before, p, j);
        }
      }
    }
  }

  lemma BotThreadsPromise(c: Context, only: Option<int>, before: seq<Call>, log: seq<Call>)
    requires PlanPromise(c, before, Planned(None, log))
    ensures var p := Planned(PlanBotThreadRepairs(c, Candidates(c.facts, only), 0), log);
            PlanPromise(c, before, p) && !Lands(p)
  {
    var prs := Candidates(c.facts, only);
    var i := BotThreadsStep(c, prs, 0);
    var a := PlanBotThreadRepairs(c, prs, 0);
    if a.Some? {
      var j := CandidateIn(c.facts, only, i);
      assert a.value.kind == RepairCheckAction ==> FiledRight(c, before, Planned(a, log), j);
    }
  }

  /** A promise behind planning that decided nothing yet. */
  lemma PromiseAfter(c: Context, before: seq<Call>, log: seq<Call>, p: Planned)
    requires PlanPromise(c, before, Planned(None, log)) && PlanPromise(c, log, p)
    ensures PlanPromise(c, before, p)
  {
    if p.action.Some? && IsRepair(p.action.value) {
      if i :| FiledRight(c, log, p, i) {
        assert FiledRight(c, before, p, i);
      } else {
        var k :| FiledMisread(c, log, p, k);
        assert FiledMisread(c, before, p, k);
      }
    }
  }

  lemma RepairsPromise(c: Context, only: Option<int>, log: seq<Call>)
    ensures var p := PlanRepairs(c, Candidates(c.facts, only), log);
            PlanPromise(c, log, p) && !Lands(p)
  {
    hide FiledRight, FiledMisread, Grants;
    var prs := Candidates(c.facts, only);
    var queue := PlanQueueRepairs(c, prs, 0, log);
    assert PlanPromise(c, log, queue) && !Lands(queue) by {
      QueueRepairsStep(c, prs, 0, log);
      ClaimingStepPromise(c, only, log, queue);
    }
    if queue.action.None? {
      var direct := PlanDirectRepairs(c, prs, 0, queue.log);
      assert PlanPromise(c, queue.log, direct) && !Lands(direct) by {
        DirectRepairsStep(c, prs, 0, queue.log);
        ClaimingStepPromise(c, only, queue.log, direct);
      }
      PromiseAfter(c, log, queue.log, direct);
      if direct.action.None? { BotThreadsPromise(c, only, log, direct.log); }
    }
  }

  lemma RestIsNoRepair(c: Context)
    ensures PlanRest(c).Some? ==> !IsRepair(PlanRest(c).value)
    ensures PlanBottomProgress(c).Some? ==> !IsRepair(PlanBottomProgress(c).value)
  {
  }

  lemma WholeStackPromise(c: Context, log: seq<Call>)
    ensures PlanPromise(c, log, PlanWholeStack(c, log))
  {
    assert Candidates(c.facts, None) == c.facts.prs;
    RepairsPromise(c, None, log);
    HardBlockersStep(c, c.facts.prs, 0);
    RestIsNoRepair(c);
    hide PlanRepairs, PlanRest, PlanHardBlockers, HasActiveRepair, FiledRight, FiledMisread, Grants;
  }

  lemma BottomHalfPromise(c: Context, bottom: PrSnapshot)
    ensures match PlanBottomHalf(c, bottom)
            case Decided(p) => PlanPromise(c, [], p)
            case GoOn(log) => PlanPromise(c, [], Planned(None, log))
  {
    RepairsPromise(c, Some(bottom.number), []);
    HardBlockersStep(c, Candidates(c.facts, Some(bottom.number)), 0);
    RestIsNoRepair(c);
    hide PlanRepairs, PlanBottomProgress, PlanHardBlockers, HasActiveRepair, FiledRight, FiledMisread, Grants;
  }

  /** One planning call, whatever the claim table answers. A repair it returns targets a PR without
      an open human decision; it passed the gate of the unit it will be filed on and keeps exactly
      one granted claim if it is claimed, none otherwise. The one exception is a failing check whose
      name reads as a bot-thread key: that one passed its own gate and keeps a claim no failed
      dispatch gives back. Anything else keeps no claim. */
  lemma PlanKeepsItsPromise(c: Context)
    ensures PlanPromise(c, [], PlanActions(c))
  {
    hide PlanRepairs, PlanBottomHalf, PlanWholeStack, FiledRight, FiledMisread, Grants;
    if c.facts.bottom.None? {
      WholeStackPromise(c, []);
    } else {
      BottomHalfPromise(c, c.facts.bottom.value);
      match PlanBottomHalf(c, c.facts.bottom.value)
      case Decided(_) =>
      case GoOn(log) =>
        WholeStackPromise(c, log);
        PromiseAfter(c, [], log, PlanWholeStack(c, log));
    }
  }
}
