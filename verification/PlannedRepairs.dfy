/** Which repair a planning call files: the first job that is due and whose claim is granted,
    over one list of everything that may need repair. */
module PlannedRepairs {
  import opened Wrappers
  import opened LedgerModel
  import opened RetryBudget
  import opened RetryGate
  import opened StackFactsModel
  import opened Planner
  import opened PlannerSafety
  import opened LandingSafety
  import opened PlannerRules

  /** Something to repair: the action that is due for it now, if any, and the claim that action
      needs, retaken once where a dead one is in the way. */
  datatype Job = Job(due: Option<Action>, claim: Option<ClaimKey>, retakes: bool)

  const IDLE := Job(None, None, false)

  /** Nothing while the gate holds, a comment at the cap, else the repair with its claim. */
  function JobOf(g: GateResult, pr: PrSnapshot, kind: ActionKind, key: string, reason: Detail, claim: ClaimKey,
                 retakes: bool): Job {
    match g
    case Hold => IDLE
    case Cap => Job(Some(Action(CommentBlockedAction, pr.number, "capped", CapReached(reason, pr.head))), None, false)
    case Pass(_) => Job(Some(Action(kind, pr.number, key, reason)), Some(claim), retakes)
  }

  // ----- the jobs of a PR -----

  /** A failing check, claimed for this head, or for this speculative merge of it. */
  function CheckJob(c: Context, pr: PrSnapshot, name: string, reason: Detail, sha: string): Job {
    JobOf(c.gate(Unit(RepairCheck, pr.number, pr.head, name)), pr, RepairCheckAction, name, reason,
          ClaimKey("admin-requeue:check:" + c.filing.slug(name), pr.number, sha), false)
  }

  /** The unit of a conflict repair of the older kind. */
  function OlderUnit(pr: PrSnapshot): Unit { Unit(ConflictRepair, pr.number, pr.head, LegacyConflictKey(pr.number)) }

  /** A rebase waits for an older conflict repair in flight, unless the last rebase crashed. */
  function RebaseJob(c: Context, pr: PrSnapshot, reason: Detail): Job {
    var key := "rebase-onto-master:" + Text.Decimal(pr.number);
    var g := c.gate(Unit(RebaseOntoMaster, pr.number, pr.head, key));
    if g == Pass(false) && RepairInFlight(c.rows, OlderUnit(pr), c.now) then IDLE
    else JobOf(g, pr, RebaseOntoMasterAction, key, reason,
               ClaimKey("admin-requeue:rebase-onto-master", pr.number, pr.head), StaleClaim(c, pr))
  }

  /** A conflict is rebased away, unless an older conflict repair or its infra repair is alive. */
  function ConflictJob(c: Context, pr: PrSnapshot, b: Blocker): Job {
    if RepairInFlight(c.rows, OlderUnit(pr), c.now) || InfraRepairOwnsUnit(c.rows, OlderUnit(pr), c.now, c.oracles)
    then IDLE else RebaseJob(c, pr, b.detail)
  }

  /** A failing queue check, unless it is suppressed or GitHub reports it skipped, cancelled or neutral. */
  function QueueCheckJob(c: Context, pr: PrSnapshot, e: QueueEvent, name: string): Job {
    if name in SuppressedFor(c.facts.suppressed, pr)
       || (name in pr.checks && pr.checks[name].state in {SkippedCheck, CancelledCheck, NeutralCheck})
    then IDLE
    else CheckJob(c, pr, name, QueueCheckFailed(name),
                  pr.head + ":" + if e.commentId == "" then "no-comment" else e.commentId)
  }

  /** The failing queue checks of one sort, in the event's order. */
  function QueueCheckJobs(c: Context, pr: PrSnapshot, e: QueueEvent, names: seq<string>, queueOnly: bool): seq<Job> {
    seq(|names|, k requires 0 <= k < |names| =>
      if IsQueueOnly(names[k]) == queueOnly then QueueCheckJob(c, pr, e, names[k]) else IDLE)
  }

  ghost predicate IsFirstConflict(blockers: seq<Blocker>, j: int) {
    0 <= j < |blockers| && blockers[j].kind == Conflict && forall k :: 0 <= k < j ==> blockers[k].kind != Conflict
  }

  /** A dequeue of this head that names no check, on a stale base, with nothing else to wait for. */
  ghost predicate NeedsOnlyRebase(c: Context, pr: PrSnapshot, e: QueueEvent) {
    && e.failingChecks == []
    && (forall j :: 0 <= j < |BlockersFor(c.facts, pr)| ==>
          BlockersFor(c.facts, pr)[j].kind !in {FailedCheck, PendingCheckBlocker, BotThread, OutdatedBotThread})
    && (c.facts.prereq.Some? ==> !c.facts.prereq.value.needsFollowup)
    && pr.number in c.facts.staleBase && c.facts.staleBase[pr.number]
  }

  /** What Mergify's queue asks to repair on a PR: a conflict before any check, then every failing
      check, the queue-only ones last, or a rebase where none is named. */
  ghost function QueueJobs(c: Context, pr: PrSnapshot): seq<Job> {
    var blockers := BlockersFor(c.facts, pr);
    if c.facts.upperNeedsAcceptance && c.facts.bottom.Some? && c.facts.bottom.value.number == pr.number then []
    else if j :| IsFirstConflict(blockers, j) then [ConflictJob(c, pr, blockers[j])]
    else if pr.latest.None? || pr.latest.value.state != DequeuedState || pr.latest.value.headSha != pr.head then []
    else
      var e := pr.latest.value;
      QueueCheckJobs(c, pr, e, e.failingChecks, false) + QueueCheckJobs(c, pr, e, e.failingChecks, true)
      + if NeedsOnlyRebase(c, pr, e) then [RebaseJob(c, pr, BehindMaster)] else []
  }

  /** What a blocker asks to repair, whatever the queue says. */
  function DirectJob(c: Context, pr: PrSnapshot, b: Blocker): Job {
    if b.kind == Conflict then ConflictJob(c, pr, b)
    else if b.kind == FailedCheck then CheckJob(c, pr, b.key, b.detail, pr.head)
    else IDLE
  }

  /** A bots' thread is resolved when it is outdated or was repaired on another head, else repaired;
      its repair needs no claim. */
  function ThreadJob(c: Context, pr: PrSnapshot, b: Blocker): Job {
    var resolve := Job(Some(Action(ResolveBotThreads, pr.number, b.key, b.detail)), None, false);
    if b.kind == OutdatedBotThread then resolve
    else if b.kind != BotThread then IDLE
    else if DifferentHead(c.rows, Start(RepairBotThread), pr.number, pr.head, b.key) then resolve
    else
      match c.gate(Unit(RepairBotThread, pr.number, pr.head, b.key))
      case Hold => IDLE
      case Cap =>
        Job(Some(Action(CommentBlockedAction, pr.number, "capped", CapReached(b.detail, pr.head))), None, false)
      case Pass(_) => Job(Some(Action(RepairCheckAction, pr.number, "bot_review_thread:" + b.key, b.detail)), None,
                          false)
  }

  function DirectJobs(c: Context, pr: PrSnapshot): seq<Job> {
    var blockers := BlockersFor(c.facts, pr);
    seq(|blockers|, j requires 0 <= j < |blockers| => DirectJob(c, pr, blockers[j]))
  }

  function ThreadJobs(c: Context, pr: PrSnapshot): seq<Job> {
    var blockers := BlockersFor(c.facts, pr);
    seq(|blockers|, j requires 0 <= j < |blockers| => ThreadJob(c, pr, blockers[j]))
  }

  datatype RepairPass = QueuePass | DirectPass | ThreadPass

  /** The jobs of one pass, PR by PR; a PR a human has to decide about has none. */
  ghost function PassJobs(c: Context, prs: seq<PrSnapshot>, pass: RepairPass): seq<Job> {
    if prs == [] then []
    else
      (if exists j :: 0 <= j < |BlockersFor(c.facts, prs[0])| && BlockersFor(c.facts, prs[0])[j].kind == HumanDecision
       then []
       else match pass
            case QueuePass => QueueJobs(c, prs[0])
            case DirectPass => DirectJobs(c, prs[0])
            case ThreadPass => ThreadJobs(c, prs[0]))
      + PassJobs(c, prs[1..], pass)
  }

  /** Everything that may need repair on these PRs, in the order it is tried. */
  ghost function RepairJobs(c: Context, prs: seq<PrSnapshot>): seq<Job> {
    PassJobs(c, prs, QueuePass) + PassJobs(c, prs, DirectPass) + PassJobs(c, prs, ThreadPass)
  }

  /** Some rebase of the PR, or older conflict repair of it, was settled, on whatever head. */
  ghost predicate WasSettled(rows: seq<Row>, pr: PrSnapshot) {
    exists k :: 0 <= k < |rows| && rows[k].pr == pr.number
      && (|| (rows[k].kind == Settled(RebaseOntoMaster) && rows[k].key == RebaseKey(pr.number))
          || (rows[k].kind == Settled(ConflictRepair) && rows[k].key == LegacyConflictKey(pr.number)))
  }

  lemma SettledOnSomeHead(rows: seq<Row>, pr: PrSnapshot)
    ensures WasSettled(rows, pr) <==>
            || Latest(rows, ByUnit(Settled(RebaseOntoMaster), pr.number, RebaseKey(pr.number))).Some?
            || Latest(rows, ByUnit(Settled(ConflictRepair), pr.number, LegacyConflictKey(pr.number))).Some?
  {
    LatestByFields(rows, Settled(RebaseOntoMaster), pr.number, pr.head, RebaseKey(pr.number));
    LatestByFields(rows, Settled(ConflictRepair), pr.number, pr.head, LegacyConflictKey(pr.number));
    hide Latest, RebaseKey, LegacyConflictKey;
  }

  /** A claim in the way is dead, and retaken, exactly where claims can be given back, a rebase of the PR
      was settled, and neither a rebase of this head nor an older conflict repair is in flight. */
  lemma RetakesExactlyWhen(c: Context, pr: PrSnapshot)
    ensures StaleClaim(c, pr) <==>
            && c.filing.releases && WasSettled(c.rows, pr)
            && !RepairInFlight(c.rows, Unit(RebaseOntoMaster, pr.number, pr.head, RebaseKey(pr.number)), c.now)
            && !RepairInFlight(c.rows, OlderUnit(pr), c.now)
  {
    SettledOnSomeHead(c.rows, pr);
    hide RepairInFlight, WasSettled;
    if LatestSettle(c.rows, RebaseUnit(pr)).Some? { SettleOfUnit(c.rows, RebaseUnit(pr)); }
    if LatestSettle(c.rows, LegacyUnit(pr)).Some? { SettleOfUnit(c.rows, LegacyUnit(pr)); }
  }

  // ----- taking the first job -----

  /** Ask for the claim; give a dead one back and ask again. */
  function Taken(f: Filing, key: ClaimKey, retakes: bool, log: seq<Call>): Claimed {
    var asked := TryClaim(f, key, log);
    if asked.granted || !retakes then asked else TryClaim(f, key, asked.log + [ReleaseCall(key)])
  }

  /** The first job that is due and, where it needs a claim, is granted it. */
  function FirstGranted(f: Filing, jobs: seq<Job>, log: seq<Call>): Planned {
    if jobs == [] then Planned(None, log)
    else if jobs[0].due.None? then FirstGranted(f, jobs[1..], log)
    else if jobs[0].claim.None? then Planned(jobs[0].due, log)
    else
      var claim := Taken(f, jobs[0].claim.value, jobs[0].retakes, log);
      if claim.granted then Planned(jobs[0].due, claim.log) else FirstGranted(f, jobs[1..], claim.log)
  }

  lemma {:induction false} FirstGrantedOfBoth(f: Filing, a: seq<Job>, b: seq<Job>, log: seq<Call>)
    ensures FirstGranted(f, a + b, log) ==
            var p := FirstGranted(f, a, log); if p.action.Some? then p else FirstGranted(f, b, p.log)
  {
    if a == [] {
      assert a + b == b;
    } else {
      assert (a + b)[0] == a[0] && (a + b)[1..] == a[1..] + b;
      FirstGrantedOfBoth(f, a[1..], b, log);
      if a[0].claim.Some? {
        FirstGrantedOfBoth(f, a[1..], b, Taken(f, a[0].claim.value, a[0].retakes, log).log);
      }
    }
  }

  lemma OneJob(f: Filing, job: Job, log: seq<Call>)
    ensures FirstGranted(f, [job], log) ==
            if job.due.None? then Planned(None, log)
            else if job.claim.None? then Planned(job.due, log)
            else
              var claim := Taken(f, job.claim.value, job.retakes, log);
              Planned(if claim.granted then job.due else None, claim.log)
  {
    assert [job][1..] == [];
    assert forall l :: FirstGranted(f, [], l) == Planned(None, l);
  }

  // ----- the planner's passes -----

  lemma RebaseIsItsJob(c: Context, pr: PrSnapshot, reason: Detail, log: seq<Call>)
    ensures PlanRebase(c, pr, reason, log) == FirstGranted(c.filing, [RebaseJob(c, pr, reason)], log)
  {
    hide StaleClaim, RepairInFlight, FirstGranted;
    OneJob(c.filing, RebaseJob(c, pr, reason), log);
  }

  lemma {:induction false} QueueChecksAreJobs(c: Context, pr: PrSnapshot, names: seq<string>, i: nat, jobs: seq<Job>,
                                              log: seq<Call>)
    requires i <= |names| && pr.latest.Some? && |jobs| == |names| - i
    requires forall k :: i <= k < |names| ==> jobs[k - i] == QueueCheckJob(c, pr, pr.latest.value, names[k])
    ensures QueueCheckRepair(c, pr, names, i, log) == FirstGranted(c.filing, jobs, log)
    decreases |names| - i
  {
    if i < |names| {
      var job := jobs[0];
      assert job == QueueCheckJob(c, pr, pr.latest.value, names[i]);
      QueueChecksAreJobs(c, pr, names, i + 1, jobs[1..], log);
      if job.claim.Some? {
        QueueChecksAreJobs(c, pr, names, i + 1, jobs[1..], Taken(c.filing, job.claim.value, false, log).log);
      }
    }
  }

  function ChecksInOrder(c: Context, pr: PrSnapshot, e: QueueEvent, names: seq<string>): seq<Job> {
    seq(|names|, k requires 0 <= k < |names| => QueueCheckJob(c, pr, e, names[k]))
  }

  /** Picking out the checks of one sort first finds the same job. */
  lemma {:induction false} PickedIsMixed(c: Context, pr: PrSnapshot, e: QueueEvent, names: seq<string>, queueOnly: bool,
                                         log: seq<Call>)
    ensures FirstGranted(c.filing, ChecksInOrder(c, pr, e, OfQueueKind(names, queueOnly)), log)
            == FirstGranted(c.filing, QueueCheckJobs(c, pr, e, names, queueOnly), log)
  {
    hide QueueCheckJob;
    var jobs := ChecksInOrder(c, pr, e, OfQueueKind(names, queueOnly));
    var mixed := QueueCheckJobs(c, pr, e, names, queueOnly);
    if names != [] {
      var rest := ChecksInOrder(c, pr, e, OfQueueKind(names[1..], queueOnly));
      assert mixed == [mixed[0]] + mixed[1..] && mixed[1..] == QueueCheckJobs(c, pr, e, names[1..], queueOnly);
      PickedIsMixed(c, pr, e, names[1..], queueOnly, log);
      if IsQueueOnly(names[0]) == queueOnly {
        assert jobs == [mixed[0]] + rest;
        FirstGrantedOfBoth(c.filing, [mixed[0]], rest, log);
        FirstGrantedOfBoth(c.filing, [mixed[0]], mixed[1..], log);
        PickedIsMixed(c, pr, e, names[1..], queueOnly, FirstGranted(c.filing, [mixed[0]], log).log);
      } else {
        assert jobs == rest;
      }
    }
  }

  lemma FailedQueueChecksAreJobs(c: Context, pr: PrSnapshot, log: seq<Call>)
    requires DequeuedAtHead(pr)
    ensures var e := pr.latest.value;
            FailedQueueChecks(c, pr, log)
            == FirstGranted(c.filing, QueueCheckJobs(c, pr, e, e.failingChecks, false)
                                      + QueueCheckJobs(c, pr, e, e.failingChecks, true), log)
  {
    var e := pr.latest.value;
    var first, last := OfQueueKind(e.failingChecks, false), OfQueueKind(e.failingChecks, true);
    QueueChecksAreJobs(c, pr, first + last, 0, ChecksInOrder(c, pr, e, first + last), log);
    assert ChecksInOrder(c, pr, e, first + last) == ChecksInOrder(c, pr, e, first) + ChecksInOrder(c, pr, e, last);
    hide QueueCheckRepair, QueueCheckJob, FirstGranted, QueueCheckJobs;
    var a, b := QueueCheckJobs(c, pr, e, e.failingChecks, false), QueueCheckJobs(c, pr, e, e.failingChecks, true);
    FirstGrantedOfBoth(c.filing, ChecksInOrder(c, pr, e, first), ChecksInOrder(c, pr, e, last), log);
    FirstGrantedOfBoth(c.filing, a, b, log);
    PickedIsMixed(c, pr, e, e.failingChecks, false, log);
    PickedIsMixed(c, pr, e, e.failingChecks, true, FirstGranted(c.filing, a, log).log);
  }

  lemma {:induction false} FirstConflict(blockers: seq<Blocker>, i: nat)
    requires i <= |blockers| && forall k :: 0 <= k < i ==> blockers[k].kind != Conflict
    ensures FirstOfKind(blockers, Conflict, i).None? ==> forall j :: !IsFirstConflict(blockers, j)
    ensures FirstOfKind(blockers, Conflict, i).Some? ==>
              exists j :: IsFirstConflict(blockers, j) && FirstOfKind(blockers, Conflict, i) == Some(blockers[j])
    decreases |blockers| - i
  {
    if i < |blockers| {
      if blockers[i].kind == Conflict { assert IsFirstConflict(blockers, i); } else { FirstConflict(blockers, i + 1); }
    }
  }

  /** What the queue pass plans for one PR no human has to decide about. */
  function QueueStep(c: Context, pr: PrSnapshot, log: seq<Call>): Planned {
    var conflict := FirstOfKind(BlockersFor(c.facts, pr), Conflict, 0);
    if c.facts.upperNeedsAcceptance && c.facts.bottom.Some? && pr.number == c.facts.bottom.value.number
    then Planned(None, log)
    else if conflict.Some? then
      if LegacyConflictBusy(c, pr) then Planned(None, log) else PlanRebase(c, pr, conflict.value.detail, log)
    else
      var p := FailedQueueChecks(c, pr, log);
      if p.action.Some? || !GreenDequeueBehindMaster(c, pr) then p else PlanRebase(c, pr, BehindMaster, p.log)
  }

  lemma ConflictIsItsJob(c: Context, pr: PrSnapshot, b: Blocker, log: seq<Call>)
    ensures FirstGranted(c.filing, [ConflictJob(c, pr, b)], log) ==
            if LegacyConflictBusy(c, pr) then Planned(None, log) else PlanRebase(c, pr, b.detail, log)
  {
    hide RebaseJob, PlanRebase, RepairInFlight, InfraRepairOwnsUnit, FirstGranted;
    RebaseIsItsJob(c, pr, b.detail, log);
    OneJob(c.filing, IDLE, log);
  }

  lemma GreenDequeueNeedsOnlyRebase(c: Context, pr: PrSnapshot)
    requires DequeuedAtHead(pr)
    ensures GreenDequeueBehindMaster(c, pr) <==> NeedsOnlyRebase(c, pr, pr.latest.value)
  {
  }

  lemma NotDequeued(c: Context, pr: PrSnapshot, log: seq<Call>)
    requires !DequeuedAtHead(pr)
    ensures FailedQueueChecks(c, pr, log) == Planned(None, log) && !GreenDequeueBehindMaster(c, pr)
  {
  }

  lemma QueueStepIsItsJobs(c: Context, pr: PrSnapshot, log: seq<Call>)
    ensures QueueStep(c, pr, log) == FirstGranted(c.filing, QueueJobs(c, pr), log)
  {
    var blockers := BlockersFor(c.facts, pr);
    FirstConflict(blockers, 0);
    assert FirstGranted(c.filing, [], log) == Planned(None, log);
    hide FirstGranted, QueueCheckJobs, FailedQueueChecks, PlanRebase, RebaseJob, ConflictJob, LegacyConflictBusy,
         BlockersFor, GreenDequeueBehindMaster, NeedsOnlyRebase, FirstOfKind;
    if j :| IsFirstConflict(blockers, j) {
      ConflictIsItsJob(c, pr, blockers[j], log);
    } else if DequeuedAtHead(pr) {
      var e := pr.latest.value;
      var checks := QueueCheckJobs(c, pr, e, e.failingChecks, false) + QueueCheckJobs(c, pr, e, e.failingChecks, true);
      FailedQueueChecksAreJobs(c, pr, log);
      GreenDequeueNeedsOnlyRebase(c, pr);
      var p := FailedQueueChecks(c, pr, log);
      FirstGrantedOfBoth(c.filing, checks, [RebaseJob(c, pr, BehindMaster)], log);
      RebaseIsItsJob(c, pr, BehindMaster, p.log);
      assert checks + [] == checks;
    } else {
      NotDequeued(c, pr, log);
    }
  }

  lemma {:induction false} DirectIsItsJobs(c: Context, pr: PrSnapshot, blockers: seq<Blocker>, i: nat, jobs: seq<Job>,
                                           log: seq<Call>)
    requires i <= |blockers| && |jobs| == |blockers| - i
    requires forall k :: i <= k < |blockers| ==> jobs[k - i] == DirectJob(c, pr, blockers[k])
    ensures DirectRepair(c, pr, blockers, i, log) == FirstGranted(c.filing, jobs, log)
    decreases |blockers| - i
  {
    hide RebaseJob, PlanRebase, RepairInFlight, InfraRepairOwnsUnit, ConflictJob;
    if i < |blockers| {
      var b, job := blockers[i], jobs[0];
      assert job == DirectJob(c, pr, b);
      assert jobs == [job] + jobs[1..];
      FirstGrantedOfBoth(c.filing, [job], jobs[1..], log);
      OneJob(c.filing, job, log);
      var p := FirstGranted(c.filing, [job], log);
      hide FirstGranted;
      DirectIsItsJobs(c, pr, blockers, i + 1, jobs[1..], p.log);
      if b.kind == Conflict { ConflictIsItsJob(c, pr, b, log); }
    }
  }

  lemma {:induction false} ThreadsAreJobs(c: Context, pr: PrSnapshot, blockers: seq<Blocker>, i: nat, jobs: seq<Job>,
                                          log: seq<Call>)
    requires i <= |blockers| && |jobs| == |blockers| - i
    requires forall k :: i <= k < |blockers| ==> jobs[k - i] == ThreadJob(c, pr, blockers[k])
    ensures Planned(BotThreadRepair(c, pr, blockers, i), log) == FirstGranted(c.filing, jobs, log)
    decreases |blockers| - i
  {
    hide DifferentHead;
    if i < |blockers| {
      assert jobs[0] == ThreadJob(c, pr, blockers[i]);
      ThreadsAreJobs(c, pr, blockers, i + 1, jobs[1..], log);
    }
  }

  lemma {:induction false} QueuePassIsItsJobs(c: Context, prs: seq<PrSnapshot>, i: nat, log: seq<Call>)
    requires i <= |prs|
    ensures PlanQueueRepairs(c, prs, i, log) == FirstGranted(c.filing, PassJobs(c, prs[i..], QueuePass), log)
    decreases |prs| - i
  {
    if i < |prs| {
      var pr, rest := prs[i], PassJobs(c, prs[i + 1..], QueuePass);
      assert prs[i..][0] == pr && prs[i..][1..] == prs[i + 1..];
      QueueStepIsItsJobs(c, pr, log);
      hide FirstGranted, QueueJobs, FailedQueueChecks, PlanRebase, LegacyConflictBusy, BlockersFor,
           GreenDequeueBehindMaster, FirstOfKind;
      FirstGrantedOfBoth(c.filing, QueueJobs(c, pr), rest, log);
      QueuePassIsItsJobs(c, prs, i + 1, log);
      QueuePassIsItsJobs(c, prs, i + 1, QueueStep(c, pr, log).log);
      assert [] + rest == rest;
    }
  }

  lemma {:induction false} DirectPassIsItsJobs(c: Context, prs: seq<PrSnapshot>, i: nat, log: seq<Call>)
    requires i <= |prs|
    ensures PlanDirectRepairs(c, prs, i, log) == FirstGranted(c.filing, PassJobs(c, prs[i..], DirectPass), log)
    decreases |prs| - i
  {
    if i < |prs| {
      var pr, rest := prs[i], PassJobs(c, prs[i + 1..], DirectPass);
      assert prs[i..][0] == pr && prs[i..][1..] == prs[i + 1..];
      DirectIsItsJobs(c, pr, BlockersFor(c.facts, pr), 0, DirectJobs(c, pr), log);
      hide FirstGranted, DirectJobs, DirectRepair, BlockersFor;
      FirstGrantedOfBoth(c.filing, DirectJobs(c, pr), rest, log);
      DirectPassIsItsJobs(c, prs, i + 1, log);
      DirectPassIsItsJobs(c, prs, i + 1, DirectRepair(c, pr, BlockersFor(c.facts, pr), 0, log).log);
      assert [] + rest == rest;
    }
  }

  lemma {:induction false} ThreadPassIsItsJobs(c: Context, prs: seq<PrSnapshot>, i: nat, log: seq<Call>)
    requires i <= |prs|
    ensures Planned(PlanBotThreadRepairs(c, prs, i), log)
            == FirstGranted(c.filing, PassJobs(c, prs[i..], ThreadPass), log)
    decreases |prs| - i
  {
    if i < |prs| {
      var pr, rest := prs[i], PassJobs(c, prs[i + 1..], ThreadPass);
      assert prs[i..][0] == pr && prs[i..][1..] == prs[i + 1..];
      ThreadsAreJobs(c, pr, BlockersFor(c.facts, pr), 0, ThreadJobs(c, pr), log);
      hide FirstGranted, ThreadJobs, BotThreadRepair, BlockersFor;
      FirstGrantedOfBoth(c.filing, ThreadJobs(c, pr), rest, log);
      ThreadPassIsItsJobs(c, prs, i + 1, log);
      assert [] + rest == rest;
    }
  }

  /** The three repair passes, whatever the claim table answers, take the first due job of the one
      list whose claim is granted, and make exactly the claim calls that takes. */
  lemma RepairsTakeFirstGrantedJob(c: Context, prs: seq<PrSnapshot>, log: seq<Call>)
    ensures PlanRepairs(c, prs, log) == FirstGranted(c.filing, RepairJobs(c, prs), log)
  {
    assert prs[0..] == prs;
    var queue, direct := PassJobs(c, prs, QueuePass), PassJobs(c, prs, DirectPass);
    hide FirstGranted, PassJobs;
    QueuePassIsItsJobs(c, prs, 0, log);
    var first := FirstGranted(c.filing, queue, log);
    DirectPassIsItsJobs(c, prs, 0, first.log);
    ThreadPassIsItsJobs(c, prs, 0, FirstGranted(c.filing, direct, first.log).log);
    FirstGrantedOfBoth(c.filing, queue + direct, PassJobs(c, prs, ThreadPass), log);
    FirstGrantedOfBoth(c.filing, queue, direct, log);
  }

  // ----- the first due repair -----

  ghost predicate NothingDue(jobs: seq<Job>) { forall k :: 0 <= k < |jobs| ==> jobs[k].due.None? }

  ghost predicate IsFirstDue(jobs: seq<Job>, k: int) {
    0 <= k < |jobs| && jobs[k].due.Some? && forall m :: 0 <= m < k ==> jobs[m].due.None?
  }

  ghost predicate FirstDue(jobs: seq<Job>, a: Action) { exists k :: IsFirstDue(jobs, k) && jobs[k].due == Some(a) }

  /** There is no claim table, or it grants whatever it is asked for. */
  ghost predicate GrantsAll(f: Filing) { f.claims ==> forall k :: !f.denied(k) }

  lemma {:induction false} GrantedIsFirstDue(f: Filing, jobs: seq<Job>, log: seq<Call>, a: Action)
    requires GrantsAll(f)
    ensures FirstGranted(f, jobs, log).action.None? <==> NothingDue(jobs)
    ensures FirstGranted(f, jobs, log).action == Some(a) <==> FirstDue(jobs, a)
  {
    if jobs != [] {
      GrantedIsFirstDue(f, jobs[1..], log, a);
      assert forall k :: 0 <= k < |jobs| - 1 ==> jobs[k + 1] == jobs[1..][k];
      if jobs[0].due.Some? {
        assert IsFirstDue(jobs, 0);
      } else {
        if FirstDue(jobs[1..], a) {
          var k :| IsFirstDue(jobs[1..], k) && jobs[1..][k].due == Some(a);
          assert IsFirstDue(jobs, k + 1);
        }
        if FirstDue(jobs, a) {
          var k :| IsFirstDue(jobs, k) && jobs[k].due == Some(a);
          assert IsFirstDue(jobs[1..], k - 1);
        }
      }
    }
  }

  /** A due job was passed over because the claim it needs was denied. */
  ghost predicate Denied(job: Job, before: seq<Call>, after: seq<Call>) {
    job.claim.Some? && exists x :: |before| <= x < |after| && after[x] == ClaimCall(job.claim.value, true)
  }

  /** Whatever the claim table answers, a due repair is passed over only where its own claim was
      denied: a denial stops no other repair. */
  lemma {:induction false} OnlyDeniedArePassedOver(f: Filing, jobs: seq<Job>, log: seq<Call>) returns (n: nat)
    ensures var p := FirstGranted(f, jobs, log);
            && |log| <= |p.log| && p.log[..|log|] == log
            && n <= |jobs| && (p.action.None? <==> n == |jobs|) && (n < |jobs| ==> jobs[n].due == p.action)
            && (forall k :: 0 <= k < n && jobs[k].due.Some? ==> Denied(jobs[k], log, p.log))
  {
    n := 0;
    if jobs != [] {
      var job, p := jobs[0], FirstGranted(f, jobs, log);
      var asked := if job.due.Some? && job.claim.Some? then Taken(f, job.claim.value, job.retakes, log).log else log;
      if job.due.None? || (job.claim.Some? && !Taken(f, job.claim.value, job.retakes, log).granted) {
        n := OnlyDeniedArePassedOver(f, jobs[1..], asked);
        n := n + 1;
        if job.due.Some? { assert p.log[..|asked|] == asked && asked[|log|] == ClaimCall(job.claim.value, true); }
        forall k | 0 <= k < n && jobs[k].due.Some?
          ensures Denied(jobs[k], log, p.log)
        {
          if k > 0 {
            assert jobs[k] == jobs[1..][k - 1];
            var x :| |asked| <= x < |p.log| && p.log[x] == ClaimCall(jobs[k].claim.value, true);
          } else {
            assert p.log[|log|] == asked[|log|];
          }
        }
      }
    }
  }

  // ----- the whole plan -----

  ghost predicate OnlyHolds(blockers: seq<Blocker>) {
    forall j :: 0 <= j < |blockers| ==> blockers[j].kind == MergeHoldBlocker
  }

  /** Nothing but holds blocks the bottom, no repair of the stack is alive, and the bottom has
      nothing to do: only then does the plan look at the rest of the stack. */
  ghost predicate LooksBeyond(c: Context, bottom: PrSnapshot) {
    OnlyHolds(BlockersFor(c.facts, bottom)) && !HasActiveRepair(c) && PlanBottomProgress(c).None?
  }

  lemma {:induction false} HoldsStopNothing(c: Context, pr: PrSnapshot, blockers: seq<Blocker>, i: nat)
    requires i <= |blockers| && OnlyHolds(blockers)
    ensures HardBlocker(c, pr, blockers, i).Continue?
    decreases |blockers| - i
  {
    if i < |blockers| { HoldsStopNothing(c, pr, blockers, i + 1); }
  }

  lemma OnlyHoldsDoNotStop(c: Context, s: StackInput)
    requires BuiltFrom(c, s) && c.facts.bottom.Some? && OnlyHolds(BlockersFor(c.facts, c.facts.bottom.value))
    ensures !BottomHasPendingOrHuman(c.facts) && !BottomHasRepairable(c.facts)
  {
    hide BuildFacts, BlockersFor, BuiltFrom;
    var bottom := c.facts.bottom.value;
    var b := BottomIsInStack(c, s);
    forall k | 0 <= k < |c.facts.allBlockers| && c.facts.allBlockers[k].pr == bottom.number
      ensures c.facts.allBlockers[k].kind == MergeHoldBlocker
    {
      var i, j := ListedBlocker(c, s, k);
      NumbersAreDistinct(c, s, i, b);
    }
  }

  lemma NumbersAreDistinct(c: Context, s: StackInput, i: nat, j: nat)
    requires BuiltFrom(c, s) && i < |s.prs| && j < |s.prs| && s.prs[i].number == s.prs[j].number
    ensures i == j
  {
    hide BuildFacts;
  }

  lemma ClearedIsOnlyHolds(c: Context, s: StackInput)
    requires BuiltFrom(c, s) && c.facts.bottom.Some?
    requires !BottomHasPendingOrHuman(c.facts) && !BottomHasRepairable(c.facts)
    ensures OnlyHolds(BlockersFor(c.facts, c.facts.bottom.value))
  {
    var own := BlockersFor(c.facts, c.facts.bottom.value);
    var b := BottomIsInStack(c, s);
    LookupBlockers(c, s, b);
    BlockersNameTheirPr(c.rows, s.prs[b], s.required, s.trunk, SuppressedFor(c.facts.suppressed, s.prs[b]));
    hide BuildFacts, BlockersFor, BlockersOf;
    forall j | 0 <= j < |own|
      ensures own[j].kind == MergeHoldBlocker
    {
      var k := BlockerIsListed(c, s, b, j);
      EveryKindStops(c.facts.allBlockers[k]);
    }
  }

  /** Where the three passes find nothing for the bottom, its half of the plan goes on exactly when it looks beyond. */
  lemma HalfGoesOn(c: Context, s: StackInput)
    requires BuiltFrom(c, s) && c.facts.bottom.Some?
    requires PlanRepairs(c, [c.facts.bottom.value], []).action.None?
    ensures PlanBottomHalf(c, c.facts.bottom.value).GoOn? <==> LooksBeyond(c, c.facts.bottom.value)
  {
    var bottom := c.facts.bottom.value;
    BottomIsTheCandidate(c, s);
    hide BuildFacts, PlanRepairs, HasActiveRepair, PlanBottomProgress, BottomHasPendingOrHuman, BottomHasRepairable,
         BlockersFor, OnlyHolds;
    if !BottomHasPendingOrHuman(c.facts) && !BottomHasRepairable(c.facts) { ClearedIsOnlyHolds(c, s); }
    if OnlyHolds(BlockersFor(c.facts, bottom)) {
      OnlyHoldsDoNotStop(c, s);
      HoldsStopNothing(c, bottom, BlockersFor(c.facts, bottom), 0);
      assert PlanHardBlockers(c, [bottom], 1).None?;
    }
  }

  predicate IsFiling(k: ActionKind) { k == RepairCheckAction || k == RebaseOntoMasterAction || k == ResolveBotThreads }

  lemma OthersFileNothing(c: Context, prs: seq<PrSnapshot>)
    ensures PlanHardBlockers(c, prs, 0).Some? ==> !IsFiling(PlanHardBlockers(c, prs, 0).value.kind)
    ensures PlanRest(c).Some? ==> !IsFiling(PlanRest(c).value.kind)
    ensures PlanBottomProgress(c).Some? ==> !IsFiling(PlanBottomProgress(c).value.kind)
  {
    HardBlockersStep(c, prs, 0);
    RestIsNoRepair(c);
    OtherPlansResolveNothing(c);
    hide PlanUpperAcceptance, PlanMergeHoldCleanup, PlanBottomProgress;
  }

  lemma WholeStackFiles(c: Context, log: seq<Call>, a: Action)
    requires GrantsAll(c.filing) && IsFiling(a.kind)
    ensures PlanWholeStack(c, log).action == Some(a) <==> FirstDue(RepairJobs(c, c.facts.prs), a)
  {
    RepairsTakeFirstGrantedJob(c, c.facts.prs, log);
    GrantedIsFirstDue(c.filing, RepairJobs(c, c.facts.prs), log, a);
    OthersFileNothing(c, c.facts.prs);
    hide PlanRepairs, RepairJobs, FirstGranted, PlanHardBlockers, PlanRest, HasActiveRepair, FirstDue, NothingDue;
  }

  /** Which repair is planned, claims granted: the first one due among the jobs of the bottom; where
      none is due and the plan looks beyond the bottom, the first one due in the whole stack. */
  lemma FilesFirstDueRepair(c: Context, s: StackInput, a: Action)
    requires BuiltFrom(c, s) && GrantsAll(c.filing) && IsFiling(a.kind)
    ensures PlanActions(c).action == Some(a) <==>
            if c.facts.bottom.None? then FirstDue(RepairJobs(c, s.prs), a)
            else
              var bottom := c.facts.bottom.value;
              || FirstDue(RepairJobs(c, [bottom]), a)
              || (NothingDue(RepairJobs(c, [bottom])) && LooksBeyond(c, bottom) && FirstDue(RepairJobs(c, s.prs), a))
    ensures c.facts.bottom.Some? && !NothingDue(RepairJobs(c, [c.facts.bottom.value])) ==>
              PlanActions(c).action.Some?
                && FirstDue(RepairJobs(c, [c.facts.bottom.value]), PlanActions(c).action.value)
  {
    hide FirstDue, NothingDue, RepairJobs, PlanRepairs, PlanWholeStack, FirstGranted, LooksBeyond, BuildFacts,
         BuiltFrom;
    StackIsGiven(c, s);
    if c.facts.bottom.None? {
      WholeStackFiles(c, [], a);
    } else {
      var bottom := c.facts.bottom.value;
      var jobs := RepairJobs(c, [bottom]);
      BottomIsTheCandidate(c, s);
      RepairsTakeFirstGrantedJob(c, [bottom], []);
      GrantedIsFirstDue(c.filing, jobs, [], a);
      if NothingDue(jobs) {
        NothingIsNotFirst(jobs, a);
        HalfGoesOn(c, s);
        OthersFileNothing(c, [bottom]);
        hide PlanHardBlockers, PlanBottomProgress, HasActiveRepair, BottomHasPendingOrHuman, BottomHasRepairable;
        match PlanBottomHalf(c, bottom)
        case Decided(_) =>
        case GoOn(log) => WholeStackFiles(c, log, a);
      } else {
        GrantedIsFirstDue(c.filing, jobs, [], FirstGranted(c.filing, jobs, []).action.value);
      }
    }
  }

  lemma NothingIsNotFirst(jobs: seq<Job>, a: Action)
    requires NothingDue(jobs)
    ensures !FirstDue(jobs, a)
  {
  }

  /** A bottom nobody is waited for rests exactly where the stack is held, or, labelled, its uppers
      need acceptance, Mergify has it, or no check is required and it is not mergeable and green. */
  lemma BottomRestsExactlyWhen(c: Context)
    requires c.facts.bottom.Some? && !BottomHasPendingOrHuman(c.facts)
    ensures var bottom := c.facts.bottom.value;
            PlanBottomProgress(c).None? <==>
            || (exists k :: 0 <= k < |c.facts.allBlockers| && c.facts.allBlockers[k].kind == MergeHoldBlocker)
            || (AdminBypass in bottom.labels
                && (|| c.facts.upperNeedsAcceptance
                    || (EventHolds(bottom) && !EventIsOld(bottom, c.now))
                    || (!EventHolds(bottom) && c.facts.required == {}
                        && (bottom.mergeable != MERGEABLE || !AllObservedGreen(bottom)))))
  {
    EventHoldsActiveOrStale(c.facts.bottom.value, c.now);
    hide BottomHasPendingOrHuman, HasActiveQueueEvent, HasStaleQueueEvent, EventHolds, EventIsOld, AllObservedGreen,
         CountHits;
  }

  // ----- when the plan waits -----

  /** A unit whose repair would remove what blocks the PR now. */
  ghost predicate Concerns(c: Context, pr: PrSnapshot, u: Unit) {
    && u.pr == pr.number && u.head == pr.head
    && (|| (u.kind == RepairCheck && DequeuedAtHead(pr) && u.key in pr.latest.value.failingChecks)
        || (u.kind == RebaseOntoMaster && u.key == RebaseKey(pr.number)
            && DequeuedAtHead(pr) && pr.latest.value.failingChecks == [])
        || exists j :: 0 <= j < |BlockersFor(c.facts, pr)| && ConcernsBlocker(pr, BlockersFor(c.facts, pr)[j], u))
  }

  predicate ConcernsBlocker(pr: PrSnapshot, b: Blocker, u: Unit) {
    || (b.kind == Conflict && u.kind == RebaseOntoMaster && u.key == RebaseKey(pr.number))
    || (b.kind == Conflict && u.kind == ConflictRepair && u.key == LegacyConflictKey(pr.number))
    || (b.kind == FailedCheck && u.kind == RepairCheck && u.key == b.key)
    || (b.kind == BotThread && u.kind == RepairBotThread && u.key == b.key)
  }

  ghost predicate IsAlive(c: Context, u: Unit) {
    RepairInFlight(c.rows, u, c.now) || InfraRepairOwnsUnit(c.rows, u, c.now, c.oracles)
  }

  ghost predicate AliveFor(c: Context, pr: PrSnapshot, u: Unit) { Concerns(c, pr, u) && IsAlive(c, u) }

  lemma BusyExactlyWhen(c: Context, pr: PrSnapshot)
    ensures PrBusy(c, pr) <==> exists u :: AliveFor(c, pr, u)
  {
    var blockers := BlockersFor(c.facts, pr);
    hide BlockersFor, RepairInFlight, InfraRepairOwnsUnit;
    if PrBusy(c, pr) {
      if j :| 0 <= j < |blockers| && BlockerBusy(c, pr, blockers[j]) {
        var b := blockers[j];
        match b.kind {
          case Conflict =>
            assert UnitBusy(c, RebaseUnit(pr)) ==> AliveFor(c, pr, RebaseUnit(pr));
            assert UnitBusy(c, LegacyUnit(pr)) ==> AliveFor(c, pr, LegacyUnit(pr));
          case FailedCheck => assert AliveFor(c, pr, CheckUnit(pr, b.key));
          case BotThread => assert AliveFor(c, pr, ThreadUnit(pr, b.key));
          case _ =>
        }
      } else if pr.latest.value.failingChecks == [] {
        assert AliveFor(c, pr, RebaseUnit(pr));
      } else {
        var names := pr.latest.value.failingChecks;
        var i :| 0 <= i < |names| && UnitBusy(c, CheckUnit(pr, names[i]));
        assert AliveFor(c, pr, CheckUnit(pr, names[i]));
      }
    }
    if u :| AliveFor(c, pr, u) { AliveIsBusy(c, pr, u); }
  }

  lemma AliveIsBusy(c: Context, pr: PrSnapshot, u: Unit)
    requires AliveFor(c, pr, u)
    ensures PrBusy(c, pr)
  {
    var blockers := BlockersFor(c.facts, pr);
    hide BlockersFor, RepairInFlight, InfraRepairOwnsUnit;
    assert UnitBusy(c, u);
    if j :| 0 <= j < |blockers| && ConcernsBlocker(pr, blockers[j], u) {
      assert BlockerBusy(c, pr, blockers[j]);
    } else if u.kind == RepairCheck {
      var names := pr.latest.value.failingChecks;
      var i :| 0 <= i < |names| && names[i] == u.key;
      assert UnitBusy(c, CheckUnit(pr, names[i]));
    }
  }

  /** While a repair of anything that blocks a PR of the stack is alive, the plan only repairs,
      resolves a thread or comments; otherwise it does not wait for one. */
  lemma WaitsForLiveRepairs(c: Context, s: StackInput)
    requires BuiltFrom(c, s)
    ensures HasActiveRepair(c) <==> exists i :: 0 <= i < |s.prs| && exists u :: AliveFor(c, s.prs[i], u)
    ensures HasActiveRepair(c) && PlanActions(c).action.Some? ==> IsRepairKind(PlanActions(c).action.value.kind)
  {
    assert c.facts.prs == s.prs;
    hide BuildFacts, PrBusy, AliveFor, PlanActions;
    forall i | 0 <= i < |s.prs|
      ensures PrBusy(c, s.prs[i]) <==> exists u :: AliveFor(c, s.prs[i], u)
    {
      BusyExactlyWhen(c, s.prs[i]);
    }
    BusyOnlyRepairs(c);
  }

  lemma BusyOnlyRepairs(c: Context)
    ensures HasActiveRepair(c) && PlanActions(c).action.Some? ==> IsRepairKind(PlanActions(c).action.value.kind)
  {
    var prs := Candidates(c.facts, if c.facts.bottom.Some? then Some(c.facts.bottom.value.number) else None);
    RepairKinds(c, prs, []);
    HardBlockersStep(c, prs, 0);
    hide PlanRepairs, PlanHardBlockers, HasActiveRepair, PlanBottomProgress, PlanRest, Candidates;
    assert Candidates(c.facts, None) == c.facts.prs by { AllAreCandidates(c.facts); }
  }

  lemma AllAreCandidates(f: StackFacts)
    ensures Candidates(f, None) == f.prs
  {
  }
}
