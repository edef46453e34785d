/** The planner: at most one action per stack, from the facts, the ledger and the claim table. */
module Planner {
  import opened Wrappers
  import opened LedgerModel
  import opened RetryBudget
  import opened RetryGate
  import opened StackFactsModel

  const STALE_QUEUE_EVENT_TTL_SECONDS := 5400
  const STALE_QUEUE_EVENT_REFRESH_KEY := "admin-bypass-current-head"
  const BOT_THREAD_PREFIX := "bot_review_thread:"

  datatype ActionKind =
    | RepairCheckAction | RebaseOntoMasterAction | EscalateRequeueStuck
    | RequeueAction | SquashMergeAction | RefreshStaleQueueAction
    | ResolveBotThreads | CommentBlockedAction | RemoveMergeHoldAction
    | RetargetBaseAction | RestoreLabelAction | NudgeAction

  datatype Action = Action(kind: ActionKind, pr: int, key: string, detail: Detail)

  // ----- filing claims -----

  datatype ClaimKey = ClaimKey(kind: string, subject: int, sha: string)

  datatype Call = ClaimCall(key: ClaimKey, denied: bool) | ReleaseCall(key: ClaimKey)

  /** The injected claim and release functions. `denied(k)` is the answer to the k-th call of
      one planning call: other planners may change the table between any two of them. */
  datatype Filing = Filing(claims: bool, releases: bool, denied: nat -> bool, slug: string -> string)

  datatype Claimed = Claimed(granted: bool, log: seq<Call>)

  function TryClaim(f: Filing, key: ClaimKey, log: seq<Call>): Claimed {
    if !f.claims then Claimed(true, log)
    else Claimed(!f.denied(|log|), log + [ClaimCall(key, f.denied(|log|))])
  }

  function CheckFilingKind(f: Filing, check: string): string { "admin-requeue:check:" + f.slug(check) }

  const REBASE_FILING_KIND := "admin-requeue:rebase-onto-master"

  /** `mergify_check_state_sha`: a second speculative merge of one head claims its own key. */
  function QueueStateSha(pr: PrSnapshot, e: QueueEvent): string {
    pr.head + ":" + if e.commentId != "" then e.commentId else "no-comment"
  }

  // ----- the planning call -----

  /** `gate` answers the gate chain for a unit; `ContextOf` fills it in from the ledger. */
  datatype Context = Context(
    facts: StackFacts,
    rows: seq<Row>,
    maxRequeue: int,
    now: int,
    oracles: Oracles,
    filing: Filing,
    gate: Unit -> GateResult)

  function ContextOf(facts: StackFacts, rows: seq<Row>, maxRequeue: int, maxRepair: int, now: int, o: Oracles,
                     filing: Filing): Context {
    Context(facts, rows, maxRequeue, now, o, filing, u => Gate(rows, u, now, maxRepair, o))
  }

  datatype Planned = Planned(action: Option<Action>, log: seq<Call>)

  function BlockersFor(f: StackFacts, pr: PrSnapshot): seq<Blocker> {
    if pr.number in f.blockers then f.blockers[pr.number] else []
  }

  predicate HasKind(blockers: seq<Blocker>, kind: BlockerKind) {
    exists i :: 0 <= i < |blockers| && blockers[i].kind == kind
  }

  function FirstOfKind(blockers: seq<Blocker>, kind: BlockerKind, i: nat): Option<Blocker>
    requires i <= |blockers|
    decreases |blockers| - i
  {
    if i == |blockers| then None
    else if blockers[i].kind == kind then Some(blockers[i])
    else FirstOfKind(blockers, kind, i + 1)
  }

  function CheckUnit(pr: PrSnapshot, check: string): Unit { Unit(RepairCheck, pr.number, pr.head, check) }

  function ThreadUnit(pr: PrSnapshot, thread: string): Unit { Unit(RepairBotThread, pr.number, pr.head, thread) }

  function RebaseUnit(pr: PrSnapshot): Unit { Unit(RebaseOntoMaster, pr.number, pr.head, RebaseKey(pr.number)) }

  function LegacyUnit(pr: PrSnapshot): Unit { Unit(ConflictRepair, pr.number, pr.head, LegacyConflictKey(pr.number)) }

  function CapAction(pr: PrSnapshot, detail: Detail): Action {
    Action(CommentBlockedAction, pr.number, "capped", CapReached(detail, pr.head))
  }

  predicate IsNonRepairable(s: CheckState) { s == SkippedCheck || s == CancelledCheck || s == NeutralCheck }

  // ----- rebase onto master -----

  /** `_release_stale_rebase_filing_claim`: an attempt of this PR settled and none is alive. */
  predicate StaleClaim(c: Context, pr: PrSnapshot) {
    && c.filing.releases
    && !RepairInFlight(c.rows, RebaseUnit(pr), c.now)
    && !RepairInFlight(c.rows, LegacyUnit(pr), c.now)
    && (|| LatestSettle(c.rows, RebaseUnit(pr)).Some?
        || LatestSettle(c.rows, LegacyUnit(pr)).Some?
        || Latest(c.rows, ByUnit(Settled(RebaseOntoMaster), pr.number, RebaseKey(pr.number))).Some?
        || Latest(c.rows, ByUnit(Settled(ConflictRepair), pr.number, LegacyConflictKey(pr.number))).Some?)
  }

  /** The rebase claim; a denied one is released and claimed again when it is stale. */
  function ClaimRebase(c: Context, pr: PrSnapshot, log: seq<Call>): Claimed {
    var key := ClaimKey(REBASE_FILING_KIND, pr.number, pr.head);
    var first := TryClaim(c.filing, key, log);
    if first.granted || !StaleClaim(c, pr) then first
    else TryClaim(c.filing, key, first.log + [ReleaseCall(key)])
  }

  function PlanRebase(c: Context, pr: PrSnapshot, reason: Detail, log: seq<Call>): Planned {
    match c.gate(RebaseUnit(pr))
    case Hold => Planned(None, log)
    case Cap => Planned(Some(CapAction(pr, reason)), log)
    case Pass(crashed) =>
      if !crashed && RepairInFlight(c.rows, LegacyUnit(pr), c.now) then Planned(None, log)
      else
        var claim := ClaimRebase(c, pr, log);
        Planned(if claim.granted then Some(Action(RebaseOntoMasterAction, pr.number, RebaseKey(pr.number), reason))
                else None, claim.log)
  }

  // ----- failing queue checks -----

  function OfQueueKind(names: seq<string>, queueOnly: bool): seq<string> {
    if names == [] then []
    else (if IsQueueOnly(names[0]) == queueOnly then [names[0]] else []) + OfQueueKind(names[1..], queueOnly)
  }

  /** `sorted(failing, key=is_queue_only_required_check)`: a stable sort on a boolean. */
  function RepairOrder(names: seq<string>): seq<string> {
    OfQueueKind(names, false) + OfQueueKind(names, true)
  }

  function QueueCheckRepair(c: Context, pr: PrSnapshot, names: seq<string>, i: nat, log: seq<Call>): Planned
    requires i <= |names| && pr.latest.Some?
    decreases |names| - i
  {
    if i == |names| then Planned(None, log)
    else
      var name := names[i];
      if name in SuppressedFor(c.facts.suppressed, pr) then QueueCheckRepair(c, pr, names, i + 1, log)
      else if name in pr.checks && IsNonRepairable(pr.checks[name].state)
      then QueueCheckRepair(c, pr, names, i + 1, log)
      else
        match c.gate(CheckUnit(pr, name))
        case Hold => QueueCheckRepair(c, pr, names, i + 1, log)
        case Cap => Planned(Some(CapAction(pr, QueueCheckFailed(name))), log)
        case Pass(_) =>
          var claim := TryClaim(c.filing,
                                ClaimKey(CheckFilingKind(c.filing, name), pr.number,
                                         QueueStateSha(pr, pr.latest.value)), log);
          if claim.granted
          then Planned(Some(Action(RepairCheckAction, pr.number, name, QueueCheckFailed(name))), claim.log)
          else QueueCheckRepair(c, pr, names, i + 1, claim.log)
  }

  function FailedQueueChecks(c: Context, pr: PrSnapshot, log: seq<Call>): Planned {
    if !DequeuedAtHead(pr) then Planned(None, log)
    else QueueCheckRepair(c, pr, RepairOrder(pr.latest.value.failingChecks), 0, log)
  }

  /** A dequeue with no named failure, behind master, with nothing else to wait for. */
  predicate GreenDequeueBehindMaster(c: Context, pr: PrSnapshot) {
    var blockers := BlockersFor(c.facts, pr);
    && DequeuedAtHead(pr) && pr.latest.value.failingChecks == []
    && !HasKind(blockers, FailedCheck) && !HasKind(blockers, PendingCheckBlocker)
    && !HasKind(blockers, BotThread) && !HasKind(blockers, OutdatedBotThread)
    && !(c.facts.prereq.Some? && c.facts.prereq.value.needsFollowup)
    && pr.number in c.facts.staleBase && c.facts.staleBase[pr.number]
  }

  predicate LegacyConflictBusy(c: Context, pr: PrSnapshot) {
    RepairInFlight(c.rows, LegacyUnit(pr), c.now) || InfraRepairOwnsUnit(c.rows, LegacyUnit(pr), c.now, c.oracles)
  }

  function PlanQueueRepairs(c: Context, prs: seq<PrSnapshot>, i: nat, log: seq<Call>): Planned
    requires i <= |prs|
    decreases |prs| - i
  {
    if i == |prs| then Planned(None, log)
    else
      var pr, blockers := prs[i], BlockersFor(c.facts, prs[i]);
      if HasKind(blockers, HumanDecision) then PlanQueueRepairs(c, prs, i + 1, log)
      else if c.facts.upperNeedsAcceptance && c.facts.bottom.Some? && pr.number == c.facts.bottom.value.number then
        PlanQueueRepairs(c, prs, i + 1, log)
      else
        var conflict := FirstOfKind(blockers, Conflict, 0);
        if conflict.Some? then
          if LegacyConflictBusy(c, pr) then PlanQueueRepairs(c, prs, i + 1, log)
          else
            var p := PlanRebase(c, pr, conflict.value.detail, log);
            if p.action.Some? then p else PlanQueueRepairs(c, prs, i + 1, p.log)
        else
          var p := FailedQueueChecks(c, pr, log);
          if p.action.Some? then p
          else if GreenDequeueBehindMaster(c, pr) then
            var r := PlanRebase(c, pr, BehindMaster, p.log);
            if r.action.Some? then r else PlanQueueRepairs(c, prs, i + 1, r.log)
          else PlanQueueRepairs(c, prs, i + 1, p.log)
  }

  // ----- direct repairs -----

  function DirectRepair(c: Context, pr: PrSnapshot, blockers: seq<Blocker>, i: nat, log: seq<Call>): Planned
    requires i <= |blockers|
    decreases |blockers| - i
  {
    if i == |blockers| then Planned(None, log)
    else
      var b := blockers[i];
      if b.kind == Conflict then
        if LegacyConflictBusy(c, pr) then DirectRepair(c, pr, blockers, i + 1, log)
        else
          var p := PlanRebase(c, pr, b.detail, log);
          if p.action.Some? then p else DirectRepair(c, pr, blockers, i + 1, p.log)
      else if b.kind == FailedCheck then
        match c.gate(CheckUnit(pr, b.key))
        case Hold => DirectRepair(c, pr, blockers, i + 1, log)
        case Cap => Planned(Some(CapAction(pr, b.detail)), log)
        case Pass(_) =>
          var claim := TryClaim(c.filing, ClaimKey(CheckFilingKind(c.filing, b.key), pr.number, pr.head), log);
          if claim.granted then Planned(Some(Action(RepairCheckAction, pr.number, b.key, b.detail)), claim.log)
          else DirectRepair(c, pr, blockers, i + 1, claim.log)
      else DirectRepair(c, pr, blockers, i + 1, log)
  }

  function PlanDirectRepairs(c: Context, prs: seq<PrSnapshot>, i: nat, log: seq<Call>): Planned
    requires i <= |prs|
    decreases |prs| - i
  {
    if i == |prs| then Planned(None, log)
    else
      var blockers := BlockersFor(c.facts, prs[i]);
      if HasKind(blockers, HumanDecision) then PlanDirectRepairs(c, prs, i + 1, log)
      else
        var p := DirectRepair(c, prs[i], blockers, 0, log);
        if p.action.Some? then p else PlanDirectRepairs(c, prs, i + 1, p.log)
  }

  // ----- bot review threads -----

  function BotThreadRepair(c: Context, pr: PrSnapshot, blockers: seq<Blocker>, i: nat): Option<Action>
    requires i <= |blockers|
    decreases |blockers| - i
  {
    if i == |blockers| then None
    else
      var b := blockers[i];
      if b.kind == OutdatedBotThread then Some(Action(ResolveBotThreads, pr.number, b.key, b.detail))
      else if b.kind != BotThread then BotThreadRepair(c, pr, blockers, i + 1)
      else if DifferentHead(c.rows, Start(RepairBotThread), pr.number, pr.head, b.key) then
        Some(Action(ResolveBotThreads, pr.number, b.key, b.detail))
      else
        match c.gate(ThreadUnit(pr, b.key))
        case Hold => BotThreadRepair(c, pr, blockers, i + 1)
        case Cap => Some(CapAction(pr, b.detail))
        case Pass(_) => Some(Action(RepairCheckAction, pr.number, BOT_THREAD_PREFIX + b.key, b.detail))
  }

  function PlanBotThreadRepairs(c: Context, prs: seq<PrSnapshot>, i: nat): Option<Action>
    requires i <= |prs|
    decreases |prs| - i
  {
    if i == |prs| then None
    else
      var blockers := BlockersFor(c.facts, prs[i]);
      if HasKind(blockers, HumanDecision) then PlanBotThreadRepairs(c, prs, i + 1)
      else
        var a := BotThreadRepair(c, prs[i], blockers, 0);
        if a.Some? then a else PlanBotThreadRepairs(c, prs, i + 1)
  }

  // ----- waiting and commenting -----

  predicate UnitBusy(c: Context, u: Unit) {
    RepairInFlight(c.rows, u, c.now) || InfraRepairOwnsUnit(c.rows, u, c.now, c.oracles)
  }

  predicate BlockerBusy(c: Context, pr: PrSnapshot, b: Blocker) {
    match b.kind
    case Conflict => UnitBusy(c, RebaseUnit(pr)) || UnitBusy(c, LegacyUnit(pr))
    case FailedCheck => UnitBusy(c, CheckUnit(pr, b.key))
    case BotThread => UnitBusy(c, ThreadUnit(pr, b.key))
    case _ => false
  }

  predicate PrBusy(c: Context, pr: PrSnapshot) {
    || (DequeuedAtHead(pr)
        && var failing := pr.latest.value.failingChecks;
           if failing == [] then UnitBusy(c, RebaseUnit(pr))
           else exists i :: 0 <= i < |failing| && UnitBusy(c, CheckUnit(pr, failing[i])))
    || (exists i :: 0 <= i < |BlockersFor(c.facts, pr)| && BlockerBusy(c, pr, BlockersFor(c.facts, pr)[i]))
  }

  predicate HasActiveRepair(c: Context) {
    exists i :: 0 <= i < |c.facts.prs| && PrBusy(c, c.facts.prs[i])
  }

  predicate IsHumanKind(k: BlockerKind) {
    k == Draft || k == HumanThread || k == MissingCheck || k == Closed || k == HumanDecision
  }

  predicate WaitsOnOthers(b: Blocker) {
    b.kind == PendingCheckBlocker || IsHumanKind(b.kind) || b.kind == MergedBlocker
  }

  predicate IsRepairable(b: Blocker) {
    b.kind == FailedCheck || b.kind == Conflict || b.kind == BotThread || b.kind == OutdatedBotThread
  }

  predicate HasPendingOrHuman(f: StackFacts) {
    exists i :: 0 <= i < |f.allBlockers| && WaitsOnOthers(f.allBlockers[i])
  }

  predicate BottomHasPendingOrHuman(f: StackFacts) {
    if f.bottom.None? then HasPendingOrHuman(f)
    else exists i :: 0 <= i < |f.allBlockers| && f.allBlockers[i].pr == f.bottom.value.number
           && WaitsOnOthers(f.allBlockers[i])
  }

  predicate BottomHasRepairable(f: StackFacts) {
    f.bottom.Some?
    && exists i :: 0 <= i < |f.allBlockers| && f.allBlockers[i].pr == f.bottom.value.number
         && IsRepairable(f.allBlockers[i])
  }

  datatype HardStop = Continue | Stop(action: Option<Action>)

  function HardBlocker(c: Context, pr: PrSnapshot, blockers: seq<Blocker>, i: nat): HardStop
    requires i <= |blockers|
    decreases |blockers| - i
  {
    if i == |blockers| then Continue
    else
      var b := blockers[i];
      if b.kind == PendingCheckBlocker || b.kind == HumanDecision then Stop(None)
      else if IsHumanKind(b.kind) then
        if CountHits(c.rows, Exact(CommentBlocked, pr.number, pr.head, b.key)) > 0 then Stop(None)
        else Stop(Some(Action(CommentBlockedAction, pr.number, b.key, b.detail)))
      else HardBlocker(c, pr, blockers, i + 1)
  }

  function PlanHardBlockers(c: Context, prs: seq<PrSnapshot>, i: nat): Option<Action>
    requires i <= |prs|
    decreases |prs| - i
  {
    if i == |prs| then None
    else
      match HardBlocker(c, prs[i], BlockersFor(c.facts, prs[i]), 0)
      case Continue => PlanHardBlockers(c, prs, i + 1)
      case Stop(a) => a
  }

  function PlanUpperAcceptance(c: Context): Option<Action> {
    var f := c.facts;
    if !f.upperNeedsAcceptance || f.bottom.None? || f.allBlockers != [] then None
    else if CountHits(c.rows,
                      Exact(CommentBlocked, f.bottom.value.number, f.bottom.value.head,
                            "upper-stack-needs-acceptance")) > 0 then None
    else Some(Action(CommentBlockedAction, f.bottom.value.number, "upper-stack-needs-acceptance",
                     Note("upper stack needs acceptance")))
  }

  function PrOf(prs: seq<PrSnapshot>, number: int, i: nat): Option<PrSnapshot>
    requires i <= |prs|
    decreases |prs| - i
  {
    if i == |prs| then None else if prs[i].number == number then Some(prs[i]) else PrOf(prs, number, i + 1)
  }

  function PlanMergeHoldCleanup(c: Context): Option<Action> {
    var f := c.facts;
    if HasPendingOrHuman(f) || f.bottom.None? then None
    else if f.allBlockers == [] || exists i :: 0 <= i < |f.allBlockers| && f.allBlockers[i].kind != MergeHoldBlocker
    then None
    else
      var b := f.allBlockers[0];
      var pr := PrOf(f.prs, b.pr, 0);
      if pr.None? then None
      else if CountHits(c.rows, Exact(RemoveMergeHold, b.pr, pr.value.head, "merge-hold")) >= 1
      then Some(CapAction(pr.value, b.detail))
      else Some(Action(RemoveMergeHoldAction, b.pr, "merge-hold", b.detail))
  }

  // ----- progress of the bottom -----

  predicate EventIsStale(e: QueueEvent, now: int) {
    e.queuedAt.Some? && now - e.queuedAt.value >= STALE_QUEUE_EVENT_TTL_SECONDS
  }

  predicate InActiveState(e: QueueEvent) { e.state == QueuedState || e.state == MergingState }

  predicate HasStaleQueueEvent(pr: PrSnapshot, now: int) {
    && pr.latest.Some? && pr.latest.value.adminBypassRule && InActiveState(pr.latest.value)
    && pr.latest.value.headSha == pr.head && EventIsStale(pr.latest.value, now)
  }

  predicate HasActiveQueueEvent(pr: PrSnapshot, now: int) {
    if pr.latest.None? then false
    else
      var e := pr.latest.value;
      if e.state == WaitingState then
        if HasConflict(pr) || Dequeued in pr.labels || e.waitsOnConflict then false
        else if e.headSha != "" && e.headSha != pr.head then Queued in pr.labels
        else true
      else if !e.adminBypassRule || !InActiveState(e) then false
      else if e.headSha == pr.head then !EventIsStale(e, now)
      else if e.headSha == "" then true
      else Queued in pr.labels
  }

  predicate AllObservedGreen(pr: PrSnapshot) {
    pr.checks != map[] && forall n :: n in pr.checks ==>
                            pr.checks[n].state == Green || IsNonRepairable(pr.checks[n].state)
  }

  function PlanWithoutBottom(c: Context): Option<Action> {
    var root := c.facts.topology.root;
    if c.facts.topology.kind == ExternalOpenBase then
      Some(Action(CommentBlockedAction, root.number, "external-open-base-pr", Note("external open base")))
    else if CountHits(c.rows, Exact(RetargetRejected, root.number, root.head, root.base + "->" + c.facts.trunk)) > 0
    then None
    else Some(Action(RetargetBaseAction, root.number, c.facts.trunk, Note("retarget stack root")))
  }

  function PlanLanding(c: Context, bottom: PrSnapshot): Option<Action> {
    if c.facts.required == {} then
      if bottom.mergeable != MERGEABLE || !AllObservedGreen(bottom) then None
      else if CountHits(c.rows, Exact(SquashMerge, bottom.number, bottom.head, "squash")) >= c.maxRequeue then
        Some(CapAction(bottom, Note("squash-merge")))
      else Some(Action(SquashMergeAction, bottom.number, "squash", Note("MERGEABLE with all observed CI green")))
    else
      var key := if bottom.latest.Some? && bottom.latest.value.state == DequeuedState
                 then if bottom.latest.value.commentId != "" then bottom.latest.value.commentId else "manual"
                 else "ready";
      if CountHits(c.rows, ForHead(Requeue, bottom.number, bottom.head)) >= c.maxRequeue then
        if CountHits(c.rows, ForHead(Start(RequeueEscalation), bottom.number, bottom.head)) == 0 then
          Some(Action(EscalateRequeueStuck, bottom.number, key, Note("requeue capped")))
        else Some(CapAction(bottom, Note("requeue")))
      else Some(Action(RequeueAction, bottom.number, key, Note("eligible")))
  }

  function PlanBottomProgress(c: Context): Option<Action> {
    var f := c.facts;
    if BottomHasPendingOrHuman(f) || HasKind(f.allBlockers, MergeHoldBlocker) then None
    else if f.bottom.None? then PlanWithoutBottom(c)
    else
      var bottom := f.bottom.value;
      if AdminBypass !in bottom.labels then
        if f.queueOnlyNoop.Some? && f.queueOnlyNoop.value != "" && bottom.latest.Some?
           && bottom.latest.value.adminBypassRule && bottom.latest.value.state == DequeuedState
        then Some(Action(RestoreLabelAction, bottom.number, f.queueOnlyNoop.value, Note("restore admin-bypass label")))
        else Some(Action(NudgeAction, bottom.number, "admin-bypass", Note("missing admin-bypass label")))
      else if f.upperNeedsAcceptance || HasActiveQueueEvent(bottom, c.now) then None
      else if HasStaleQueueEvent(bottom, c.now) then
        if CountHits(c.rows,
                     Exact(RefreshStaleQueue, bottom.number, bottom.head,
                           STALE_QUEUE_EVENT_REFRESH_KEY)) >= c.maxRequeue
        then Some(CapAction(bottom, Note("stale queue event")))
        else Some(Action(RefreshStaleQueueAction, bottom.number, STALE_QUEUE_EVENT_REFRESH_KEY,
                         Note("stale queue event")))
      else PlanLanding(c, bottom)
  }

  // ----- the whole plan -----

  function WithNumber(prs: seq<PrSnapshot>, number: int): seq<PrSnapshot> {
    if prs == [] then []
    else (if prs[0].number == number then [prs[0]] else []) + WithNumber(prs[1..], number)
  }

  /** `_candidate_prs`: the whole stack, or the PRs of one number. */
  function Candidates(f: StackFacts, only: Option<int>): seq<PrSnapshot> {
    if only.None? then f.prs else WithNumber(f.prs, only.value)
  }

  /** The three repair passes both halves of the plan begin with. */
  function PlanRepairs(c: Context, prs: seq<PrSnapshot>, log: seq<Call>): Planned {
    var queue := PlanQueueRepairs(c, prs, 0, log);
    if queue.action.Some? then queue
    else
      var direct := PlanDirectRepairs(c, prs, 0, queue.log);
      if direct.action.Some? then direct
      else Planned(PlanBotThreadRepairs(c, prs, 0), direct.log)
  }

  /** The bottom-only half: `Decided` when it ends the plan, also by deciding to wait. */
  datatype Half = Decided(planned: Planned) | GoOn(log: seq<Call>)

  function PlanBottomHalf(c: Context, bottom: PrSnapshot): Half {
    var prs := Candidates(c.facts, Some(bottom.number));
    var repairs := PlanRepairs(c, prs, []);
    if repairs.action.Some? then Decided(repairs)
    else
      var hard := PlanHardBlockers(c, prs, 0);
      if hard.Some? then Decided(Planned(hard, repairs.log))
      else if HasActiveRepair(c) || BottomHasPendingOrHuman(c.facts) || BottomHasRepairable(c.facts) then
        Decided(Planned(None, repairs.log))
      else
        var progress := PlanBottomProgress(c);
        if progress.Some? then Decided(Planned(progress, repairs.log)) else GoOn(repairs.log)
  }

  function PlanRest(c: Context): Option<Action> {
    var upper := PlanUpperAcceptance(c);
    if upper.Some? then upper
    else
      var hold := PlanMergeHoldCleanup(c);
      if hold.Some? then hold else PlanBottomProgress(c)
  }

  function PlanWholeStack(c: Context, log: seq<Call>): Planned {
    var repairs := PlanRepairs(c, c.facts.prs, log);
    if repairs.action.Some? then repairs
    else if HasActiveRepair(c) then Planned(None, repairs.log)
    else
      var hard := PlanHardBlockers(c, c.facts.prs, 0);
      Planned(if hard.Some? then hard else PlanRest(c), repairs.log)
  }

  function PlanActions(c: Context): Planned {
    if c.facts.bottom.None? then PlanWholeStack(c, [])
    else
      match PlanBottomHalf(c, c.facts.bottom.value)
      case Decided(p) => p
      case GoOn(log) => PlanWholeStack(c, log)
  }

  /** `plan_stack_execution`: an open prerequisite PR stops the stack before planning. */
  function PlanStack(c: Context): Planned {
    if c.facts.prereq.Some? && c.facts.prereq.value.isOpen then Planned(None, []) else PlanActions(c)
  }
}
