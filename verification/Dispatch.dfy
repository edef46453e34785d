/** What carrying out one planned action appends to the ledger. */
module Dispatch {
  import opened Wrappers
  import opened LedgerModel
  import opened RetryBudget
  import opened StackFactsModel
  import opened Planner
  import opened PlannerSafety

  /** `resolve_workflow_for_pr`. */
  datatype Resolve = ResolveRaises | NoWorkflow | ResolvedTo(id: string)

  /** `submit_async_repair_plan`. */
  datatype Submission = SubmitRaises | Acknowledged(workflowId: Option<string>)

  /** A downloaded job log. */
  datatype JobLog = LogRaises | NoLog | BlankLog | TextLog

  /** What the outside world answers while one action is carried out. */
  datatype World = World(
    resolve: Resolve,
    fastAccepted: bool,
    submission: Submission,
    submittedPlan: Unit -> string,
    readLog: string -> JobLog,
    checkoutRaises: bool,
    prTerminal: bool,
    prBodyValid: bool,
    foreign: bool,
    headCurrent: bool,
    effectSucceeds: bool,
    retargetRejected: bool,
    failureCommentSucceeds: bool)

  /** The rows after an action; `failed` is a caught dispatch failure, `aborted` an exception
      that ends the cycle. */
  datatype Effect = Effect(rows: seq<Row>, failed: bool, aborted: bool)

  function Plain(kind: Kind, pr: PrSnapshot, key: string, now: int): Row {
    Row(kind, pr.number, pr.head, key, now, NO_META)
  }

  // ----- submitting repair plans -----

  function PendingRow(u: Unit, now: int, plan: string): Row {
    Row(Pending(u.kind), u.pr, u.head, u.key, now, NO_META.(planName := Some(plan)))
  }

  function StartRow(u: Unit, now: int, plan: Option<string>, workflowId: Option<string>): Row {
    Row(Start(u.kind), u.pr, u.head, u.key, now, NO_META.(planName := plan, workflowId := workflowId))
  }

  function UnsentRow(u: Unit, now: int, plan: string): Row {
    Row(PendingSettled(u.kind), u.pr, u.head, u.key, now, NO_META.(planName := Some(plan), outcome := Some(Infra)))
  }

  /** `submit_repair_plan`: the request first, then its acknowledgement or its failure. */
  function Submit(rows: seq<Row>, u: Unit, now: int, w: World): Effect {
    var plan := w.submittedPlan(u);
    var requested := rows + [PendingRow(u, now, plan)];
    match w.submission
    case SubmitRaises => Effect(requested + [UnsentRow(u, now, plan)], true, false)
    case Acknowledged(id) => Effect(requested + [StartRow(u, now, Some(plan), id)], false, false)
  }

  function FirstUrl(urls: seq<(string, seq<string>)>, check: string): string {
    if urls == [] then ""
    else if urls[0].0 == check then if urls[0].1 != [] then urls[0].1[0] else ""
    else FirstUrl(urls[1..], check)
  }

  function DetailsUrl(pr: PrSnapshot, check: string): string {
    if check in pr.checks && pr.checks[check].detailsUrl != "" then pr.checks[check].detailsUrl
    else if pr.latest.Some? then FirstUrl(pr.latest.value.failingCheckUrls, check)
    else ""
  }

  predicate IsQueueOnlyRun(pr: PrSnapshot, check: string) { check !in pr.checks && IsQueueOnly(check) }

  function LogOf(pr: PrSnapshot, check: string, w: World): JobLog {
    var url := DetailsUrl(pr, check);
    if url == "" then NoLog else w.readLog(url)
  }

  // ----- several failing checks: one shared workflow -----

  datatype Specs = SpecsRaise | SpecsInvalid | SpecsFor(checks: seq<string>)

  /** The checks the shared plan repairs: a queue-only one without a job URL stops everything,
      one without log evidence is left out. */
  function SpecsOf(pr: PrSnapshot, names: seq<string>, n: nat, w: World): Specs
    requires n <= |names|
  {
    if n == 0 then SpecsFor([])
    else
      match SpecsOf(pr, names, n - 1, w)
      case SpecsRaise => SpecsRaise
      case SpecsInvalid => SpecsInvalid
      case SpecsFor(checks) =>
        var name := names[n - 1];
        if IsQueueOnlyRun(pr, name) && DetailsUrl(pr, name) == "" then SpecsInvalid
        else if LogOf(pr, name, w).LogRaises? then SpecsRaise
        else if IsQueueOnlyRun(pr, name) && LogOf(pr, name, w) != TextLog then SpecsFor(checks)
        else SpecsFor(checks + [name])
  }

  function PendingRows(pr: PrSnapshot, checks: seq<string>, n: nat, now: int, plan: string): seq<Row>
    requires n <= |checks|
  {
    if n == 0 then []
    else PendingRows(pr, checks, n - 1, now, plan) + [PendingRow(CheckUnit(pr, checks[n - 1]), now, plan)]
  }

  function StartRows(pr: PrSnapshot, checks: seq<string>, n: nat, now: int, plan: string, id: Option<string>): seq<Row>
    requires n <= |checks|
  {
    if n == 0 then []
    else StartRows(pr, checks, n - 1, now, plan, id) + [StartRow(CheckUnit(pr, checks[n - 1]), now, Some(plan), id)]
  }

  function UnsentRows(pr: PrSnapshot, checks: seq<string>, n: nat, now: int, plan: string): seq<Row>
    requires n <= |checks|
  {
    if n == 0 then []
    else UnsentRows(pr, checks, n - 1, now, plan) + [UnsentRow(CheckUnit(pr, checks[n - 1]), now, plan)]
  }

  /** `submit_aggregated_repair_plan`: a START for every check, whatever its own budget. */
  function SubmitShared(rows: seq<Row>, pr: PrSnapshot, checks: seq<string>, now: int, w: World): Effect
    requires checks != []
  {
    var plan := w.submittedPlan(CheckUnit(pr, checks[0]));
    var requested := rows + PendingRows(pr, checks, |checks|, now, plan);
    match w.submission
    case SubmitRaises => Effect(requested + UnsentRows(pr, checks, |checks|, now, plan), true, false)
    case Acknowledged(id) => Effect(requested + StartRows(pr, checks, |checks|, now, plan, id), false, false)
  }

  function RepairShared(rows: seq<Row>, pr: PrSnapshot, key: string, names: seq<string>, now: int, w: World): Effect {
    match SpecsOf(pr, names, |names|, w)
    case SpecsRaise => Effect(rows, true, false)
    case SpecsInvalid => Effect(rows, false, false)
    case SpecsFor(checks) =>
      if checks == [] then Effect(rows + [Plain(QueueOnlyNoop, pr, key, now)], false, false)
      else SubmitShared(rows, pr, checks, now, w)
  }

  // ----- one failing check -----

  predicate SeveralFailing(pr: PrSnapshot) { pr.latest.Some? && |pr.latest.value.failingChecks| > 1 }

  /** `repair_check` and what `run_cycle` records for its outcome. */
  function RepairOne(rows: seq<Row>, pr: PrSnapshot, check: string, now: int, w: World): Effect {
    var queueOnly, log := IsQueueOnlyRun(pr, check), LogOf(pr, check, w);
    if queueOnly && DetailsUrl(pr, check) == "" then Effect(rows, false, false)
    else if log.LogRaises? then Effect(rows, true, false)
    else if check == "PR Body" && (log == BlankLog || !w.foreign) then
      if w.checkoutRaises then Effect(rows, true, false)
      else if w.prTerminal || (log == BlankLog && w.prBodyValid)
      then Effect(rows + [Plain(RepairNoop, pr, check, now)], false, false)
      else Submit(rows, CheckUnit(pr, check), now, w)
    else if queueOnly && log != TextLog then Effect(rows + [Plain(QueueOnlyNoop, pr, check, now)], false, false)
    else if w.prTerminal then
      Effect(if check == "PR Body" then rows + [Plain(RepairNoop, pr, check, now)] else rows, false, false)
    else Submit(rows, CheckUnit(pr, check), now, w)
  }

  function RepairNamedCheck(rows: seq<Row>, pr: PrSnapshot, check: string, now: int, w: World): Effect {
    match w.resolve
    case ResolveRaises => Effect(rows, true, false)
    case ResolvedTo(id) =>
      if id == "" then RepairChecks(rows, pr, check, now, w)
      else if !w.fastAccepted then Effect(rows, true, false)
      else Effect(rows + [StartRow(CheckUnit(pr, check), now, None, Some(id))], false, false)
    case NoWorkflow => RepairChecks(rows, pr, check, now, w)
  }

  function RepairChecks(rows: seq<Row>, pr: PrSnapshot, check: string, now: int, w: World): Effect {
    if SeveralFailing(pr) then RepairShared(rows, pr, check, pr.latest.value.failingChecks, now, w)
    else RepairOne(rows, pr, check, now, w)
  }

  function Rebase(rows: seq<Row>, pr: PrSnapshot, now: int, w: World): Effect {
    match w.resolve
    case ResolveRaises => Effect(rows, true, false)
    case ResolvedTo(id) =>
      if id == "" then Submit(rows, RebaseUnit(pr), now, w)
      else if !w.fastAccepted then Effect(rows, true, false)
      else Effect(rows + [StartRow(RebaseUnit(pr), now, None, Some(id))], false, false)
    case NoWorkflow => Submit(rows, RebaseUnit(pr), now, w)
  }

  /** A caught dispatch failure is announced once per head and action kind. */
  function Announced(e: Effect, pr: PrSnapshot, kindName: string, now: int, w: World): Effect {
    if e.failed && w.failureCommentSucceeds
      && CountHits(e.rows, Exact(DispatchFailed, pr.number, pr.head, kindName)) == 0
    then e.(rows := e.rows + [Plain(DispatchFailed, pr, kindName, now)])
    else e
  }

  // ----- the GitHub executor -----

  function Describe(d: Detail): string {
    match d
    case StateIs(_) => "state"
    case IsDraft => "PR is draft"
    case HoldLabel => "merge-hold label present"
    case ThreadOpen(_, id) => "unresolved review thread " + id
    case GitHubConflict => "GitHub reports merge conflict"
    case MissingRequired(name) => "missing required check " + name
    case CheckFailed(name) => "check failed: " + name
    case CheckNotGreen(name, _) => "check not green: " + name
    case QueueCheckFailed(name) => "Mergify queue check failed: " + name
    case Lines(lines) => if lines == [] then "" else lines[0]
    case BehindMaster => "Mergify dequeued behind master"
    case CapReached(what, head) => Describe(what) + " capped at " + head
    case Note(text) => text
  }

  function CommentKey(a: Action): string { if a.key == "capped" then "capped:" + Describe(a.detail) else a.key }

  /** The row an executor action records once its GitHub call went through, if any. */
  function ExecutedRow(rows: seq<Row>, a: Action, pr: PrSnapshot, now: int): Option<Row> {
    match a.kind
    case RequeueAction => Some(Plain(Requeue, pr, a.key, now))
    case RefreshStaleQueueAction => Some(Plain(RefreshStaleQueue, pr, a.key, now))
    case SquashMergeAction => Some(Plain(SquashMerge, pr, a.key, now))
    case RetargetBaseAction => Some(Plain(RetargetBase, pr, pr.base + "->" + a.key, now))
    case RemoveMergeHoldAction => Some(Plain(RemoveMergeHold, pr, "merge-hold", now))
    case RestoreLabelAction =>
      if CountHits(rows, Exact(RestoreLabel, pr.number, pr.head, "admin-bypass")) == 0
      then Some(Plain(RestoreLabel, pr, "admin-bypass", now)) else None
    case NudgeAction =>
      if CountHits(rows, Exact(AdminBypassNudge, pr.number, pr.head, a.key)) == 0
      then Some(Plain(AdminBypassNudge, pr, a.key, now)) else None
    case CommentBlockedAction =>
      if CountHits(rows, Exact(CommentBlocked, pr.number, pr.head, CommentKey(a))) == 0
      then Some(Plain(CommentBlocked, pr, CommentKey(a), now)) else None
    case _ => None
  }

  /** Whether GitHub is called at all: a comment or label already recorded for the head is not repeated. */
  predicate CallsGitHub(rows: seq<Row>, a: Action, pr: PrSnapshot) {
    a.kind == ResolveBotThreads || ExecutedRow(rows, a, pr, 0).Some?
  }

  function Execute(rows: seq<Row>, a: Action, pr: PrSnapshot, facts: StackFacts, now: int, w: World): Effect {
    if !w.headCurrent then Effect(rows, false, false)
    else if CallsGitHub(rows, a, pr) && !w.effectSucceeds then
      if a.kind == RetargetBaseAction && w.retargetRejected then
        Effect(rows + [Plain(RetargetRejected, pr, pr.base + "->" + a.key, now)], false, false)
      else Effect(rows, false, true)
    else
      var row := ExecutedRow(rows, a, pr, now);
      var recorded := if row.Some? then rows + [row.value] else rows;
      if a.kind != RequeueAction || facts.bottom.None? || facts.bottom.value.number != a.pr
      then Effect(recorded, false, false)
      else
        var followed := if facts.prereq.Some? && facts.prereq.value.needsFollowup
                        then recorded + [Plain(PrereqRequeue, pr, facts.prereq.value.checkName, now)] else recorded;
        Effect(if facts.queueOnlyNoop.Some? && facts.queueOnlyNoop.value != ""
               then followed + [Plain(QueueOnlyRequeue, pr, facts.queueOnlyNoop.value, now)]
               else followed, false, false)
  }

  // ----- one action of a cycle -----

  function Escalate(rows: seq<Row>, a: Action, pr: PrSnapshot, now: int, w: World): Effect {
    Submit(rows, Unit(RequeueEscalation, pr.number, pr.head, a.key), now, w)
  }

  function Perform(rows: seq<Row>, a: Action, pr: PrSnapshot, facts: StackFacts, now: int, w: World): Effect {
    match a.kind
    case RepairCheckAction =>
      var e := if BOT_THREAD_PREFIX <= a.key then Submit(rows, DispatchUnit(pr, a), now, w)
               else RepairNamedCheck(rows, pr, a.key, now, w);
      Announced(e, pr, "repair_check", now, w)
    case RebaseOntoMasterAction => Announced(Rebase(rows, pr, now, w), pr, "rebase_onto_master", now, w)
    case EscalateRequeueStuck => Announced(Escalate(rows, a, pr, now, w), pr, "escalate_requeue_stuck", now, w)
    case _ => Execute(rows, a, pr, facts, now, w)
  }
}
