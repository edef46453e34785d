/** One tick of the controller, and whole runs of ticks over one ledger. */
module Controller {
  import opened Wrappers
  import opened LedgerModel
  import opened RetryBudget
  import opened RetryGate
  import opened SettlePasses
  import opened StackFactsModel
  import opened Planner
  import opened PlannerSafety
  import opened LandingSafety
  import opened Dispatch
  import opened LedgerInvariant

  /** A stack with what the outside answers while it is planned and its action carried out. */
  datatype StackTick = StackTick(prs: seq<PrSnapshot>, world: World, filing: Filing, oracles: Oracles)

  /** `external` are the rows other processes appended since the last tick. */
  datatype Tick = Tick(
    external: seq<Row>,
    now: int,
    owner: Owner,
    stacks: seq<StackTick>,
    required: set<string>,
    trunk: string,
    openByHead: map<string, set<int>>,
    staleBase: map<int, bool>)

  datatype CycleState = CycleState(history: History, aborted: bool)

  function AddPrs(found: map<int, PrSnapshot>, prs: seq<PrSnapshot>, n: nat): map<int, PrSnapshot>
    requires n <= |prs|
  {
    if n == 0 then found else AddPrs(found, prs, n - 1)[prs[n - 1].number := prs[n - 1]]
  }

  /** `pr_by_number`: a later snapshot of a number replaces an earlier one. */
  function PrsByNumber(stacks: seq<StackTick>, n: nat): map<int, PrSnapshot>
    requires n <= |stacks|
  {
    if n == 0 then map[] else AddPrs(PrsByNumber(stacks, n - 1), stacks[n - 1].prs, |stacks[n - 1].prs|)
  }

  function AllPrs(t: Tick): map<int, PrSnapshot> { PrsByNumber(t.stacks, |t.stacks|) }

  function InputOf(t: Tick, prs: seq<PrSnapshot>): StackInput {
    StackInput(prs, t.required, AllPrs(t).Keys, t.openByHead, t.trunk, t.staleBase)
  }

  function PlanningContext(rows: seq<Row>, t: Tick, s: StackTick, l: Limits): Context
    requires s.prs != []
  {
    var facts := BuildFacts(s.prs, t.required, rows, AllPrs(t).Keys, t.openByHead, t.trunk, t.staleBase);
    ContextOf(facts, rows, l.maxRequeue, l.maxRepair, t.now, s.oracles, s.filing)
  }

  /** The filings of a unit among the rows from `from` on, with what the outside had answered. */
  function Marks(from: nat, rows: seq<Row>, u: Unit, o: Oracles): map<nat, Oracles> {
    map k: nat | from <= k < |rows| && FilesOn(rows[k], u) :: o
  }

  /** The rows of an action, its filings remembered where the gate passed because of a crash. */
  function AfterAction(h: History, rows: seq<Row>, u: Unit, crash: Option<Oracles>): History {
    History(rows, if crash.Some? then h.crashed + Marks(|h.rows|, rows, u, crash.value) else h.crashed)
  }

  /** The answers behind a filing whose gate passed because the last attempt crashed. */
  function CrashBehind(c: Context, pr: PrSnapshot, a: Action): Option<Oracles> {
    if IsRepair(a) && c.gate(DispatchUnit(pr, a)) == Pass(true) then Some(c.oracles) else None
  }

  function StackStep(s: CycleState, t: Tick, stack: StackTick, l: Limits): CycleState {
    if s.aborted then s
    else if stack.prs == [] || !Distinct(stack.prs) then s.(aborted := true)
    else
      var c := PlanningContext(s.history.rows, t, stack, l);
      var planned := PlanStack(c);
      if planned.action.None? then s
      else if planned.action.value.pr !in AllPrs(t) then s.(aborted := true)
      else
        var a, pr := planned.action.value, AllPrs(t)[planned.action.value.pr];
        var e := Perform(s.history.rows, a, pr, c.facts, t.now, stack.world);
        CycleState(AfterAction(s.history, e.rows, DispatchUnit(pr, a), CrashBehind(c, pr, a)), e.aborted)
  }

  function StackLoop(h: History, t: Tick, n: nat, l: Limits): CycleState
    requires n <= |t.stacks|
  {
    if n == 0 then CycleState(h, false) else StackStep(StackLoop(h, t, n - 1, l), t, t.stacks[n - 1], l)
  }

  /** `run_cycle`: an exception in a settle pass is caught and keeps what the pass recorded. */
  function Cycle(h: History, t: Tick, l: Limits): CycleState {
    var fast := FastPass(h.rows + t.external, t.now, t.owner).rows;
    var settled := PlanPass(fast, t.now, t.owner).rows;
    StackLoop(History(settled, h.crashed), t, |t.stacks|, l)
  }

  /** The ledger after the first `n` ticks; an aborted tick leaves the rows it recorded. */
  function Run(ticks: seq<Tick>, n: nat, l: Limits): History
    requires n <= |ticks|
  {
    if n == 0 then History([], map[]) else Cycle(Run(ticks, n - 1, l), ticks[n - 1], l).history
  }

  // ----- what a run is assumed to be -----

  /** Every snapshot of the PR a tick found is the one its actions are carried out on. */
  ghost predicate OneSnapshot(t: Tick, number: int) {
    forall i, j :: 0 <= i < |t.stacks| && 0 <= j < |t.stacks[i].prs| && t.stacks[i].prs[j].number == number ==>
      number in AllPrs(t) && t.stacks[i].prs[j] == AllPrs(t)[number]
  }

  /** The shared workflow of several failing queue checks would file this unit. */
  predicate FiledShared(pr: PrSnapshot, u: Unit) {
    SeveralFailing(pr) && u.kind == RepairCheck && u.pr == pr.number && u.head == pr.head
      && u.key in pr.latest.value.failingChecks
  }

  /** A check of the PR has the name under which repairs of this thread are planned. */
  predicate NamesItsThread(pr: PrSnapshot, u: Unit) {
    && u.kind == RepairBotThread
    && (|| BOT_THREAD_PREFIX + u.key in pr.checks
        || (pr.latest.Some? && BOT_THREAD_PREFIX + u.key in pr.latest.value.failingChecks))
  }

  /** The unit is only filed behind its own gate: its PR has one snapshot, whose failing queue
      checks are not filed together with it and none of whose checks is named like it. */
  ghost predicate PlainFor(t: Tick, u: Unit) {
    && OneSnapshot(t, u.pr)
    && (u.pr in AllPrs(t) ==> !FiledShared(AllPrs(t)[u.pr], u) && !NamesItsThread(AllPrs(t)[u.pr], u))
  }

  /** Other processes file nothing on the unit, no clock runs backwards, and its PR is plain. */
  ghost predicate GoodTick(h: History, t: Tick, u: Unit) {
    && (forall i :: 0 <= i < |t.external| ==> !FilesOn(t.external[i], u))
    && Monotone(h.rows + t.external) && NotAfter(h.rows + t.external, t.now)
    && PlainFor(t, u)
  }

  ghost predicate GoodRun(ticks: seq<Tick>, n: nat, l: Limits, u: Unit)
    requires n <= |ticks|
  {
    n == 0 || (GoodRun(ticks, n - 1, l, u) && GoodTick(Run(ticks, n - 1, l), ticks[n - 1], u))
  }
}
