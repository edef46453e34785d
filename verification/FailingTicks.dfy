/** Ticks that find one PR, which Mergify dequeued for some failing checks, and repair the first. */
module FailingTicks {
  import opened Wrappers
  import opened LedgerModel
  import opened RetryBudget
  import opened RetryGate
  import opened SettlePasses
  import opened StackFactsModel
  import opened Planner
  import opened PlannerSafety
  import opened LandingSafety
  import opened Dispatch
  import opened LedgerInvariant
  import opened Controller

  // ----- one failing PR -----

  /** A PR on trunk that was dequeued at its head for these checks, and shows nothing else. */
  function FailingPr(names: seq<string>): PrSnapshot {
    PrSnapshot(1, OPEN, false, "master", "feature", "head", false, MERGEABLE, {}, map[], [],
               Some(QueueEvent("comment", DequeuedState, true, None, "head", false, names, [], map[])), [])
  }

  /** No workflow ever crashed, and none is live. */
  const NO_ANSWERS := Oracles(_ => "", _ => false, _ => None)

  const NO_CLAIMS := Filing(false, false, _ => false, name => name)

  /** An owner that knows no workflow list and answers every status question alike. */
  function OwnerSaying(status: Option<WorkflowStatus>): Owner {
    Owner(_ => status, (_, _) => Some(Code), _ => "", None)
  }

  /** A world in which the PR's workflow takes the repair over, or where none is known, a plan is
      submitted and acknowledged. */
  function WorldWith(resolve: Resolve): World {
    World(resolve, true, Acknowledged(Some("wf-9")), _ => "plan", _ => NoLog, false, false, true, false, true, true,
          false, true)
  }

  function TickAt(external: seq<Row>, now: int, names: seq<string>, resolve: Resolve,
                  status: Option<WorkflowStatus>): Tick {
    Tick(external, now, OwnerSaying(status), [StackTick([FailingPr(names)], WorldWith(resolve), NO_CLAIMS, NO_ANSWERS)],
         {}, "master", map[], map[])
  }

  /** Rows of repairs only. */
  ghost predicate OnlyRepairs(rows: seq<Row>) {
    forall i :: 0 <= i < |rows| ==>
      rows[i].kind.Start? || rows[i].kind.Settled? || rows[i].kind.Pending? || rows[i].kind.PendingSettled?
  }

  lemma NoSuchRow(rows: seq<Row>, q: Query)
    requires OnlyRepairs(rows) && !q.kind.Start? && !q.kind.Settled? && !q.kind.Pending? && !q.kind.PendingSettled?
    ensures Latest(rows, q).None?
  {
    var at := LatestPosition(rows, q);
  }

  lemma ThePr(t: Tick, pr: PrSnapshot)
    requires |t.stacks| == 1 && t.stacks[0].prs == [pr]
    ensures AllPrs(t) == map[pr.number := pr]
  {
    assert PrsByNumber(t.stacks, 0) == map[];
    assert AddPrs(map[], [pr], 0) == map[];
    assert AddPrs(map[], [pr], 1) == map[pr.number := pr];
    assert PrsByNumber(t.stacks, 1) == AddPrs(PrsByNumber(t.stacks, 0), t.stacks[0].prs, 1);
  }

  lemma FailingIsClear(rows: seq<Row>, pr: PrSnapshot, names: seq<string>)
    requires pr == FailingPr(names) && OnlyRepairs(rows)
    ensures BlockersOf(rows, pr, {}, "master", []) == []
  {
    assert !QueueRepairInvalid(rows, pr, []) by {
      forall i | 0 <= i < |names|
        ensures !InvalidFailing(rows, pr, names[i], [])
      {
        NoSuchRow(rows, Exact(RepairInvalid, pr.number, pr.head, names[i]));
      }
    }
    NoBlockersIffReady(rows, pr, {}, "master", []);
  }

  lemma FailingFacts(rows: seq<Row>, external: seq<Row>, now: int, names: seq<string>, resolve: Resolve,
                     status: Option<WorkflowStatus>, l: Limits)
    requires OnlyRepairs(rows)
    ensures var t := TickAt(external, now, names, resolve, status);
            var c := PlanningContext(rows, t, t.stacks[0], l);
            && c.facts.prs == [FailingPr(names)] && c.facts.bottom == Some(FailingPr(names)) && c.facts.prereq.None?
               && !c.facts.upperNeedsAcceptance
            && SuppressedFor(c.facts.suppressed, FailingPr(names)) == [] && BlockersFor(c.facts, FailingPr(names)) == []
            && BuiltFrom(c, InputOf(t, t.stacks[0].prs))
  {
    var t, pr := TickAt(external, now, names, resolve, status), FailingPr(names);
    var c := PlanningContext(rows, t, t.stacks[0], l);
    NoSuchRow(rows, ForHead(PrereqCreated, pr.number, pr.head));
    NoSuchRow(rows, ForHead(QueueOnlyNoop, pr.number, pr.head));
    assert CurrentBottomPr([pr], "master") == Some(pr);
    assert c.facts.prereq.None? && c.facts.queueOnlyNoop.None?;
    assert BottomSuppressions(rows, pr, {}, None, None) == [];
    LookupBlockers(c, InputOf(t, [pr]), 0);
    FailingIsClear(rows, pr, names);
  }

  /** The planned repair of the first failing check. */
  function RepairOf(names: seq<string>): Action
    requires names != []
  {
    Action(RepairCheckAction, 1, names[0], QueueCheckFailed(names[0]))
  }

  lemma FirstCheckIsRepaired(c: Context, names: seq<string>)
    requires c.facts.prs == [FailingPr(names)] && c.facts.bottom == Some(FailingPr(names)) && c.facts.prereq.None?
    requires !c.facts.upperNeedsAcceptance
    requires SuppressedFor(c.facts.suppressed, FailingPr(names)) == [] && BlockersFor(c.facts, FailingPr(names)) == []
    requires !c.filing.claims
    requires names != [] && !IsQueueOnly(names[0]) && c.gate(CheckUnit(FailingPr(names), names[0])).Pass?
    ensures PlanStack(c).action == Some(RepairOf(names))
  {
    var pr := FailingPr(names);
    assert WithNumber([pr], 1) == [pr] by { assert WithNumber([], 1) == []; }
    assert RepairOrder(names)[0] == names[0];
    assert FirstOfKind([], Conflict, 0).None?;
    assert PlanQueueRepairs(c, [pr], 0, []).action == Some(RepairOf(names));
    hide PlanQueueRepairs;
  }

  lemma FirstCheckIsPlanned(rows: seq<Row>, external: seq<Row>, now: int, names: seq<string>, resolve: Resolve,
                            status: Option<WorkflowStatus>, l: Limits)
    requires names != [] && !IsQueueOnly(names[0]) && OnlyRepairs(rows)
    requires Gate(rows, CheckUnit(FailingPr(names), names[0]), now, l.maxRepair, NO_ANSWERS).Pass?
    ensures var t := TickAt(external, now, names, resolve, status);
            var c := PlanningContext(rows, t, t.stacks[0], l);
            PlanStack(c).action == Some(RepairOf(names)) && CrashBehind(c, FailingPr(names), RepairOf(names)).None?
  {
    var t := TickAt(external, now, names, resolve, status);
    var c := PlanningContext(rows, t, t.stacks[0], l);
    FailingFacts(rows, external, now, names, resolve, status, l);
    assert c.gate(CheckUnit(FailingPr(names), names[0])).Pass?;
    NeverCrashed(rows, DispatchUnit(FailingPr(names), RepairOf(names)), now, l.maxRepair);
    hide DispatchUnit, BuildFacts, FailingPr, Gate;
    assert CrashBehind(c, FailingPr(names), RepairOf(names)).None?;
    hide PlanningContext, CrashBehind;
    FirstCheckIsRepaired(c, names);
  }

  lemma StackOfTick(external: seq<Row>, now: int, names: seq<string>, resolve: Resolve, status: Option<WorkflowStatus>)
    ensures var t := TickAt(external, now, names, resolve, status);
            && t.stacks[0].prs != [] && StackFactsModel.Distinct(t.stacks[0].prs)
               && t.stacks[0].world == WorldWith(resolve)
            && AllPrs(t) == map[1 := FailingPr(names)] && t.owner == OwnerSaying(status) && t.now == now
            && t.external == external && |t.stacks| == 1 && t.owner.workflows.None?
  {
    ThePr(TickAt(external, now, names, resolve, status), FailingPr(names));
  }

  /** A tick on such a PR carries the repair of its first failing check out. */
  lemma TickRepairs(h: History, external: seq<Row>, loaded: seq<Row>, now: int, names: seq<string>, resolve: Resolve,
                    status: Option<WorkflowStatus>, l: Limits, rows: seq<Row>, facts: StackFacts)
    requires names != [] && !IsQueueOnly(names[0]) && OnlyRepairs(rows)
    requires loaded == h.rows + external && rows == FastPass(loaded, now, OwnerSaying(status)).rows
    requires Gate(rows, CheckUnit(FailingPr(names), names[0]), now, l.maxRepair, NO_ANSWERS).Pass?
    ensures Cycle(h, TickAt(external, now, names, resolve, status), l).history
            == h.(rows := Perform(rows, RepairOf(names), FailingPr(names), facts, now, WorldWith(resolve)).rows)
  {
    var t := TickAt(external, now, names, resolve, status);
    var c := PlanningContext(rows, t, t.stacks[0], l);
    FirstCheckIsPlanned(rows, external, now, names, resolve, status, l);
    StackOfTick(external, now, names, resolve, status);
    SameForAnyFacts(rows, names, c.facts, facts, now, WorldWith(resolve));
    hide FastPass, Perform, PlanningContext, Gate, PlanStack, AllPrs, CrashBehind, FailingPr, TickAt, Marks,
         OnlyRepairs,
         WorldWith, OwnerSaying, DispatchUnit;
    var settled := h.(rows := rows);
    assert StackLoop(settled, t, 0, l) == CycleState(settled, false);
    assert StackLoop(settled, t, 1, l) == StackStep(CycleState(settled, false), t, t.stacks[0], l);
  }

  lemma SameForAnyFacts(rows: seq<Row>, names: seq<string>, f: StackFacts, g: StackFacts, now: int, w: World)
    requires names != []
    ensures Perform(rows, RepairOf(names), FailingPr(names), f, now, w)
            == Perform(rows, RepairOf(names), FailingPr(names), g, now, w)
  {
    hide RepairNamedCheck, Submit, Announced, FailingPr;
  }

  lemma NeverCrashed(rows: seq<Row>, u: Unit, now: int, max: nat)
    ensures Gate(rows, u, now, max, NO_ANSWERS) != Pass(true)
  {
  }

  // ----- what the repair leaves -----

  /** The name of an ordinary check. */
  predicate IsPlainName(check: string) { !IsQueueOnly(check) && !(BOT_THREAD_PREFIX <= check) }

  /** The unit of a check of the PR. */
  function UnitOfCheck(check: string): Unit { Unit(RepairCheck, 1, "head", check) }

  function FastStart(check: string, now: int, id: string): Row { StartRow(UnitOfCheck(check), now, None, Some(id)) }

  /** Facts an action of a failing check does not look at. */
  function SomeFacts(names: seq<string>): StackFacts {
    BuildFacts([FailingPr(names)], {}, [], {}, map[], "master", map[])
  }

  lemma FastRepair(rows: seq<Row>, check: string, now: int, id: string)
    requires IsPlainName(check) && id != ""
    ensures Perform(rows, RepairOf([check]), FailingPr([check]), SomeFacts([check]), now,
                    WorldWith(ResolvedTo(id))).rows
            == rows + [FastStart(check, now, id)]
    ensures CheckUnit(FailingPr([check]), check) == UnitOfCheck(check)
  {
  }

  /** A tick whose PR has a workflow of its own leaves one START. */
  lemma FastTick(before: seq<Row>, external: seq<Row>, loaded: seq<Row>, rows: seq<Row>, check: string, now: int,
                 id: string, status: Option<WorkflowStatus>, l: Limits)
    requires IsPlainName(check) && id != "" && OnlyRepairs(rows)
    requires loaded == before + external && rows == FastPass(loaded, now, OwnerSaying(status)).rows
    requires Gate(rows, UnitOfCheck(check), now, l.maxRepair, NO_ANSWERS).Pass?
    ensures Cycle(History(before, map[]), TickAt(external, now, [check], ResolvedTo(id), status), l).history
            == History(rows + [FastStart(check, now, id)], map[])
  {
    FastRepair(rows, check, now, id);
    hide Cycle, Gate, Perform, FastPass, TickAt, SomeFacts, FailingPr, FastStart, OwnerSaying, WorldWith, CheckUnit,
         OnlyRepairs;
    TickRepairs(History(before, map[]), external, loaded, now, [check], ResolvedTo(id), status, l, rows,
                SomeFacts([check]));
  }

  // ----- runs of a few ticks -----

  lemma TwoTicks(ticks: seq<Tick>, l: Limits, first: History, second: History)
    requires |ticks| >= 2 && Cycle(History([], map[]), ticks[0], l).history == first
    requires Cycle(first, ticks[1], l).history == second
    ensures Run(ticks, 1, l) == first && Run(ticks, 2, l) == second
  {
    hide Cycle;
    assert Run(ticks, 0, l) == History([], map[]);
  }

  lemma OneMoreTick(ticks: seq<Tick>, n: nat, l: Limits, before: History, after: History)
    requires n < |ticks| && Run(ticks, n, l) == before && Cycle(before, ticks[n], l).history == after
    ensures Run(ticks, n + 1, l) == after
  {
    hide Cycle;
  }

  lemma OneMoreGoodTick(ticks: seq<Tick>, n: nat, l: Limits, rows: seq<Row>, u: Unit)
    requires n < |ticks| && GoodRun(ticks, n, l, u) && Run(ticks, n, l) == History(rows, map[])
    requires ticks[n].external == [] && Monotone(rows) && NotAfter(rows, ticks[n].now) && PlainFor(ticks[n], u)
    ensures GoodRun(ticks, n + 1, l, u)
  {
    hide Cycle, PlainFor, Monotone;
    assert rows + [] == rows;
  }

  lemma PlainTick(now: int, check: string, resolve: Resolve, status: Option<WorkflowStatus>)
    ensures PlainFor(TickAt([], now, [check], resolve, status), UnitOfCheck(check))
  {
    ThePr(TickAt([], now, [check], resolve, status), FailingPr([check]));
  }
}
