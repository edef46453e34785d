/** The assumptions on runs can be met: one tick that lands a ready PR, and the row it leaves; also
    with a held draft on top of it. */
module RunExample {
  import opened Wrappers
  import opened LedgerModel
  import opened RetryBudget
  import opened SettlePasses
  import opened StackFactsModel
  import opened Planner
  import opened LandingSafety
  import opened Dispatch
  import opened LedgerInvariant
  import opened Controller
  import opened RowCaps

  /** A PR on trunk that nothing stands in the way of. */
  predicate Landable(pr: PrSnapshot, required: set<string>, trunk: string) {
    && pr.state == OPEN && !pr.isDraft && pr.base == trunk && AdminBypass in pr.labels && MergeHold !in pr.labels
    && !HasConflict(pr) && pr.threads == [] && pr.latest.None?
    && forall name :: name in required ==> name in pr.checks && pr.checks[name].state == Green
  }

  /** An open draft carrying the hold label, accepted, on top of another PR. */
  predicate HeldDraft(pr: PrSnapshot) {
    && pr.state == OPEN && pr.isDraft && AdminBypass in pr.labels && MergeHold in pr.labels && pr.latest.None?
  }

  /** A stack of a landable PR, alone or below a held draft. */
  predicate ReadyStack(prs: seq<PrSnapshot>, required: set<string>, trunk: string) {
    && required != {} && (|prs| == 1 || (|prs| == 2 && HeldDraft(prs[1]) && prs[0].number != prs[1].number))
    && Landable(prs[0], required, trunk)
  }

  /** A tick that finds nothing but such a stack. */
  predicate QuietTick(t: Tick) {
    && t.external == [] && |t.stacks| == 1 && ReadyStack(t.stacks[0].prs, t.required, t.trunk)
    && t.stacks[0].world.headCurrent && t.stacks[0].world.effectSucceeds
  }

  lemma ReadyBlockers(prs: seq<PrSnapshot>, required: set<string>, trunk: string)
    requires ReadyStack(prs, required, trunk)
    ensures Ready(prs[0], required, trunk, []) && BlockersOf([], prs[0], required, trunk, []) == []
    ensures |prs| == 2 ==>
              BlockersOf([], prs[1], required, trunk, []) == [Blocker("draft", Draft, prs[1].number, IsDraft)]
  {
    NoBlockersIffReady([], prs[0], required, trunk, []);
    if |prs| == 2 {
      var pr, b := prs[1], Blocker("draft", Draft, prs[1].number, IsDraft);
      assert Classify(pr, required, trunk) == [b];
      assert Effective(pr, [b], 0, []) == [];
      assert EffectiveBlockers(pr, required, trunk, []) == [b];
      assert ResolveAll([], pr, [b]) == [b];
    }
  }

  lemma ReadyFacts(c: Context, s: StackInput)
    requires BuiltFrom(c, s) && c.rows == [] && ReadyStack(s.prs, s.required, s.trunk)
    ensures c.facts.bottom == Some(s.prs[0]) && c.facts.prereq.None? && c.facts.queueOnlyNoop.None?
    ensures c.facts.prs == s.prs
    ensures forall i :: 0 <= i < |s.prs| ==> SuppressedFor(c.facts.suppressed, s.prs[i]) == []
  {
    assert CurrentBottomPr(s.prs, s.trunk) == Some(s.prs[0]);
    assert BottomSuppressions([], s.prs[0], s.required, None, None) == [];
  }

  lemma NotBusy(c: Context, pr: PrSnapshot)
    requires pr.latest.None?
    requires (BlockersFor(c.facts, pr) == []
              || (|BlockersFor(c.facts, pr)| == 1 && BlockersFor(c.facts, pr)[0].kind == Draft))
    ensures !PrBusy(c, pr)
  {
  }

  lemma NothingRuns(c: Context, s: StackInput)
    requires BuiltFrom(c, s) && c.rows == [] && ReadyStack(s.prs, s.required, s.trunk)
    ensures !HasActiveRepair(c)
  {
    hide BuildFacts, BlockersOf, PrBusy, HasConflict, Ready, BlockersFor;
    ReadyFacts(c, s);
    ReadyBlockers(s.prs, s.required, s.trunk);
    forall i | 0 <= i < |s.prs|
      ensures !PrBusy(c, s.prs[i])
    {
      LookupBlockers(c, s, i);
      NotBusy(c, s.prs[i]);
    }
  }

  lemma NothingToRepair(c: Context, bottom: PrSnapshot)
    requires BlockersFor(c.facts, bottom) == [] && bottom.latest.None?
    ensures BottomRepairs(c, bottom).action.None?
  {
    assert FirstOfKind([], Conflict, 0).None?;
    assert PlanQueueRepairs(c, [bottom], 1, []) == Planned(None, []);
    assert PlanQueueRepairs(c, [bottom], 0, []) == Planned(None, []);
    assert DirectRepair(c, bottom, [], 0, []) == Planned(None, []);
    assert PlanDirectRepairs(c, [bottom], 1, []) == Planned(None, []);
    assert PlanDirectRepairs(c, [bottom], 0, []) == Planned(None, []);
    assert BotThreadRepair(c, bottom, [], 0).None?;
    assert PlanBotThreadRepairs(c, [bottom], 1).None?;
    assert PlanBotThreadRepairs(c, [bottom], 0).None?;
  }

  lemma ReadyLabels(prs: seq<PrSnapshot>, required: set<string>, trunk: string)
    requires ReadyStack(prs, required, trunk)
    ensures AdminBypass in prs[0].labels && prs[0].base == trunk && prs[0].latest.None? && required != {}
    ensures forall i :: 0 <= i < |prs| && prs[i].state == OPEN && !prs[i].isDraft ==> MergeHold !in prs[i].labels
    ensures forall i :: 0 <= i < |prs| && prs[i].state == OPEN && prs[i].number != prs[0].number ==>
              AdminBypass in prs[i].labels
  {
  }

  lemma NothingInvalid(pr: PrSnapshot, now: int)
    requires pr.latest.None?
    ensures !QueueRepairInvalid([], pr, []) && !HasActiveQueueEvent(pr, now) && !HasStaleQueueEvent(pr, now)
  {
  }

  lemma ReadyIsSafe(c: Context, s: StackInput)
    requires BuiltFrom(c, s) && c.rows == [] && ReadyStack(s.prs, s.required, s.trunk) && c.maxRequeue > 0
    ensures c.facts.bottom == Some(s.prs[0]) && SafeToLand(c, s, s.prs[0], LandingOf(s.prs[0], s.required))
    ensures BlockersFor(c.facts, s.prs[0]) == []
  {
    ReadyFacts(c, s);
    NothingRuns(c, s);
    ReadyLabels(s.prs, s.required, s.trunk);
    hide BuildFacts, HasActiveRepair, BlockersOf, Ready, HasConflict, CountHits, QueueRepairInvalid, ReadyStack,
         HasActiveQueueEvent, HasStaleQueueEvent;
    ReadyBlockers(s.prs, s.required, s.trunk);
    LookupBlockers(c, s, 0);
    NothingInvalid(s.prs[0], c.now);
    NoRowsNoHits(ForHead(Requeue, s.prs[0].number, s.prs[0].head));
    hide BuiltFrom, BlockersFor;
  }

  lemma NoRowsNoHits(q: Query)
    ensures CountHits([], q) == 0
  {
  }

  /** A ready bottom is requeued, and a held draft above it does not stop that: the hold label the
      draft carries would block the stack on any PR that is no draft. */
  lemma ReadyIsRequeued(c: Context, s: StackInput)
    requires BuiltFrom(c, s) && c.rows == [] && ReadyStack(s.prs, s.required, s.trunk) && c.maxRequeue > 0
    ensures PlanActions(c).action == Some(Action(RequeueAction, s.prs[0].number, "ready", Note("eligible")))
  {
    ReadyIsSafe(c, s);
    assert s.prs[0].latest.None?;
    hide BuiltFrom, SafeToLand, ReadyStack, PlanActions, BlockersFor;
    NothingToRepair(c, s.prs[0]);
    LandsExactlyWhenSafe(c, s);
  }

  // ----- the tick -----

  lemma {:induction false} AddedPrs(prs: seq<PrSnapshot>, n: nat, i: nat)
    requires i < n <= |prs| && Distinct(prs)
    ensures prs[i].number in AddPrs(map[], prs, n) && AddPrs(map[], prs, n)[prs[i].number] == prs[i]
  {
    if i < n - 1 { AddedPrs(prs, n - 1, i); }
  }

  lemma PrsOfTick(t: Tick)
    requires |t.stacks| == 1 && Distinct(t.stacks[0].prs)
    ensures forall i :: 0 <= i < |t.stacks[0].prs| ==>
              t.stacks[0].prs[i].number in AllPrs(t) && AllPrs(t)[t.stacks[0].prs[i].number] == t.stacks[0].prs[i]
  {
    var prs := t.stacks[0].prs;
    assert PrsByNumber(t.stacks, 0) == map[];
    assert PrsByNumber(t.stacks, 1) == AddPrs(PrsByNumber(t.stacks, 0), prs, |prs|);
    forall i | 0 <= i < |prs|
      ensures prs[i].number in AllPrs(t) && AllPrs(t)[prs[i].number] == prs[i]
    {
      AddedPrs(prs, |prs|, i);
    }
  }

  /** A quiet tick is good for every unit but threads, and for every cap. */
  lemma QuietTickIsGood(t: Tick, u: Unit, q: Query)
    requires QuietTick(t)
    ensures u.kind != RepairBotThread ==> GoodTick(History([], map[]), t, u)
    ensures CapIsOurs(t, q)
  {
    PrsOfTick(t);
    var empty: seq<Row> := [];
    assert empty + t.external == [];
    if u.pr in AllPrs(t) { SomePrOfTick(t, u.pr); }
  }

  lemma {:induction false} AddedComesFrom(prs: seq<PrSnapshot>, n: nat, number: int)
    requires n <= |prs| && number in AddPrs(map[], prs, n)
    ensures exists i :: 0 <= i < n && prs[i] == AddPrs(map[], prs, n)[number]
  {
    if number != prs[n - 1].number {
      AddedComesFrom(prs, n - 1, number);
      var i :| 0 <= i < n - 1 && prs[i] == AddPrs(map[], prs, n - 1)[number];
    }
  }

  lemma SomePrOfTick(t: Tick, number: int)
    requires QuietTick(t) && number in AllPrs(t)
    ensures AllPrs(t)[number].latest.None?
  {
    var prs := t.stacks[0].prs;
    assert PrsByNumber(t.stacks, 0) == map[];
    assert PrsByNumber(t.stacks, 1) == AddPrs(PrsByNumber(t.stacks, 0), prs, |prs|);
    AddedComesFrom(prs, |prs|, number);
  }

  lemma RequeueRecorded(t: Tick, pr: PrSnapshot, facts: StackFacts)
    requires t.stacks != [] && t.stacks[0].world.headCurrent && t.stacks[0].world.effectSucceeds && facts.prereq.None?
    requires facts.queueOnlyNoop.None?
    ensures var e :=
            Perform([], Action(RequeueAction, pr.number, "ready", Note("eligible")), pr, facts, t.now,
                    t.stacks[0].world);
            e.rows == [Plain(Requeue, pr, "ready", t.now)]
  {
  }

  lemma QuietContext(t: Tick, l: Limits)
    requires QuietTick(t)
    ensures var c := PlanningContext([], t, t.stacks[0], l);
            c.rows == [] && c.maxRequeue == l.maxRequeue && BuiltFrom(c, InputOf(t, t.stacks[0].prs))
  {
    hide BuildFacts, Landable, HeldDraft, AllPrs;
  }

  lemma RequeuePlanned(t: Tick, l: Limits)
    requires QuietTick(t) && l.maxRequeue > 0
    ensures var c, pr := PlanningContext([], t, t.stacks[0], l), t.stacks[0].prs[0];
            && c.facts.prereq.None? && c.facts.queueOnlyNoop.None?
            && PlanStack(c).action == Some(Action(RequeueAction, pr.number, "ready", Note("eligible")))
  {
    hide PlanActions, PlanningContext, BuiltFrom, ReadyStack, BuildFacts;
    StackIsDistinct(t);
    var c, s := PlanningContext([], t, t.stacks[0], l), InputOf(t, t.stacks[0].prs);
    QuietContext(t, l);
    ReadyFacts(c, s);
    ReadyIsRequeued(c, s);
  }

  lemma FirstStack(t: Tick, l: Limits)
    requires QuietTick(t) && l.maxRequeue > 0
    ensures StackStep(CycleState(History([], map[]), false), t, t.stacks[0], l).history
            == History([Plain(Requeue, t.stacks[0].prs[0], "ready", t.now)], map[])
  {
    hide PlanActions, PlanStack, PlanningContext, Perform, AllPrs, ReadyStack, Marks, Plain;
    assert t.stacks[0].prs != [] && Distinct(t.stacks[0].prs) by { StackIsDistinct(t); }
    var c := PlanningContext([], t, t.stacks[0], l);
    RequeuePlanned(t, l);
    PrsOfTick(t);
    RequeueRecorded(t, t.stacks[0].prs[0], c.facts);
  }

  lemma StackIsDistinct(t: Tick)
    requires QuietTick(t)
    ensures t.stacks[0].prs != [] && Distinct(t.stacks[0].prs)
  {
  }

  lemma QuietPasses(t: Tick)
    ensures FastPass([], t.now, t.owner).rows == [] && PlanPass([], t.now, t.owner).rows == []
  {
  }

  /** A landable PR, also below a held draft, is requeued by its first tick, and the run is one the
      theorems speak about. */
  lemma LandableIsRequeued(t: Tick, l: Limits, u: Unit, q: Query)
    requires QuietTick(t) && l.maxRequeue > 0
    ensures u.kind != RepairBotThread ==> GoodRun([t], 1, l, u)
    ensures CapIsOurs(t, q)
    ensures Run([t], 1, l).rows == [Plain(Requeue, t.stacks[0].prs[0], "ready", t.now)]
  {
    QuietTickIsGood(t, u, q);
    FirstStack(t, l);
    QuietPasses(t);
    hide StackStep, GoodTick, FastPass, PlanPass, CapIsOurs, ReadyStack, Plain;
    var h := History([], map[]);
    assert h.rows + t.external == [];
    assert StackLoop(h, t, 0, l) == CycleState(h, false);
    assert StackLoop(h, t, 1, l) == StackStep(CycleState(h, false), t, t.stacks[0], l);
    assert Run([t], 0, l) == h;
    assert GoodRun([t], 0, l, u);
  }
}
