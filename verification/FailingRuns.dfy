/** Runs on which the controller breaks a promise: one PR that Mergify keeps dequeuing, and a tick
    every now and then. Each holds for every check or thread name of its kind. */
module FailingRuns {
  import opened Wrappers
  import opened LedgerModel
  import opened RetryBudget
  import opened RetryGate
  import opened SettlePasses
  import opened StackFactsModel
  import opened Planner
  import opened PlannerSafety
  import opened Dispatch
  import opened LedgerInvariant
  import opened Controller
  import opened RunSafety
  import opened SharedSubmission
  import opened ShortLedgers
  import opened FailingTicks

  // ----- a START settled before it was filed -----

  function FirstSettle(check: string): Row { SettledRow(UnitOfCheck(check), 100, Code, Some("wf-1")) }

  /** The workflow of the first START ends in the hundredth second, and the tick of that second
      settles it and files the next; one second later another tick comes. */
  function RefilingTicks(check: string): seq<Tick> {
    [TickAt([], 0, [check], ResolvedTo("wf-1"), None),
     TickAt([], 100, [check], ResolvedTo("wf-2"), Some(Completed)),
     TickAt([], 101, [check], ResolvedTo("wf-3"), Some(Running))]
  }

  function RefiledRows(check: string): seq<Row> {
    [FastStart(check, 0, "wf-1"), FirstSettle(check), FastStart(check, 100, "wf-2"), FastStart(check, 101, "wf-3")]
  }

  lemma Resolvable()
    ensures IsResolvable("wf-1")
  {
    assert "wf-1"[..3] == "wf-";
  }

  lemma RefilingRows(check: string)
    ensures var start, settle, again := FastStart(check, 0, "wf-1"), FirstSettle(check), FastStart(check, 100, "wf-2");
            && RefiledAtSettle(UnitOfCheck(check), start, settle, again)
            && OnlyRepairs([]) && OnlyRepairs([start, settle]) && OnlyRepairs([start, settle, again])
            && start.epoch == 0 && settle.epoch == 100
    ensures Hits(Starts(UnitOfCheck(check)), FastStart(check, 101, "wf-3"))
    ensures FastStart(check, 101, "wf-3").epoch == 101
  {
  }

  /** Neither pass does anything about STARTs whose unit has a settle not before them. */
  lemma MaskedIsLeft(u: Unit, start: Row, settle: Row, again: Row, now: int, o: Owner)
    requires RefiledAtSettle(u, start, settle, again)
    ensures FastPass([start, settle, again], now, o).rows == [start, settle, again]
    ensures PlanPass([start, settle, again], now, o).rows == [start, settle, again]
  {
    var rows := [start, settle, again];
    LatestRows(u, start, settle, again);
    assert UnitOf(start) == u && UnitOf(again) == u;
    hide Latest;
    assert FastLoop(rows, 0, now, o) == PassState(rows, false);
    assert FastLoop(rows, 1, now, o) == PassState(rows, false);
    assert FastLoop(rows, 2, now, o) == PassState(rows, false);
    if o.workflows.Some? { NothingForPlanPass(rows, now, o); }
  }

  lemma NothingForPlanPass(rows: seq<Row>, now: int, o: Owner)
    requires |rows| == 3 && o.workflows.Some?
    requires forall i :: 0 <= i < 3 ==> !rows[i].kind.Pending? && !IsUnsettledStart(rows, rows[i])
    ensures PlanPass(rows, now, o).rows == rows
  {
    hide IsUnsettledStart;
    var workflows := o.workflows.value;
    assert PendingLoop(rows, 0, now, o, workflows) == rows;
    assert PendingLoop(rows, 1, now, o, workflows) == rows;
    assert PendingLoop(rows, 2, now, o, workflows) == rows;
    assert StartLoop(rows, rows, 0, now, o, workflows) == PassState(rows, false);
    assert StartLoop(rows, rows, 1, now, o, workflows) == PassState(rows, false);
    assert StartLoop(rows, rows, 2, now, o, workflows) == PassState(rows, false);
  }

  lemma SecondTickSettles(check: string)
    ensures FastPass([FastStart(check, 0, "wf-1")], 100, OwnerSaying(Some(Completed))).rows
            == [FastStart(check, 0, "wf-1"), FirstSettle(check)]
  {
    Resolvable();
    var rows, o := [FastStart(check, 0, "wf-1")], OwnerSaying(Some(Completed));
    assert Latest(rows, Settles(UnitOfCheck(check))).None? by { assert rows[..0] == []; }
    assert FastLoop(rows, 0, 100, o) == PassState(rows, false);
  }

  lemma FirstTick(check: string, max: nat)
    requires IsPlainName(check) && max > 0
    ensures Cycle(History([], map[]), TickAt([], 0, [check], ResolvedTo("wf-1"), None), Limits(1, max)).history
            == History([FastStart(check, 0, "wf-1")], map[])
  {
    assert FastPass([], 0, OwnerSaying(None)).rows == [];
    assert OnlyRepairs([]);
    hide Cycle, Gate, FastPass, TickAt, FastStart, UnitOfCheck, OwnerSaying, OnlyRepairs;
    GateOpensEmpty(UnitOfCheck(check), 0, max, NO_ANSWERS);
    FastTick([], [], [], [], check, 0, "wf-1", None, Limits(1, max));
    assert [] + [FastStart(check, 0, "wf-1")] == [FastStart(check, 0, "wf-1")];
  }

  lemma SecondTick(check: string)
    requires IsPlainName(check)
    ensures Cycle(History([FastStart(check, 0, "wf-1")], map[]), RefilingTicks(check)[1], Limits(1, 3)).history
            == History(RefiledRows(check)[..3], map[])
  {
    var start, settle, again := FastStart(check, 0, "wf-1"), FirstSettle(check), FastStart(check, 100, "wf-2");
    RefilingRows(check);
    SecondTickSettles(check);
    hide Cycle, Gate, FastPass, TickAt, FastStart, FirstSettle, UnitOfCheck, OwnerSaying, OnlyRepairs, RefiledAtSettle;
    GatesOpen(UnitOfCheck(check), start, settle, again, 100, NO_ANSWERS);
    assert [start] == [start] + [];
    FastTick([start], [], [start], [start, settle], check, 100, "wf-2", Some(Completed), Limits(1, 3));
    assert RefiledRows(check)[..3] == [start, settle] + [again];
  }

  lemma ThirdTick(check: string)
    requires IsPlainName(check)
    ensures Cycle(History(RefiledRows(check)[..3], map[]), RefilingTicks(check)[2], Limits(1, 3)).history
            == History(RefiledRows(check), map[])
  {
    var start, settle, again := FastStart(check, 0, "wf-1"), FirstSettle(check), FastStart(check, 100, "wf-2");
    var three := [start, settle, again];
    RefilingRows(check);
    hide Cycle, Gate, FastPass, TickAt, FastStart, FirstSettle, UnitOfCheck, OwnerSaying, OnlyRepairs, RefiledAtSettle;
    assert RefiledRows(check)[..3] == three && RefiledRows(check) == three + [FastStart(check, 101, "wf-3")];
    MaskedIsLeft(UnitOfCheck(check), start, settle, again, 101, OwnerSaying(Some(Running)));
    GatesOpen(UnitOfCheck(check), start, settle, again, 101, NO_ANSWERS);
    assert three == three + [];
    FastTick(three, [], three, three, check, 101, "wf-3", Some(Running), Limits(1, 3));
  }

  lemma RefilingRun(check: string)
    requires IsPlainName(check)
    ensures var ticks, l := RefilingTicks(check), Limits(1, 3);
            && Run(ticks, 1, l) == History([FastStart(check, 0, "wf-1")], map[])
            && Run(ticks, 2, l) == History(RefiledRows(check)[..3], map[])
            && Run(ticks, 3, l) == History(RefiledRows(check), map[])
  {
    var ticks, l, first := RefilingTicks(check), Limits(1, 3), History([FastStart(check, 0, "wf-1")], map[]);
    hide Cycle, TickAt, FastStart, FirstSettle, Run;
    FirstTick(check, 3);
    SecondTick(check);
    ThirdTick(check);
    TwoTicks(ticks, l, first, History(RefiledRows(check)[..3], map[]));
    OneMoreTick(ticks, 2, l, History(RefiledRows(check)[..3], map[]), History(RefiledRows(check), map[]));
  }

  lemma TicksArePlain(check: string)
    ensures forall i :: 0 <= i < 3 ==>
              PlainFor(RefilingTicks(check)[i], UnitOfCheck(check)) && RefilingTicks(check)[i].external == []
    ensures RefilingTicks(check)[0].now == 0 && RefilingTicks(check)[1].now == 100 && RefilingTicks(check)[2].now == 101
  {
    hide PlainFor;
    PlainTick(0, check, ResolvedTo("wf-1"), None);
    PlainTick(100, check, ResolvedTo("wf-2"), Some(Completed));
    PlainTick(101, check, ResolvedTo("wf-3"), Some(Running));
  }

  lemma RowsAreInOrder(check: string)
    ensures Monotone([]) && NotAfter([], 0)
    ensures Monotone([FastStart(check, 0, "wf-1")]) && NotAfter([FastStart(check, 0, "wf-1")], 100)
    ensures Monotone(RefiledRows(check)[..3]) && NotAfter(RefiledRows(check)[..3], 101)
  {
    var start, settle, again := FastStart(check, 0, "wf-1"), FirstSettle(check), FastStart(check, 100, "wf-2");
    RefilingRows(check);
    TwoInOrder(start, settle);
    ThreeInOrder(start, settle, again);
    assert RefiledRows(check)[..3] == [start, settle, again];
  }

  lemma RefilingRunIsGood(check: string)
    requires IsPlainName(check)
    ensures GoodRun(RefilingTicks(check), 3, Limits(1, 3), UnitOfCheck(check))
  {
    var ticks, l, u := RefilingTicks(check), Limits(1, 3), UnitOfCheck(check);
    RefilingRun(check);
    TicksArePlain(check);
    RowsAreInOrder(check);
    assert Run(ticks, 0, l) == History([], map[]) && GoodRun(ticks, 0, l, u);
    hide RefilingTicks, RefiledRows, Run, GoodRun, PlainFor, FastStart, UnitOfCheck, Monotone, NotAfter;
    assert |ticks| == 3 by { ThreeTicks(check); }
    OneMoreGoodTick(ticks, 0, l, [], u);
    OneMoreGoodTick(ticks, 1, l, [FastStart(check, 0, "wf-1")], u);
    OneMoreGoodTick(ticks, 2, l, RefiledRows(check)[..3], u);
  }

  lemma ThreeTicks(check: string)
    ensures |RefilingTicks(check)| == 3 && |RefiledRows(check)| == 4
  {
  }

  /** Filed again one second after a START that a settle of its own second masks. */
  lemma MaskedByPosition(u: Unit, start: Row, settle: Row, again: Row, third: Row)
    requires RefiledAtSettle(u, start, settle, again) && Hits(Starts(u), third) && third.epoch == again.epoch + 1
    ensures var rows := [start, settle, again, third];
            && AreConsecutive(rows, u, 2, 3) && !ShutsGate(rows[..2], u, rows[2].epoch)
            && forall k: nat :: !Separated(History(rows, map[]), u, 2, 3, k)
  {
    var rows := [start, settle, again, third];
    assert rows[..2] == [start, settle];
    LatestRows(u, start, settle, again);
  }

  /** One live attempt fails. The START of the hundredth second is filed behind a settle of that
      second, which the code takes for its own: no pass will ever settle it, and the tick one second
      later files the unit again while its workflow runs. */
  lemma MaskedStartIsRefiledAtOnce(check: string)
    requires IsPlainName(check)
    ensures var ticks, l, u, rows := RefilingTicks(check), Limits(1, 3), UnitOfCheck(check), RefiledRows(check);
            && GoodRun(ticks, 3, l, u) && Run(ticks, 3, l) == History(rows, map[])
            && AreConsecutive(rows, u, 2, 3) && rows[3].epoch == rows[2].epoch + 1
            && !ShutsGate(rows[..2], u, rows[2].epoch)
            && (forall k: nat :: !Separated(Run(ticks, 3, l), u, 2, 3, k))
            && (forall now, o :: FastPass(rows[..3], now, o).rows == rows[..3]
                  && PlanPass(rows[..3], now, o).rows == rows[..3])
  {
    var start, settle, again := FastStart(check, 0, "wf-1"), FirstSettle(check), FastStart(check, 100, "wf-2");
    var u, rows := UnitOfCheck(check), RefiledRows(check);
    RefilingRun(check);
    RefilingRunIsGood(check);
    RefilingRows(check);
    assert rows[..3] == [start, settle, again] && rows == [start, settle, again, FastStart(check, 101, "wf-3")];
    hide Run, GoodRun, FastPass, PlanPass, RefilingTicks, FastStart, FirstSettle, UnitOfCheck, Separated,
         AreConsecutive,
         ShutsGate,
         RefiledAtSettle;
    MaskedByPosition(u, start, settle, again, FastStart(check, 101, "wf-3"));
    forall now, o
      ensures FastPass(rows[..3], now, o).rows == rows[..3] && PlanPass(rows[..3], now, o).rows == rows[..3]
    {
      MaskedIsLeft(u, start, settle, again, now, o);
    }
  }

  // ----- a check filed beyond its cap -----

  /** One check is filed, and while it runs, at its cap of one, another one fails beside it. */
  function SharedTicks(a: string, b: string): seq<Tick> {
    [TickAt([], 0, [b], ResolvedTo("wf-1"), None), TickAt([], 100, [a, b], NoWorkflow, None)]
  }

  lemma BothHaveEvidence(a: string, b: string)
    requires IsPlainName(a) && IsPlainName(b)
    ensures SpecsOf(FailingPr([a, b]), [a, b], 2, WorldWith(NoWorkflow)) == SpecsFor([a, b])
  {
    var pr, names, w := FailingPr([a, b]), [a, b], WorldWith(NoWorkflow);
    assert LogOf(pr, a, w) == NoLog && LogOf(pr, b, w) == NoLog;
    hide LogOf, DetailsUrl;
    assert SpecsOf(pr, names, 0, w) == SpecsFor([]);
    assert SpecsOf(pr, names, 1, w) == SpecsFor([] + [a]);
    assert [] + [a] == [a] && [a] + [b] == [a, b];
  }

  lemma BothAreRepaired(rows: seq<Row>, a: string, b: string)
    requires IsPlainName(a) && IsPlainName(b)
    ensures Perform(rows, RepairOf([a, b]), FailingPr([a, b]), SomeFacts([a, b]), 100, WorldWith(NoWorkflow)).rows
            == SubmitShared(rows, FailingPr([a, b]), [a, b], 100, WorldWith(NoWorkflow)).rows
  {
    BothHaveEvidence(a, b);
    hide SpecsOf, SubmitShared, RepairOne, SomeFacts;
  }

  /** The ledger between the two ticks: the second check at its cap, the first one untouched. */
  lemma CappedLedger(a: string, b: string)
    requires a != b
    ensures var rows := [FastStart(b, 0, "wf-1")];
            && FreshUnit(rows, UnitOfCheck(a), 100) && FreshUnit(rows, UnitOfCheck(b), 100) && OnlyRepairs(rows)
            && CodeAttempts(rows, UnitOfCheck(b)) == 1 && Gate(rows, UnitOfCheck(b), 100, 1, NO_ANSWERS) == Cap
            && Gate(rows, UnitOfCheck(a), 100, 1, NO_ANSWERS).Pass?
  {
    var start := FastStart(b, 0, "wf-1");
    assert Hits(Starts(UnitOfCheck(b)), start) && start.epoch == 0 && OnlyRepairs([start]) && NotAfter([start], 100);
    assert UnitOfCheck(a) != UnitOfCheck(b);
    hide FastStart, UnitOfCheck, CodeAttempts, Latest, ResetFloor, Gate, Monotone, Hits, OnlyRepairs;
    FirstAttempt(UnitOfCheck(b), start);
    OthersStart(start, UnitOfCheck(b), UnitOfCheck(a));
    TwoInOrder(start, start);
    GateOpensFresh([start], UnitOfCheck(a), 100, 1, NO_ANSWERS);
    GateCaps([start], UnitOfCheck(b), 100, 1, NO_ANSWERS);
  }

  lemma QuietPass(check: string)
    ensures FastPass([FastStart(check, 0, "wf-1")], 100, OwnerSaying(None)).rows == [FastStart(check, 0, "wf-1")]
  {
    assert FastLoop([FastStart(check, 0, "wf-1")], 0, 100, OwnerSaying(None))
           == PassState([FastStart(check, 0, "wf-1")], false);
  }

  lemma TickFilesBoth(rows: seq<Row>, a: string, b: string, l: Limits)
    requires IsPlainName(a) && IsPlainName(b) && OnlyRepairs(rows)
    requires rows == FastPass(rows, 100, OwnerSaying(None)).rows
    requires Gate(rows, UnitOfCheck(a), 100, l.maxRepair, NO_ANSWERS).Pass?
    ensures Cycle(History(rows, map[]), TickAt([], 100, [a, b], NoWorkflow, None), l).history.rows
            == SubmitShared(rows, FailingPr([a, b]), [a, b], 100, WorldWith(NoWorkflow)).rows
  {
    BothAreRepaired(rows, a, b);
    assert CheckUnit(FailingPr([a, b]), a) == UnitOfCheck(a) && !IsQueueOnly(a);
    hide Cycle, Gate, Perform, FastPass, TickAt, SomeFacts, FailingPr, OwnerSaying, WorldWith, CheckUnit, SubmitShared,
         OnlyRepairs, UnitOfCheck, IsQueueOnly;
    assert rows == rows + [];
    TickRepairs(History(rows, map[]), [], rows, 100, [a, b], NoWorkflow, None, l, rows, SomeFacts([a, b]));
  }

  lemma SecondSharedTick(a: string, b: string)
    requires IsPlainName(a) && IsPlainName(b) && a != b
    ensures Cycle(History([FastStart(b, 0, "wf-1")], map[]), SharedTicks(a, b)[1], Limits(1, 1)).history.rows
            == SubmitShared([FastStart(b, 0, "wf-1")], FailingPr([a, b]), [a, b], 100, WorldWith(NoWorkflow)).rows
  {
    hide Cycle, Gate, FastPass, TickAt, FailingPr, OwnerSaying, WorldWith, FastStart, SubmitShared, FreshUnit,
         CodeAttempts, OnlyRepairs, UnitOfCheck, IsPlainName;
    QuietPass(b);
    CappedLedger(a, b);
    TickFilesBoth([FastStart(b, 0, "wf-1")], a, b, Limits(1, 1));
  }

  lemma SharedSpendsBoth(rows: seq<Row>, a: string, b: string, now: int, w: World)
    requires FreshUnit(rows, UnitOfCheck(a), now) && FreshUnit(rows, UnitOfCheck(b), now) && a != b
    requires w.submission.Acknowledged?
    ensures CodeAttempts(SubmitShared(rows, FailingPr([a, b]), [a, b], now, w).rows, UnitOfCheck(b))
            == CodeAttempts(rows, UnitOfCheck(b)) + 1
  {
    var names, pr := [a, b], FailingPr([a, b]);
    assert CheckUnit(pr, a) == UnitOfCheck(a) && CheckUnit(pr, b) == UnitOfCheck(b);
    assert Occurrences(names, 0, b) == 0 && Occurrences(names, 1, b) == 0 && Occurrences(names, 2, b) == 1;
    assert names[1] == b;
    hide CodeAttempts, CheckUnit, FreshUnit, SubmitShared, FailingPr, UnitOfCheck;
    assert FreshChecks(rows, pr, names, now);
    SharedFilingKeepsCapsExactlyWhen(rows, pr, names, now, w, 0);
  }

  /** The repair cap fails for the shared workflow. The plan repairs the first check, whose gate
      passes; the second one, at its cap of one and live, is filed with it and then has two attempts. */
  lemma SharedFilingBreaksCap(a: string, b: string)
    requires IsPlainName(a) && IsPlainName(b) && a != b
    ensures var ticks, l := SharedTicks(a, b), Limits(1, 1);
            && Gate(Run(ticks, 1, l).rows, UnitOfCheck(b), 100, l.maxRepair, NO_ANSWERS) == Cap
            && CodeAttempts(Run(ticks, 1, l).rows, UnitOfCheck(b)) == 1
            && CodeAttempts(Run(ticks, 2, l).rows, UnitOfCheck(b)) == 2
  {
    var ticks, l, first := SharedTicks(a, b), Limits(1, 1), History([FastStart(b, 0, "wf-1")], map[]);
    hide Cycle, Gate, TickAt, CodeAttempts, FailingPr, UnitOfCheck, FastStart, FreshUnit, SubmitShared, WorldWith, Run,
         OnlyRepairs;
    CappedLedger(a, b);
    FirstTick(b, 1);
    SecondSharedTick(a, b);
    TwoTicks(ticks, l, first, Cycle(first, ticks[1], l).history);
    assert WorldWith(NoWorkflow).submission.Acknowledged? by { AcknowledgingWorld(NoWorkflow); }
    SharedSpendsBoth(first.rows, a, b, 100, WorldWith(NoWorkflow));
  }

  lemma AcknowledgingWorld(resolve: Resolve)
    ensures WorldWith(resolve).submission.Acknowledged?
  {
  }

  // ----- a check filed as a thread -----

  function MisreadName(thread: string): string { BOT_THREAD_PREFIX + thread }

  function MisreadThread(thread: string): Unit { Unit(RepairBotThread, 1, "head", thread) }

  function MisreadTicks(thread: string): seq<Tick> {
    [TickAt([], 0, [MisreadName(thread)], NoWorkflow, None), TickAt([], 100, [MisreadName(thread)], NoWorkflow, None)]
  }

  function Request(thread: string, now: int): Row { PendingRow(MisreadThread(thread), now, "plan") }

  function ThreadStart(thread: string, now: int): Row {
    StartRow(MisreadThread(thread), now, Some("plan"), Some("wf-9"))
  }

  lemma FiledAsThread(rows: seq<Row>, thread: string, now: int)
    ensures var names := [MisreadName(thread)];
            Perform(rows, RepairOf(names), FailingPr(names), SomeFacts(names), now, WorldWith(NoWorkflow)).rows
            == (rows + [Request(thread, now)]) + [ThreadStart(thread, now)]
  {
    var names := [MisreadName(thread)];
    assert MisreadName(thread)[|BOT_THREAD_PREFIX|..] == thread;
    assert DispatchUnit(FailingPr(names), RepairOf(names)) == MisreadThread(thread);
    hide DispatchUnit;
  }

  function FirstFiling(thread: string): seq<Row> { ([] + [Request(thread, 0)]) + [ThreadStart(thread, 0)] }

  lemma MisreadNames(thread: string)
    ensures !IsQueueOnly(MisreadName(thread)) && UnitOfCheck(MisreadName(thread)) != MisreadThread(thread)
    ensures CheckUnit(FailingPr([MisreadName(thread)]), MisreadName(thread)) == UnitOfCheck(MisreadName(thread))
    ensures forall now :: Hits(Pendings(MisreadThread(thread)), Request(thread, now))
              && Request(thread, now).epoch == now
    ensures forall now :: Hits(Starts(MisreadThread(thread)), ThreadStart(thread, now))
              && ThreadStart(thread, now).epoch == now
  {
    assert MisreadName(thread)[0] == 'b' && QUEUE_ONLY_PREFIX[0] == 'r';
  }

  lemma PassesOverThreads(thread: string)
    ensures FastPass(FirstFiling(thread), 100, OwnerSaying(None)).rows == FirstFiling(thread)
    ensures FastPass([], 0, OwnerSaying(None)).rows == [] && OnlyRepairs([]) && OnlyRepairs(FirstFiling(thread))
    ensures NotAfter([], -1) && NotAfter(FirstFiling(thread), 99) && NotAfter(FirstFiling(thread), 100)
  {
    var rows, o := FirstFiling(thread), OwnerSaying(None);
    assert FastLoop(rows, 0, 100, o) == PassState(rows, false);
    assert FastLoop(rows, 1, 100, o) == PassState(rows, false);
  }

  lemma FirstMisreadFiling(thread: string)
    ensures var u, check, rows := MisreadThread(thread), UnitOfCheck(MisreadName(thread)), FirstFiling(thread);
            && CodeAttempts(rows, u) == 1 && ResetFloor(rows, u) == -1 && Monotone(rows)
            && CodeAttempts(rows, check) == 0 && LatestStart(rows, check).None? && LatestSettle(rows, check).None?
  {
    hide CodeAttempts, ResetFloor, UnitOfCheck, MisreadThread, Request, ThreadStart, Monotone, Latest, Hits;
    var empty: seq<Row> := [];
    var u, check := MisreadThread(thread), UnitOfCheck(MisreadName(thread));
    EmptyLedger(u);
    EmptyLedger(check);
    MisreadNames(thread);
    assert NotAfter(empty, -1);
    FilingSpends(empty, u, Request(thread, 0), ThreadStart(thread, 0));
    FilingIsOthers(empty, u, check, Request(thread, 0), ThreadStart(thread, 0));
  }

  /** After one and two filings of the thread: its count, and the gate of the check. */
  lemma MisreadLedger(thread: string)
    ensures var check, rows := UnitOfCheck(MisreadName(thread)), FirstFiling(thread);
            && Gate(rows, check, 100, 1, NO_ANSWERS).Pass? && CodeAttempts(rows, MisreadThread(thread)) == 1
            && CodeAttempts((rows + [Request(thread, 100)]) + [ThreadStart(thread, 100)], MisreadThread(thread)) == 2
  {
    hide CodeAttempts, Gate, ResetFloor, UnitOfCheck, MisreadThread, Request, ThreadStart, FirstFiling, Monotone,
         Latest, Hits, FastPass, OnlyRepairs, OwnerSaying;
    FirstMisreadFiling(thread);
    MisreadNames(thread);
    PassesOverThreads(thread);
    FilingSpends(FirstFiling(thread), MisreadThread(thread), Request(thread, 100), ThreadStart(thread, 100));
    GateOpensFresh(FirstFiling(thread), UnitOfCheck(MisreadName(thread)), 100, 1, NO_ANSWERS);
  }

  lemma MisreadTick(thread: string, rows: seq<Row>, now: int)
    requires OnlyRepairs(rows) && rows == FastPass(rows, now, OwnerSaying(None)).rows
    requires Gate(rows, UnitOfCheck(MisreadName(thread)), now, 1, NO_ANSWERS).Pass?
    ensures Cycle(History(rows, map[]), TickAt([], now, [MisreadName(thread)], NoWorkflow, None), Limits(1, 1)).history
            == History((rows + [Request(thread, now)]) + [ThreadStart(thread, now)], map[])
  {
    var names := [MisreadName(thread)];
    MisreadNames(thread);
    FiledAsThread(rows, thread, now);
    hide Cycle, Gate, Perform, FastPass, TickAt, SomeFacts, FailingPr, OwnerSaying, WorldWith, CheckUnit, Request,
         ThreadStart,
         MisreadName, MisreadThread, UnitOfCheck, OnlyRepairs, IsQueueOnly, Hits;
    assert rows == rows + [];
    TickRepairs(History(rows, map[]), [], rows, now, names, NoWorkflow, None, Limits(1, 1), rows, SomeFacts(names));
  }

  lemma ItsThreadIsNamed(thread: string)
    ensures NamesItsThread(FailingPr([MisreadName(thread)]), MisreadThread(thread))
  {
  }

  /** A check's name can misdirect its filing. One that begins like a thread's key passes the gate of
      the check every time and is filed on the thread it spells, which so gets over its cap. */
  lemma MisreadCheckBreaksCap(thread: string)
    ensures var ticks, l, u := MisreadTicks(thread), Limits(1, 1), MisreadThread(thread);
            && CodeAttempts(Run(ticks, 1, l).rows, u) == 1 && CodeAttempts(Run(ticks, 2, l).rows, u) == 2
            && NamesItsThread(FailingPr([MisreadName(thread)]), u)
  {
    var ticks, l, first := MisreadTicks(thread), Limits(1, 1), FirstFiling(thread);
    var second := (first + [Request(thread, 100)]) + [ThreadStart(thread, 100)];
    ItsThreadIsNamed(thread);
    MisreadLedger(thread);
    PassesOverThreads(thread);
    assert first == ([] + [Request(thread, 0)]) + [ThreadStart(thread, 0)];
    hide Cycle, TickAt, CodeAttempts, FirstFiling, FailingPr, NamesItsThread, Gate, Request, ThreadStart, MisreadName,
         MisreadThread,
         Run, FastPass, OwnerSaying, OnlyRepairs, UnitOfCheck;
    GateOpensEmpty(UnitOfCheck(MisreadName(thread)), 0, 1, NO_ANSWERS);
    MisreadTick(thread, [], 0);
    MisreadTick(thread, first, 100);
    TwoTicks(ticks, l, History(first, map[]), History(second, map[]));
  }

  // ----- a START repeated in its own second -----

  function Superseding(check: string): Row { SettledRow(UnitOfCheck(check), 0, Superseded, None) }

  function CodeSettle(check: string): Row { SettledRow(UnitOfCheck(check), 0, Code, None) }

  /** Two ticks of one second, behind two settles of that second by another process. */
  function RepeatingTicks(check: string): seq<Tick> {
    [TickAt([Superseding(check), CodeSettle(check)], 0, [check], ResolvedTo("wf-1"), None),
     TickAt([], 0, [check], ResolvedTo("wf-1"), None)]
  }

  lemma RepeatedGates(u: Unit, superseded: Row, code: Row, start: Row)
    requires Hits(Starts(u), start) && Hits(Settles(u), superseded) && Hits(Settles(u), code)
    requires start.epoch == superseded.epoch == code.epoch == 0
    requires superseded.meta.outcome == Some(Superseded) && code.meta.outcome == Some(Code)
    ensures Gate([superseded, code], u, 0, 1, NO_ANSWERS).Pass?
    ensures Gate([superseded, code] + [start], u, 0, 1, NO_ANSWERS).Pass?
    ensures CodeAttempts([superseded, code] + [start], u) == 0
    ensures CodeAttempts(([superseded, code] + [start]) + [start], u) == 2
    ensures Monotone(([superseded, code] + [start]) + [start])
  {
    hide Gate, CodeAttempts, Monotone, Hits;
    var rows := IdenticalStartSpendsTwo(u, start, superseded, code, NO_ANSWERS);
  }

  lemma PassOverSettles(u: Unit, superseded: Row, code: Row, start: Row, o: Owner)
    requires Hits(Starts(u), start) && Hits(Settles(u), superseded) && Hits(Settles(u), code)
    requires start.epoch == superseded.epoch == code.epoch
    ensures FastPass([superseded, code], 0, o).rows == [superseded, code]
    ensures FastPass([superseded, code] + [start], 0, o).rows == [superseded, code] + [start]
  {
    var two, three := [superseded, code], [superseded, code] + [start];
    NewestIsLatest(three, Settles(u), 1);
    assert UnitOf(start) == u;
    hide Latest, Hits;
    assert FastLoop(two, 0, 0, o) == PassState(two, false);
    assert FastLoop(two, 1, 0, o) == PassState(two, false);
    assert FastLoop(three, 0, 0, o) == PassState(three, false);
    assert FastLoop(three, 1, 0, o) == PassState(three, false);
    assert FastLoop(three, 2, 0, o) == PassState(three, false);
  }

  lemma RepeatedRows(check: string)
    ensures var u, start, superseded, code := UnitOfCheck(check), FastStart(check, 0, "wf-1"), Superseding(check),
            CodeSettle(check);
            && Hits(Starts(u), start) && Hits(Settles(u), superseded) && Hits(Settles(u), code)
            && start.epoch == superseded.epoch == code.epoch == 0
            && superseded.meta.outcome == Some(Superseded) && code.meta.outcome == Some(Code)
            && OnlyRepairs([superseded, code]) && OnlyRepairs([superseded, code] + [start])
  {
  }

  lemma RepeatingTick(before: seq<Row>, external: seq<Row>, rows: seq<Row>, check: string)
    requires IsPlainName(check) && OnlyRepairs(rows) && rows == before + external
    requires rows == FastPass(rows, 0, OwnerSaying(None)).rows && Gate(rows, UnitOfCheck(check), 0, 1, NO_ANSWERS).Pass?
    ensures Cycle(History(before, map[]), TickAt(external, 0, [check], ResolvedTo("wf-1"), None), Limits(1, 1)).history
            == History(rows + [FastStart(check, 0, "wf-1")], map[])
  {
    hide Cycle, Gate, FastPass, TickAt, FastStart, UnitOfCheck, OwnerSaying, OnlyRepairs;
    FastTick(before, external, rows, rows, check, 0, "wf-1", None, Limits(1, 1));
  }

  lemma RepeatingRun(check: string)
    requires IsPlainName(check)
    ensures var ticks, l, start := RepeatingTicks(check), Limits(1, 1), FastStart(check, 0, "wf-1");
            && Run(ticks, 1, l) == History([Superseding(check), CodeSettle(check)] + [start], map[])
            && Run(ticks, 2, l) == History(([Superseding(check), CodeSettle(check)] + [start]) + [start], map[])
  {
    hide Cycle, Gate, FastPass, TickAt, FastStart, UnitOfCheck, OwnerSaying, OnlyRepairs, Superseding, CodeSettle,
         CodeAttempts, Monotone, Run, Hits, IsPlainName;
    var u, start := UnitOfCheck(check), FastStart(check, 0, "wf-1");
    var two := [Superseding(check), CodeSettle(check)];
    RepeatedRows(check);
    RepeatedGates(u, Superseding(check), CodeSettle(check), start);
    PassOverSettles(u, Superseding(check), CodeSettle(check), start, OwnerSaying(None));
    assert [] + two == two && (two + [start]) + [] == two + [start];
    RepeatingTick([], two, two, check);
    RepeatingTick(two + [start], [], two + [start], check);
    TwoTicks(RepeatingTicks(check), Limits(1, 1), History(two + [start], map[]),
             History((two + [start]) + [start], map[]));
  }

  /** The repair cap fails within one second. Behind a superseded and a later settle of that second
      the first START spends nothing; the next tick of the second files the same START word for
      word, and both are then counted, over a cap of one. */
  lemma RepeatedStartBreaksCap(check: string)
    requires IsPlainName(check)
    ensures var rows := Run(RepeatingTicks(check), 2, Limits(1, 1)).rows;
            && |rows| == 4 && CodeAttempts(rows[..3], UnitOfCheck(check)) == 0
               && CodeAttempts(rows, UnitOfCheck(check)) == 2
            && Overspends(rows, UnitOfCheck(check), 1, 3)
  {
    var u, start := UnitOfCheck(check), FastStart(check, 0, "wf-1");
    var three := [Superseding(check), CodeSettle(check)] + [start];
    RepeatingRun(check);
    RepeatedRows(check);
    hide Run, RepeatingTicks, FastStart, UnitOfCheck, Superseding, CodeSettle, CodeAttempts, Gate, Monotone,
         OnlyRepairs,
         SpendsTwo;
    RepeatedGates(u, Superseding(check), CodeSettle(check), start);
    assert (three + [start])[..3] == three;
    StartSpendsOneExactlyWhen(three, start, u);
  }
}
