/** Every run keeps the invariant of a repair unit; what that means for budgets and attempts, and
    what stands behind each landing, crash and released claim of a run. */
module RunSafety {
  import opened Wrappers
  import opened LedgerModel
  import opened RetryBudget
  import opened RetryGate
  import opened SettlePasses
  import opened StackFactsModel
  import opened Planner
  import opened PlannerSafety
  import opened LandingSafety
  import opened Dispatch
  import opened FilingClaims
  import opened LedgerInvariant
  import opened Controller
  import opened ActionRows

  // ----- the settle passes -----

  lemma FastPassAppendsSettles(rows: seq<Row>, now: int, o: Owner)
    ensures var after := FastPass(rows, now, o).rows;
            IsPrefix(rows, after) && forall k :: |rows| <= k < |after| ==>
                                       after[k].kind.Settled? && after[k].epoch == now
  {
    FastLoopWork(rows, |rows|, now, o);
    hide FastLoop, FastCause;
    var after := FastPass(rows, now, o).rows;
    assert forall k :: |rows| <= k < |after| ==> FastJustified(after[k], rows, now, o);
  }

  lemma FastPassKeeps(h: History, now: int, o: Owner, u: Unit, max: nat)
    requires UnitInvariant(h, u, max) && NotAfter(h.rows, now)
    ensures var rows := FastPass(h.rows, now, o).rows;
            NotAfter(rows, now) && UnitInvariant(h.(rows := rows), u, max)
  {
    var rows := FastPass(h.rows, now, o).rows;
    assert Monotone(h.rows);
    hide FastPass, UnitInvariant, Monotone;
    FastPassAppendsSettles(h.rows, now, o);
    RowsOfNow(h.rows, rows, now);
    OtherRowsKeep(h, rows, u, max);
  }

  /** Answering one request of the list keeps the invariant of every unit. */
  lemma AnswerKeeps(h: History, i: nat, now: int, o: Owner, workflows: seq<Workflow>, u: Unit, max: nat)
    requires UnitInvariant(h, u, max) && NotAfter(h.rows, now) && i < |h.rows| && IsPendingRequest(h.rows[i])
    requires !Answered(h.rows, h.rows[i])
    ensures UnitInvariant(Extended(h, AnswerRow(h.rows[i], now, o, workflows)), u, max)
  {
    hide UnitInvariant, NameMatch, RequestedPlan, Latest;
    var a := AnswerRow(h.rows[i], now, o, workflows);
    if FilesOn(a, u) {
      assert UnitOf(h.rows[i]) == u;
      AcknowledgementKeeps(h, i, a, u, max);
    } else {
      OtherRowKeeps(h, a, u, max);
    }
  }

  lemma {:induction false} AnswersKeep(h: History, n: nat, now: int, o: Owner, workflows: seq<Workflow>, u: Unit,
                                       max: nat)
    requires n <= |h.rows| && UnitInvariant(h, u, max) && NotAfter(h.rows, now)
    ensures var rows := PendingLoop(h.rows, n, now, o, workflows);
            IsPrefix(h.rows, rows) && NotAfter(rows, now) && UnitInvariant(h.(rows := rows), u, max)
  {
    hide UnitInvariant, Answered, AnswerRow;
    if n > 0 {
      AnswersKeep(h, n - 1, now, o, workflows, u, max);
      var rows, r := PendingLoop(h.rows, n - 1, now, o, workflows), h.rows[n - 1];
      assert rows[n - 1] == r;
      if IsPendingRequest(r) && !Answered(rows, r) {
        AnswerKeeps(h.(rows := rows), n - 1, now, o, workflows, u, max);
        AnswerIsAnAnswer(r, now, o, workflows);
      }
    }
  }

  lemma PlanPassKeeps(h: History, now: int, o: Owner, u: Unit, max: nat)
    requires UnitInvariant(h, u, max) && NotAfter(h.rows, now)
    ensures var rows := PlanPass(h.rows, now, o).rows;
            NotAfter(rows, now) && UnitInvariant(h.(rows := rows), u, max)
  {
    assert Monotone(h.rows);
    PlanPassOrdered(h.rows, now, o);
    if o.workflows.Some? {
      hide UnitInvariant, StartStep, PendingLoop, Monotone;
      var answered, rows := PendingLoop(h.rows, |h.rows|, now, o, o.workflows.value), PlanPass(h.rows, now, o).rows;
      AnswersKeep(h, |h.rows|, now, o, o.workflows.value, u, max);
      StartLoopWork(h.rows, answered, |h.rows|, now, o, o.workflows.value);
      OtherRowsKeep(h.(rows := answered), rows, u, max);
    }
  }

  // ----- filing a unit behind its gate -----

  /** The crash behind a filing, confirmed by what the outside answers. */
  ghost predicate Confirms(rows: seq<Row>, u: Unit, crash: Option<Oracles>) {
    crash.Some? && CrashedOnInfra(rows, u, crash.value)
  }

  /** The unit may be filed now: budget left, and its previous attempt over. */
  ghost predicate MayFile(rows: seq<Row>, u: Unit, now: int, crash: Option<Oracles>, max: nat) {
    CodeAttempts(rows, u) < max && PreviousAttemptOver(rows, u, now, Confirms(rows, u, crash))
  }

  /** The filings of the unit among the rows to come are marked with the crash behind them. */
  ghost predicate IsMarked(h: History, after: seq<Row>, u: Unit, crash: Option<Oracles>) {
    crash.Some? ==> forall k :: |h.rows| <= k < |after| && FilesOn(after[k], u) ==>
                      k in h.crashed && h.crashed[k] == crash.value
  }

  lemma FilingKeeps(h: History, r: Row, u: Unit, crash: Option<Oracles>, max: nat)
    requires UnitInvariant(h, u, max) && NotAfter(h.rows, r.epoch) && FilesOn(r, u)
    requires MayFile(h.rows, u, r.epoch, crash, max) && IsMarked(h, h.rows + [r], u, crash)
    ensures UnitInvariant(Extended(h, r), u, max)
  {
    hide UnitInvariant, CodeAttempts, CrashedOnInfra, Latest;
    assert h.rows[..|h.rows|] == h.rows;
    GatedFilingKeeps(h, r, u, max);
  }

  lemma RequestKeepsMayFile(rows: seq<Row>, u: Unit, r: Row, now: int, crash: Option<Oracles>, max: nat)
    requires MayFile(rows, u, now, crash, max) && Hits(Pendings(u), r)
    ensures MayFile(rows + [r], u, now, crash, max)
  {
    OtherRowKeepsBudget(rows, r, u);
    AppendStep(rows, r, Starts(u));
    AppendStep(rows, r, Settles(u));
  }

  lemma SubmitKeeps(h: History, u: Unit, now: int, w: World, crash: Option<Oracles>, max: nat)
    requires UnitInvariant(h, u, max) && NotAfter(h.rows, now) && MayFile(h.rows, u, now, crash, max)
    requires IsMarked(h, Submit(h.rows, u, now, w).rows, u, crash)
    ensures UnitInvariant(h.(rows := Submit(h.rows, u, now, w).rows), u, max)
  {
    hide MayFile, UnitInvariant;
    var plan, after := w.submittedPlan(u), Submit(h.rows, u, now, w).rows;
    var request := PendingRow(u, now, plan);
    assert after[|h.rows|] == request;
    FilingKeeps(h, request, u, crash, max);
    var requested := Extended(h, request);
    match w.submission
    case SubmitRaises => OtherRowKeeps(requested, UnsentRow(u, now, plan), u, max);
    case Acknowledged(id) =>
      RequestKeepsMayFile(h.rows, u, request, now, crash, max);
      assert after[|h.rows| + 1] == StartRow(u, now, Some(plan), id);
      FilingKeeps(requested, StartRow(u, now, Some(plan), id), u, crash, max);
  }

  lemma RepairOneKeeps(h: History, pr: PrSnapshot, check: string, now: int, w: World, u: Unit, crash: Option<Oracles>,
                       max: nat)
    requires UnitInvariant(h, u, max) && NotAfter(h.rows, now) && u == CheckUnit(pr, check)
    requires MayFile(h.rows, u, now, crash, max)
    requires IsMarked(h, RepairOne(h.rows, pr, check, now, w).rows, u, crash)
    ensures UnitInvariant(h.(rows := RepairOne(h.rows, pr, check, now, w).rows), u, max)
  {
    hide MayFile, UnitInvariant, Submit, LogOf, IsQueueOnlyRun, DetailsUrl;
    var rows := RepairOne(h.rows, pr, check, now, w).rows;
    OtherRowKeeps(h, Plain(RepairNoop, pr, check, now), u, max);
    OtherRowKeeps(h, Plain(QueueOnlyNoop, pr, check, now), u, max);
    if rows == Submit(h.rows, u, now, w).rows { SubmitKeeps(h, u, now, w, crash, max); }
  }

  lemma FastStartKeeps(h: History, u: Unit, now: int, id: string, crash: Option<Oracles>, max: nat)
    requires UnitInvariant(h, u, max) && NotAfter(h.rows, now) && MayFile(h.rows, u, now, crash, max)
    requires IsMarked(h, h.rows + [StartRow(u, now, None, Some(id))], u, crash)
    ensures UnitInvariant(h.(rows := h.rows + [StartRow(u, now, None, Some(id))]), u, max)
  {
    hide MayFile, UnitInvariant;
    FilingKeeps(h, StartRow(u, now, None, Some(id)), u, crash, max);
  }

  /** Rows of this moment that do not file the unit. */
  lemma OwnRowsKeep(h: History, rows: seq<Row>, pr: PrSnapshot, now: int, u: Unit, max: nat)
    requires UnitInvariant(h, u, max) && NotAfter(h.rows, now) && OwnRows(h.rows, rows, pr, now)
    requires FilesNothing(h.rows, rows, u)
    ensures UnitInvariant(h.(rows := rows), u, max)
  {
    RowsOfNow(h.rows, rows, now);
    hide UnitInvariant;
    OtherRowsKeep(h, rows, u, max);
  }

  lemma CheckKeeps(h: History, pr: PrSnapshot, check: string, now: int, w: World, u: Unit, crash: Option<Oracles>,
                   max: nat)
    requires UnitInvariant(h, u, max) && NotAfter(h.rows, now) && u == CheckUnit(pr, check) && !FiledShared(pr, u)
    requires MayFile(h.rows, u, now, crash, max)
    requires IsMarked(h, RepairNamedCheck(h.rows, pr, check, now, w).rows, u, crash)
    ensures UnitInvariant(h.(rows := RepairNamedCheck(h.rows, pr, check, now, w).rows), u, max)
  {
    assert SeveralFailing(pr) ==> NotAmong(u, pr, pr.latest.value.failingChecks);
    hide MayFile, UnitInvariant, IsMarked, RepairOne, RepairShared, OwnRows, FilesNothing, StartRow, NotAmong;
    assert h.(rows := h.rows) == h;
    if w.resolve.ResolvedTo? && w.resolve.id != "" {
      if w.fastAccepted { FastStartKeeps(h, u, now, w.resolve.id, crash, max); }
    } else if !w.resolve.ResolveRaises? {
      if SeveralFailing(pr) {
        var names := pr.latest.value.failingChecks;
        RepairSharedAppends(h.rows, pr, check, names, now, w, u);
        OwnRowsKeep(h, RepairShared(h.rows, pr, check, names, now, w).rows, pr, now, u, max);
      } else {
        RepairOneKeeps(h, pr, check, now, w, u, crash, max);
      }
    }
  }

  lemma RebaseKeeps(h: History, pr: PrSnapshot, now: int, w: World, u: Unit, crash: Option<Oracles>, max: nat)
    requires UnitInvariant(h, u, max) && NotAfter(h.rows, now) && u == RebaseUnit(pr)
    requires MayFile(h.rows, u, now, crash, max) && IsMarked(h, Rebase(h.rows, pr, now, w).rows, u, crash)
    ensures UnitInvariant(h.(rows := Rebase(h.rows, pr, now, w).rows), u, max)
  {
    hide MayFile, UnitInvariant, Submit, IsMarked, StartRow, RebaseKey;
    assert h.(rows := h.rows) == h;
    if Rebase(h.rows, pr, now, w) == Submit(h.rows, u, now, w) {
      SubmitKeeps(h, u, now, w, crash, max);
    } else if w.resolve.ResolvedTo? && w.fastAccepted {
      FastStartKeeps(h, u, now, w.resolve.id, crash, max);
    }
  }

  lemma AnnouncedKeeps(h: History, e: Effect, pr: PrSnapshot, kindName: string, now: int, w: World, u: Unit, max: nat)
    requires UnitInvariant(h.(rows := e.rows), u, max) && NotAfter(e.rows, now)
    ensures UnitInvariant(h.(rows := Announced(e, pr, kindName, now, w).rows), u, max)
  {
    hide UnitInvariant, CountHits;
    OtherRowKeeps(h.(rows := e.rows), Plain(DispatchFailed, pr, kindName, now), u, max);
  }

  lemma MarkedBeforeAnnouncement(h: History, e: Effect, pr: PrSnapshot, kindName: string, now: int, w: World, u: Unit,
                                 crash: Option<Oracles>)
    requires IsMarked(h, Announced(e, pr, kindName, now, w).rows, u, crash)
    ensures IsMarked(h, e.rows, u, crash)
  {
    var after := Announced(e, pr, kindName, now, w).rows;
    assert forall k :: 0 <= k < |e.rows| ==> after[k] == e.rows[k];
  }

  lemma OwnRowsAreNotAfter(before: seq<Row>, after: seq<Row>, pr: PrSnapshot, now: int)
    requires NotAfter(before, now) && OwnRows(before, after, pr, now)
    ensures NotAfter(after, now)
  {
    forall k | 0 <= k < |after|
      ensures after[k].epoch <= now
    {
      if k < |before| { assert after[k] == before[k]; }
    }
  }

  /** Carrying out a repair on the unit its gate let through keeps the unit's invariant, whether
      or not the dispatch fails. */
  lemma RepairKeeps(h: History, a: Action, pr: PrSnapshot, facts: StackFacts, now: int, w: World, u: Unit,
                    crash: Option<Oracles>, max: nat)
    requires UnitInvariant(h, u, max) && NotAfter(h.rows, now) && IsRepair(a) && u == DispatchUnit(pr, a)
    requires !FiledShared(pr, u)
    requires MayFile(h.rows, u, now, crash, max) && IsMarked(h, Perform(h.rows, a, pr, facts, now, w).rows, u, crash)
    ensures UnitInvariant(h.(rows := Perform(h.rows, a, pr, facts, now, w).rows), u, max)
  {
    hide UnitInvariant, MayFile, IsMarked, RepairNamedCheck, Rebase, Submit, FiledShared, Announced, OwnRows;
    if a.kind == RebaseOntoMasterAction {
      var e := Rebase(h.rows, pr, now, w);
      MarkedBeforeAnnouncement(h, e, pr, "rebase_onto_master", now, w, u, crash);
      RebaseKeeps(h, pr, now, w, u, crash, max);
      RebaseAppends(h.rows, pr, now, w, u);
      OwnRowsAreNotAfter(h.rows, e.rows, pr, now);
      AnnouncedKeeps(h, e, pr, "rebase_onto_master", now, w, u, max);
    } else {
      var e := if BOT_THREAD_PREFIX <= a.key then Submit(h.rows, u, now, w)
      else RepairNamedCheck(h.rows, pr, a.key, now, w);
      MarkedBeforeAnnouncement(h, e, pr, "repair_check", now, w, u, crash);
      if BOT_THREAD_PREFIX <= a.key {
        SubmitKeeps(h, u, now, w, crash, max);
        SubmitAppends(h.rows, pr, u, now, w, u);
      } else {
        CheckKeeps(h, pr, a.key, now, w, u, crash, max);
        CheckAppends(h.rows, pr, a.key, now, w, u);
      }
      OwnRowsAreNotAfter(h.rows, e.rows, pr, now);
      AnnouncedKeeps(h, e, pr, "repair_check", now, w, u, max);
    }
  }

  // ----- one stack -----

  lemma ContextIsBuilt(rows: seq<Row>, t: Tick, stack: StackTick, l: Limits)
    requires stack.prs != [] && Distinct(stack.prs)
    ensures BuiltFrom(PlanningContext(rows, t, stack, l), InputOf(t, stack.prs))
  {
  }

  lemma {:induction false} AddedPrsByNumber(found: map<int, PrSnapshot>, prs: seq<PrSnapshot>, n: nat)
    requires n <= |prs| && forall k :: k in found ==> found[k].number == k
    ensures forall k :: k in AddPrs(found, prs, n) ==> AddPrs(found, prs, n)[k].number == k
  {
    if n > 0 { AddedPrsByNumber(found, prs, n - 1); }
  }

  lemma {:induction false} PrsAreByNumber(stacks: seq<StackTick>, n: nat)
    requires n <= |stacks|
    ensures forall k :: k in PrsByNumber(stacks, n) ==> PrsByNumber(stacks, n)[k].number == k
  {
    if n > 0 {
      PrsAreByNumber(stacks, n - 1);
      AddedPrsByNumber(PrsByNumber(stacks, n - 1), stacks[n - 1].prs, |stacks[n - 1].prs|);
    }
  }

  lemma TheSnapshot(t: Tick, s: nat, i: nat, number: int)
    requires OneSnapshot(t, number) && s < |t.stacks| && i < |t.stacks[s].prs| && t.stacks[s].prs[i].number == number
    ensures number in AllPrs(t) && AllPrs(t)[number] == t.stacks[s].prs[i]
  {
  }

  /** A check a plan repairs under a thread's name is named in the snapshot. */
  lemma MisreadIsNamed(c: Context, s: StackInput, i: nat, a: Action)
    requires BuiltFrom(c, s) && i < |s.prs| && IsMisread(c, s.prs[i], a)
    ensures NamesItsThread(s.prs[i], DispatchUnit(s.prs[i], a))
  {
    var pr := s.prs[i];
    assert BOT_THREAD_PREFIX + a.key[|BOT_THREAD_PREFIX|..] == a.key;
    if !(DequeuedAtHead(pr) && a.key in pr.latest.value.failingChecks) {
      hide BuiltFrom, BuildFacts;
      var j :| 0 <= j < |BlockersFor(c.facts, pr)| && BlockersFor(c.facts, pr)[j].kind == FailedCheck
        && BlockersFor(c.facts, pr)[j].key == a.key;
      LookupBlockers(c, s, i);
      FailedIsReported(c.rows, pr, s.required, s.trunk, SuppressedFor(c.facts.suppressed, pr), j);
    }
  }

  /** A repair planned for a PR of one snapshot, whose checks are not named like its unit, passed
      the gate of that unit, and ends its planning call with the claim it is carried out under. */
  lemma PlannedRepairWasGated(c: Context, t: Tick, s: nat, a: Action) returns (pr: PrSnapshot)
    requires s < |t.stacks| && BuiltFrom(c, InputOf(t, t.stacks[s].prs)) && IsRepair(a)
    requires PlanActions(c).action == Some(a) && OneSnapshot(t, a.pr)
    requires a.pr in AllPrs(t) ==> !NamesItsThread(AllPrs(t)[a.pr], DispatchUnit(AllPrs(t)[a.pr], a))
    ensures a.pr in AllPrs(t) && pr == AllPrs(t)[a.pr] && pr.number == a.pr
    ensures c.gate(DispatchUnit(pr, a)).Pass? && ClaimFollows(c, pr, PlanActions(c))
    ensures c.filing.claims ==> Grants(PlanActions(c).log) == if IsClaimed(a) then 1 else 0
  {
    PlanKeepsItsPromise(c);
    assert c.facts.prs == t.stacks[s].prs;
    hide PlanActions, DispatchUnit, BuildFacts, BuiltFrom, ClaimFollows, AllPrs, KnownCheck, NamesItsThread,
         OneSnapshot;
    if i :| FiledMisread(c, [], PlanActions(c), i) {
      TheSnapshot(t, s, i, a.pr);
      MisreadIsNamed(c, InputOf(t, t.stacks[s].prs), i, a);
    }
    var i :| FiledRight(c, [], PlanActions(c), i);
    TheSnapshot(t, s, i, a.pr);
    pr := t.stacks[s].prs[i];
  }

  /** A planned repair may be filed: its gate saw budget left and the previous attempt over. */
  lemma PlannedRepairMayBeFiled(rows: seq<Row>, t: Tick, s: nat, l: Limits, a: Action) returns (pr: PrSnapshot)
    requires s < |t.stacks| && t.stacks[s].prs != [] && Distinct(t.stacks[s].prs) && IsRepair(a) && OneSnapshot(t, a.pr)
    requires PlanActions(PlanningContext(rows, t, t.stacks[s], l)).action == Some(a)
    requires a.pr in AllPrs(t) ==> !NamesItsThread(AllPrs(t)[a.pr], DispatchUnit(AllPrs(t)[a.pr], a))
    ensures a.pr in AllPrs(t) && pr == AllPrs(t)[a.pr] && pr.number == a.pr
    ensures MayFile(rows, DispatchUnit(pr, a), t.now, CrashBehind(PlanningContext(rows, t, t.stacks[s], l), pr, a),
                    l.maxRepair)
  {
    hide PlanActions, BuildFacts, GateFor, CodeAttempts, PreviousAttemptOver, AllPrs, NamesItsThread, OneSnapshot;
    ContextIsBuilt(rows, t, t.stacks[s], l);
    pr := PlannedRepairWasGated(PlanningContext(rows, t, t.stacks[s], l), t, s, a);
    var u := DispatchUnit(pr, a);
    GateForPasses(CodeAttempts(rows, u), rows, u, t.now, l.maxRepair, t.stacks[s].oracles);
  }

  lemma MarksAgree(h: History, rows: seq<Row>, u: Unit, v: Unit, crash: Option<Oracles>, max: nat)
    requires UnitInvariant(h, v, max) && IsPrefix(h.rows, rows)
    ensures UnitInvariant(AfterAction(h, rows, u, crash).(rows := h.rows), v, max)
    ensures IsMarked(AfterAction(h, rows, u, crash).(rows := h.rows), rows, u, crash)
  {
    hide UnitInvariant, FilesOn;
    LaterMarksKeep(h, AfterAction(h, rows, u, crash).crashed, v, max);
  }

  /** One planned action of one stack keeps the invariant of a unit whose PR is plain. */
  lemma ActionKeeps(h: History, t: Tick, s: nat, l: Limits, a: Action, u: Unit)
    requires UnitInvariant(h, u, l.maxRepair) && NotAfter(h.rows, t.now) && IsTrackedKind(u.kind) && PlainFor(t, u)
    requires s < |t.stacks| && t.stacks[s].prs != [] && Distinct(t.stacks[s].prs) && a.pr in AllPrs(t)
    requires PlanActions(PlanningContext(h.rows, t, t.stacks[s], l)).action == Some(a)
    ensures var c, pr := PlanningContext(h.rows, t, t.stacks[s], l), AllPrs(t)[a.pr];
            var rows := Perform(h.rows, a, pr, c.facts, t.now, t.stacks[s].world).rows;
            var after := AfterAction(h, rows, DispatchUnit(pr, a), CrashBehind(c, pr, a));
            NotAfter(after.rows, t.now) && UnitInvariant(after, u, l.maxRepair)
  {
    hide UnitInvariant, MayFile, PlanActions, PlanningContext, Perform, OwnRows, FilesNothing, FiledShared,
         NamesItsThread, IsMarked, OneSnapshot, CrashBehind, DispatchUnit;
    var c, pr := PlanningContext(h.rows, t, t.stacks[s], l), AllPrs(t)[a.pr];
    var rows := Perform(h.rows, a, pr, c.facts, t.now, t.stacks[s].world).rows;
    var crash := CrashBehind(c, pr, a);
    PrsAreByNumber(t.stacks, |t.stacks|);
    PerformAppends(h.rows, a, pr, c.facts, t.now, t.stacks[s].world, u);
    OwnRowsAreNotAfter(h.rows, rows, pr, t.now);
    var marked := AfterAction(h, rows, DispatchUnit(pr, a), crash).(rows := h.rows);
    assert IsPrefix(h.rows, rows) by { PrefixOfOwnRows(h.rows, rows, pr, t.now); }
    MarksAgree(h, rows, DispatchUnit(pr, a), u, crash, l.maxRepair);
    assert marked.(rows := rows) == AfterAction(h, rows, DispatchUnit(pr, a), crash);
    if IsRepair(a) && u == DispatchUnit(pr, a) {
      assert u.pr == a.pr by { DispatchedOnItsPr(pr, a); }
      var same := PlannedRepairMayBeFiled(h.rows, t, s, l, a);
      RepairKeeps(marked, a, pr, c.facts, t.now, t.stacks[s].world, u, crash, l.maxRepair);
    } else {
      if FiledShared(pr, u) { assert u.pr == a.pr by { SharedOnItsPr(pr, u); } }
      EscalationIsAnother(pr, a, u);
      OwnRowsKeep(marked, rows, pr, t.now, u, l.maxRepair);
    }
  }

  lemma PrefixOfOwnRows(before: seq<Row>, after: seq<Row>, pr: PrSnapshot, now: int)
    requires OwnRows(before, after, pr, now)
    ensures IsPrefix(before, after)
  {
  }

  lemma DispatchedOnItsPr(pr: PrSnapshot, a: Action)
    ensures DispatchUnit(pr, a).pr == pr.number
  {
  }

  lemma SharedOnItsPr(pr: PrSnapshot, u: Unit)
    requires FiledShared(pr, u)
    ensures u.pr == pr.number
  {
  }

  lemma EscalationIsAnother(pr: PrSnapshot, a: Action, u: Unit)
    requires IsTrackedKind(u.kind)
    ensures FiledUnit(pr, a) == u ==> u == DispatchUnit(pr, a) && a.kind != EscalateRequeueStuck
  {
  }

  lemma StackStepKeeps(s: CycleState, t: Tick, n: nat, l: Limits, u: Unit)
    requires UnitInvariant(s.history, u, l.maxRepair) && NotAfter(s.history.rows, t.now) && IsTrackedKind(u.kind)
    requires PlainFor(t, u) && n < |t.stacks|
    ensures NotAfter(StackStep(s, t, t.stacks[n], l).history.rows, t.now)
    ensures UnitInvariant(StackStep(s, t, t.stacks[n], l).history, u, l.maxRepair)
  {
    hide UnitInvariant, PlanActions, PlanningContext, CrashBehind, Perform, PlainFor, NotAfter, AfterAction, AllPrs,
         DispatchUnit;
    var stack := t.stacks[n];
    if !s.aborted && stack.prs != [] && Distinct(stack.prs) {
      var c := PlanningContext(s.history.rows, t, stack, l);
      if PlanStack(c).action.Some? && PlanStack(c).action.value.pr in AllPrs(t) {
        ActionKeeps(s.history, t, n, l, PlanStack(c).action.value, u);
      }
    }
  }

  // ----- a tick, a run -----

  lemma {:induction false} StackLoopKeeps(h: History, t: Tick, n: nat, l: Limits, u: Unit)
    requires n <= |t.stacks| && UnitInvariant(h, u, l.maxRepair) && NotAfter(h.rows, t.now) && IsTrackedKind(u.kind)
    requires PlainFor(t, u)
    ensures NotAfter(StackLoop(h, t, n, l).history.rows, t.now)
    ensures UnitInvariant(StackLoop(h, t, n, l).history, u, l.maxRepair)
  {
    hide StackStep, UnitInvariant, NotAfter, PlainFor;
    if n > 0 {
      StackLoopKeeps(h, t, n - 1, l, u);
      StackStepKeeps(StackLoop(h, t, n - 1, l), t, n - 1, l, u);
    }
  }

  /** One tick keeps the invariant of the unit, aborted or not, whatever the outside world answers. */
  lemma CycleKeeps(h: History, t: Tick, l: Limits, u: Unit)
    requires UnitInvariant(h, u, l.maxRepair) && GoodTick(h, t, u) && IsTrackedKind(u.kind)
    ensures UnitInvariant(Cycle(h, t, l).history, u, l.maxRepair)
  {
    hide UnitInvariant, StackLoop, FastPass, PlanPass, PlainFor;
    var loaded := h.rows + t.external;
    OtherRowsKeep(h, loaded, u, l.maxRepair);
    FastPassKeeps(h.(rows := loaded), t.now, t.owner, u, l.maxRepair);
    var fast := FastPass(loaded, t.now, t.owner).rows;
    PlanPassKeeps(h.(rows := fast), t.now, t.owner, u, l.maxRepair);
    StackLoopKeeps(h.(rows := PlanPass(fast, t.now, t.owner).rows), t, |t.stacks|, l, u);
  }

  /** Safety over whole runs: the ledger after any run that is good for the unit keeps its invariant. */
  lemma {:induction false} RunKeepsInvariant(ticks: seq<Tick>, n: nat, l: Limits, u: Unit)
    requires n <= |ticks| && GoodRun(ticks, n, l, u) && IsTrackedKind(u.kind)
    ensures UnitInvariant(Run(ticks, n, l), u, l.maxRepair)
  {
    hide Cycle, GoodTick, UnitInvariant;
    if n == 0 {
      InvariantOfEmpty(u, l.maxRepair);
    } else {
      RunKeepsInvariant(ticks, n - 1, l, u);
      CycleKeeps(Run(ticks, n - 1, l), ticks[n - 1], l, u);
    }
  }

  // ----- what the invariant means to an operator -----

  /** Over any run the count of a unit on one head is at most one over the cap, and it keeps the
      cap at every moment if and only if no START found one attempt left and spent two. */
  lemma RetryBudgetOverRuns(ticks: seq<Tick>, n: nat, l: Limits, u: Unit)
    requires n <= |ticks| && GoodRun(ticks, n, l, u) && IsTrackedKind(u.kind)
    ensures var rows := Run(ticks, n, l).rows;
            && CodeAttempts(rows, u) <= l.maxRepair + 1
            && (KeepsBudget(rows, u, l.maxRepair, |rows|) <==> NoneOverspends(rows, u, l.maxRepair, |rows|))
  {
    hide CodeAttempts, Run, GoodRun, KeepsBudget, NoneOverspends, RequestsHaveRoom, OneLiveAttempt;
    var rows := Run(ticks, n, l).rows;
    RunKeepsInvariant(ticks, n, l, u);
    hide Monotone, StartsHadBudget;
    BudgetIsAlmostKept(rows, u, l.maxRepair, |rows|);
    BudgetIsKeptExactlyWhen(rows, u, l.maxRepair, |rows|);
    assert rows[..|rows|] == rows;
  }

  /** What lies between the START at `i` and the filing at `k` of the next one, at `j`: the settle
      of the first attempt, which is the unit's last one before `k` and does not keep the gate
      shut, or the in-flight time, or a crash that was confirmed at `k`. */
  ghost predicate Separated(h: History, u: Unit, i: nat, j: nat, k: nat)
    requires i < j < |h.rows|
  {
    i < k <= j &&
    (|| (exists p :: EndedAt(h.rows[..k], u, i, p))
     || h.rows[j].epoch - h.rows[i].epoch >= REPAIR_IN_FLIGHT_TTL_SECONDS
     || CrashConfirmed(h, u, k))
  }

  /** The START at `j` is the next one of the unit behind the START at `i`. */
  ghost predicate AreConsecutive(rows: seq<Row>, u: Unit, i: nat, j: nat) {
    && i < j < |rows| && Hits(Starts(u), rows[i]) && Hits(Starts(u), rows[j])
    && forall m :: i < m < j ==> !Hits(Starts(u), rows[m])
  }

  lemma LastStartBefore(rows: seq<Row>, u: Unit, i: nat, k: nat)
    requires Monotone(rows) && i < k <= |rows| && Hits(Starts(u), rows[i])
    requires forall m :: i < m < k ==> !Hits(Starts(u), rows[m])
    ensures IsNewest(rows[..k], Starts(u), i)
  {
    forall m | 0 <= m < k && Hits(Starts(u), rows[m])
      ensures m <= i && rows[m].epoch <= rows[i].epoch
    {
      MonotonePairs(rows, m, i);
    }
  }

  lemma ConsecutiveStartsAreSeparated(h: History, u: Unit, max: nat, i: nat, j: nat)
    requires UnitInvariant(h, u, max) && AreConsecutive(h.rows, u, i, j) && ShutsGate(h.rows[..i], u, h.rows[i].epoch)
    ensures exists k: nat :: Separated(h, u, i, j, k)
  {
    hide StartsHadBudget, RequestsHaveRoom, Latest, Monotone, PreviousAttemptOver, ShutsGate, EndedAt, CrashedOnInfra;
    assert HasFiling(h, u, j);
    var k: nat :| k <= j && FiledAt(h, u, k, j);
    LastStartBefore(h.rows, u, i, k);
    assert h.rows[..k][..i] == h.rows[..i];
    OverByPosition(h.rows[..k], u, i, h.rows[k].epoch, CrashConfirmed(h, u, k));
    MonotonePairs(h.rows, k, j);
    assert Separated(h, u, i, j, k);
  }

  /** One live attempt: over any run, a START that shut the gate is over, by its own settle, by
      time or by a confirmed crash, before the next START of its unit is filed. */
  lemma OneLiveAttemptOverRuns(ticks: seq<Tick>, n: nat, l: Limits, u: Unit, i: nat, j: nat)
    requires n <= |ticks| && GoodRun(ticks, n, l, u) && IsTrackedKind(u.kind)
    requires AreConsecutive(Run(ticks, n, l).rows, u, i, j)
    requires ShutsGate(Run(ticks, n, l).rows[..i], u, Run(ticks, n, l).rows[i].epoch)
    ensures exists k: nat :: Separated(Run(ticks, n, l), u, i, j, k)
  {
    hide UnitInvariant, Run, GoodRun, AreConsecutive, ShutsGate, Separated;
    RunKeepsInvariant(ticks, n, l, u);
    ConsecutiveStartsAreSeparated(Run(ticks, n, l), u, l.maxRepair, i, j);
  }

  // ----- what one step of a run did -----

  /** A filing is only marked as crashed where the last attempt of its own unit was confirmed dead:
      not settled, and its workflow known to have failed on infrastructure. */
  lemma CrashedRefilingWasConfirmed(s: CycleState, t: Tick, stack: StackTick, l: Limits, k: nat)
    requires var after := StackStep(s, t, stack, l).history;
             k in after.crashed && (k !in s.history.crashed || after.crashed[k] != s.history.crashed[k])
    ensures var after := StackStep(s, t, stack, l).history;
            && |s.history.rows| <= k < |after.rows| && (after.rows[k].kind.Start? || after.rows[k].kind.Pending?)
            && after.crashed[k] == stack.oracles
            && CrashedOnInfra(s.history.rows, UnitOf(after.rows[k]), stack.oracles)
            && Gate(s.history.rows, UnitOf(after.rows[k]), t.now, l.maxRepair, stack.oracles) == Pass(true)
  {
    hide PlanStack, Perform, BuildFacts, AllPrs, GateFor, CodeAttempts;
    var c := PlanningContext(s.history.rows, t, stack, l);
    var a := PlanStack(c).action.value;
    var u := DispatchUnit(AllPrs(t)[a.pr], a);
    GatePass(s.history.rows, u, t.now, l.maxRepair, stack.oracles);
    assert FilesOn(StackStep(s, t, stack, l).history.rows[k], u);
  }

  predicate IsLandingRow(r: Row) { r.kind == Requeue || r.kind == SquashMerge }

  ghost predicate LandsNothing(before: seq<Row>, after: seq<Row>) {
    forall k :: |before| <= k < |after| ==> !IsLandingRow(after[k])
  }

  lemma AnnouncedLandsNothing(rows: seq<Row>, e: Effect, pr: PrSnapshot, kindName: string, now: int, w: World)
    requires OnlyRepairRows(rows, e.rows)
    ensures LandsNothing(rows, Announced(e, pr, kindName, now, w).rows)
  {
  }

  lemma RepairLandsNothing(rows: seq<Row>, a: Action, pr: PrSnapshot, facts: StackFacts, now: int, w: World)
    requires IsRepair(a)
    ensures LandsNothing(rows, Perform(rows, a, pr, facts, now, w).rows)
  {
    var u := DispatchUnit(pr, a);
    hide Submit, RepairNamedCheck, DispatchUnit, Rebase, Announced, OnlyRepairRows, LandsNothing, OwnRows;
    if a.kind == RebaseOntoMasterAction {
      RebaseAppends(rows, pr, now, w, u);
      AnnouncedLandsNothing(rows, Rebase(rows, pr, now, w), pr, "rebase_onto_master", now, w);
    } else if BOT_THREAD_PREFIX <= a.key {
      assert u.pr == pr.number && u.head == pr.head && IsTrackedKind(u.kind) by { ThreadDispatch(pr, a); }
      SubmitAppends(rows, pr, u, now, w, u);
      AnnouncedLandsNothing(rows, Submit(rows, u, now, w), pr, "repair_check", now, w);
    } else {
      CheckAppends(rows, pr, a.key, now, w, u);
      AnnouncedLandsNothing(rows, RepairNamedCheck(rows, pr, a.key, now, w), pr, "repair_check", now, w);
    }
  }

  lemma ThreadDispatch(pr: PrSnapshot, a: Action)
    ensures var u := DispatchUnit(pr, a); u.pr == pr.number && u.head == pr.head && IsTrackedKind(u.kind)
  {
  }

  lemma EscalationLandsNothing(rows: seq<Row>, a: Action, pr: PrSnapshot, facts: StackFacts, now: int, w: World)
    requires a.kind == EscalateRequeueStuck
    ensures LandsNothing(rows, Perform(rows, a, pr, facts, now, w).rows)
  {
  }

  lemma ExecutedLanding(rows: seq<Row>, a: Action, pr: PrSnapshot, facts: StackFacts, now: int, w: World, k: nat)
    requires |rows| <= k < |Execute(rows, a, pr, facts, now, w).rows|
    requires IsLandingRow(Execute(rows, a, pr, facts, now, w).rows[k])
    ensures a.kind == RequeueAction || a.kind == SquashMergeAction
    ensures Execute(rows, a, pr, facts, now, w).rows[k].pr == pr.number
    ensures Execute(rows, a, pr, facts, now, w).rows[k].head == pr.head
  {
  }

  lemma LandingRowOf(rows: seq<Row>, a: Action, pr: PrSnapshot, facts: StackFacts, now: int, w: World, k: nat)
    requires |rows| <= k < |Perform(rows, a, pr, facts, now, w).rows|
    requires IsLandingRow(Perform(rows, a, pr, facts, now, w).rows[k])
    ensures a.kind == RequeueAction || a.kind == SquashMergeAction
    ensures Perform(rows, a, pr, facts, now, w).rows[k].pr == pr.number
    ensures Perform(rows, a, pr, facts, now, w).rows[k].head == pr.head
  {
    hide Execute, RepairNamedCheck, Rebase, Submit, Announced;
    if IsRepair(a) {
      RepairLandsNothing(rows, a, pr, facts, now, w);
    } else if a.kind == EscalateRequeueStuck {
      EscalationLandsNothing(rows, a, pr, facts, now, w);
    } else {
      ExecutedLanding(rows, a, pr, facts, now, w, k);
    }
  }

  /** Every requeue or squash merge a run records was safe: the row belongs to the bottom PR of
      its stack, which was ready, accepted and unblocked in the snapshots and ledger of that tick. */
  lemma RecordedLandingWasSafe(s: CycleState, t: Tick, n: nat, l: Limits, k: nat)
    requires n < |t.stacks|
    requires var rows := StackStep(s, t, t.stacks[n], l).history.rows;
             |s.history.rows| <= k < |rows| && IsLandingRow(rows[k]) && OneSnapshot(t, rows[k].pr)
    ensures t.stacks[n].prs != []
    ensures var c, row := PlanningContext(s.history.rows, t, t.stacks[n], l),
            StackStep(s, t, t.stacks[n], l).history.rows[k];
            && c.facts.bottom.Some? && PlanActions(c).action.Some?
            && SafeToLand(c, InputOf(t, t.stacks[n].prs), c.facts.bottom.value, PlanActions(c).action.value)
            && row.pr == c.facts.bottom.value.number && row.head == c.facts.bottom.value.head
  {
    hide PlanActions, PlanningContext, Perform, AllPrs, SafeToLand, CrashBehind, OneSnapshot;
    var stack := t.stacks[n];
    var c := PlanningContext(s.history.rows, t, stack, l);
    var a := PlanActions(c).action.value;
    var pr := AllPrs(t)[a.pr];
    LandingRowOf(s.history.rows, a, pr, c.facts, t.now, stack.world, k);
    assert pr.number == a.pr by { NumberedPrs(t, a.pr); }
    ContextIsBuilt(s.history.rows, t, stack, l);
    LandingIsSafe(c, InputOf(t, stack.prs), a);
    BottomIsTheSnapshot(c, t, n, a);
  }

  lemma NumberedPrs(t: Tick, number: int)
    requires number in AllPrs(t)
    ensures AllPrs(t)[number].number == number
  {
    PrsAreByNumber(t.stacks, |t.stacks|);
  }

  lemma BottomIsTheSnapshot(c: Context, t: Tick, n: nat, a: Action)
    requires n < |t.stacks| && BuiltFrom(c, InputOf(t, t.stacks[n].prs)) && c.facts.bottom.Some?
    requires a.pr == c.facts.bottom.value.number
    requires OneSnapshot(t, a.pr)
    ensures a.pr in AllPrs(t) && AllPrs(t)[a.pr] == c.facts.bottom.value
  {
    hide AllPrs, OneSnapshot;
    var i := BottomIsInStack(c, InputOf(t, t.stacks[n].prs));
    TheSnapshot(t, n, i, a.pr);
  }

  /** A failed dispatch gives back the very claim its planning call was granted. */
  lemma FailedDispatchGivesClaimBack(rows: seq<Row>, t: Tick, n: nat, l: Limits, a: Action)
    requires n < |t.stacks| && t.stacks[n].prs != [] && Distinct(t.stacks[n].prs) && OneSnapshot(t, a.pr)
    requires IsClaimed(a) && t.stacks[n].filing.claims
    requires PlanActions(PlanningContext(rows, t, t.stacks[n], l)).action == Some(a)
    ensures a.pr in AllPrs(t)
    ensures var log := PlanActions(PlanningContext(rows, t, t.stacks[n], l)).log;
            && Grants(log) == 1 && log != [] && IsGrant(log[|log| - 1])
            && log[|log| - 1].key in ReleaseKeys(t.stacks[n].filing, AllPrs(t)[a.pr], a)
  {
    assert forall pr: PrSnapshot :: !NamesItsThread(pr, DispatchUnit(pr, a));
    hide PlanActions, DispatchUnit, BuildFacts, AllPrs, ReleaseKeys, Grants, OneSnapshot, NamesItsThread;
    ContextIsBuilt(rows, t, t.stacks[n], l);
    var pr := PlannedRepairWasGated(PlanningContext(rows, t, t.stacks[n], l), t, n, a);
  }

  // ----- the crashes of a run -----

  /** Some stack of the first `n` ticks was answered this in the second the row was written. */
  ghost predicate WasAnswered(ticks: seq<Tick>, n: nat, o: Oracles, epoch: int)
    requires n <= |ticks|
  {
    exists m, i :: 0 <= m < n && 0 <= i < |ticks[m].stacks| && ticks[m].stacks[i].oracles == o && ticks[m].now == epoch
  }

  ghost predicate CrashesWereAnswered(h: History, ticks: seq<Tick>, n: nat)
    requires n <= |ticks|
  {
    forall k :: k in h.crashed ==> k < |h.rows| && WasAnswered(ticks, n, h.crashed[k], h.rows[k].epoch)
  }

  lemma GrownAnswers(h: History, rows: seq<Row>, ticks: seq<Tick>, n: nat)
    requires n <= |ticks| && IsPrefix(h.rows, rows) && CrashesWereAnswered(h, ticks, n)
    ensures CrashesWereAnswered(h.(rows := rows), ticks, n)
  {
    hide WasAnswered;
    assert forall k :: 0 <= k < |h.rows| ==> rows[k] == h.rows[k];
  }

  lemma MarksWereAnswered(h: History, rows: seq<Row>, pr: PrSnapshot, now: int, u: Unit, crash: Option<Oracles>,
                          ticks: seq<Tick>, n: nat)
    requires n <= |ticks| && CrashesWereAnswered(h, ticks, n) && OwnRows(h.rows, rows, pr, now)
    requires crash.Some? ==> WasAnswered(ticks, n, crash.value, now)
    ensures CrashesWereAnswered(AfterAction(h, rows, u, crash), ticks, n)
  {
    GrownAnswers(h, rows, ticks, n);
    hide WasAnswered, FilesOn;
  }

  lemma AnswersOfStack(rows: seq<Row>, t: Tick, stack: StackTick, l: Limits, pr: PrSnapshot, a: Action)
    requires stack.prs != []
    ensures var crash := CrashBehind(PlanningContext(rows, t, stack, l), pr, a);
            crash.Some? ==> crash.value == stack.oracles
  {
    hide BuildFacts, DispatchUnit;
  }

  lemma StepWasAnswered(s: CycleState, ticks: seq<Tick>, m: nat, i: nat, l: Limits)
    requires m < |ticks| && i < |ticks[m].stacks| && CrashesWereAnswered(s.history, ticks, m + 1)
    ensures CrashesWereAnswered(StackStep(s, ticks[m], ticks[m].stacks[i], l).history, ticks, m + 1)
  {
    var t, stack := ticks[m], ticks[m].stacks[i];
    assert WasAnswered(ticks, m + 1, stack.oracles, t.now);
    hide PlanActions, PlanningContext, Perform, AllPrs, WasAnswered, DispatchUnit, OwnRows, FilesNothing, CrashBehind,
         AfterAction, CrashesWereAnswered;
    if !s.aborted && stack.prs != [] && Distinct(stack.prs) {
      var c := PlanningContext(s.history.rows, t, stack, l);
      if PlanStack(c).action.Some? && PlanStack(c).action.value.pr in AllPrs(t) {
        var a := PlanStack(c).action.value;
        var pr, u := AllPrs(t)[a.pr], DispatchUnit(AllPrs(t)[a.pr], a);
        PerformAppends(s.history.rows, a, pr, c.facts, t.now, stack.world, u);
        AnswersOfStack(s.history.rows, t, stack, l, pr, a);
        MarksWereAnswered(s.history, Perform(s.history.rows, a, pr, c.facts, t.now, stack.world).rows, pr, t.now, u,
                          CrashBehind(c, pr, a), ticks, m + 1);
      }
    }
  }

  lemma {:induction false} LoopWasAnswered(h: History, ticks: seq<Tick>, m: nat, n: nat, l: Limits)
    requires m < |ticks| && n <= |ticks[m].stacks| && CrashesWereAnswered(h, ticks, m + 1)
    ensures CrashesWereAnswered(StackLoop(h, ticks[m], n, l).history, ticks, m + 1)
  {
    hide StackStep, CrashesWereAnswered;
    if n > 0 {
      LoopWasAnswered(h, ticks, m, n - 1, l);
      StepWasAnswered(StackLoop(h, ticks[m], n - 1, l), ticks, m, n - 1, l);
    }
  }

  lemma PassesGrow(rows: seq<Row>, now: int, o: Owner)
    ensures IsPrefix(rows, FastPass(rows, now, o).rows) && IsPrefix(rows, PlanPass(rows, now, o).rows)
  {
    hide FastLoop, PendingLoop, StartLoop;
    FastLoopWork(rows, |rows|, now, o);
    if o.workflows.Some? {
      var answered, after := PendingLoop(rows, |rows|, now, o, o.workflows.value), PlanPass(rows, now, o).rows;
      PendingLoopWork(rows, |rows|, now, o, o.workflows.value);
      StartLoopWork(rows, answered, |rows|, now, o, o.workflows.value);
      assert after[..|rows|] == after[..|answered|][..|rows|];
    }
  }

  /** What confirmed a crash over a whole run is an answer some stack got in the very tick that
      wrote the filing. */
  lemma {:induction false} CrashesOverRuns(ticks: seq<Tick>, n: nat, l: Limits)
    requires n <= |ticks|
    ensures CrashesWereAnswered(Run(ticks, n, l), ticks, n)
  {
    hide StackLoop, FastPass, PlanPass;
    if n > 0 {
      CrashesOverRuns(ticks, n - 1, l);
      var h, t := Run(ticks, n - 1, l), ticks[n - 1];
      assert CrashesWereAnswered(h, ticks, n);
      var loaded := h.rows + t.external;
      var fast := FastPass(loaded, t.now, t.owner).rows;
      GrownAnswers(h, loaded, ticks, n);
      PassesGrow(loaded, t.now, t.owner);
      GrownAnswers(h.(rows := loaded), fast, ticks, n);
      PassesGrow(fast, t.now, t.owner);
      GrownAnswers(h.(rows := fast), PlanPass(fast, t.now, t.owner).rows, ticks, n);
      LoopWasAnswered(h.(rows := PlanPass(fast, t.now, t.owner).rows), ticks, n - 1, |t.stacks|, l);
    }
  }
}
