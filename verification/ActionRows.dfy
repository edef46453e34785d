/** Whose the rows of a carried-out action are: the PR, head and moment they name, and the one
    unit they file. */
module ActionRows {
  import opened Wrappers
  import opened LedgerModel
  import opened RetryBudget
  import opened SettlePasses
  import opened StackFactsModel
  import opened Planner
  import opened PlannerSafety
  import opened Dispatch
  import opened LedgerInvariant
  import opened Controller

  ghost predicate OwnRow(r: Row, pr: PrSnapshot, now: int) { r.pr == pr.number && r.head == pr.head && r.epoch == now }

  /** Only rows of this PR, its head and this moment were appended. */
  ghost predicate OwnRows(before: seq<Row>, after: seq<Row>, pr: PrSnapshot, now: int) {
    IsPrefix(before, after) && forall k :: |before| <= k < |after| ==> OwnRow(after[k], pr, now)
  }

  /** No appended row files the unit. */
  ghost predicate FilesNothing(before: seq<Row>, after: seq<Row>, u: Unit) {
    forall k :: |before| <= k < |after| ==> !FilesOn(after[k], u)
  }

  /** The rows a repair leaves, besides the note of a failed dispatch. */
  predicate IsRepairRow(r: Row) {
    || (r.kind.Start? && IsTrackedKind(r.kind.repair)) || r.kind.Pending? || r.kind.PendingSettled?
    || r.kind == RepairNoop || r.kind == QueueOnlyNoop
  }

  ghost predicate OnlyRepairRows(before: seq<Row>, after: seq<Row>) {
    IsPrefix(before, after) && forall k :: |before| <= k < |after| ==> IsRepairRow(after[k])
  }

  // ----- the shared workflow -----

  lemma {:induction false} SpecsAreNames(pr: PrSnapshot, names: seq<string>, n: nat, w: World)
    requires n <= |names|
    ensures SpecsOf(pr, names, n, w).SpecsFor? ==> forall c :: c in SpecsOf(pr, names, n, w).checks ==> c in names
  {
    hide IsQueueOnlyRun, DetailsUrl, LogOf;
    if n > 0 { SpecsAreNames(pr, names, n - 1, w); }
  }

  ghost predicate AllOwnRepairs(rows: seq<Row>, pr: PrSnapshot, now: int) {
    forall k :: 0 <= k < |rows| ==> OwnRow(rows[k], pr, now) && IsRepairRow(rows[k])
  }

  ghost predicate NoneFiles(rows: seq<Row>, u: Unit) {
    forall k :: 0 <= k < |rows| ==> !FilesOn(rows[k], u)
  }

  /** The unit is none of the checks'. */
  ghost predicate NotAmong(u: Unit, pr: PrSnapshot, checks: seq<string>) {
    forall i :: 0 <= i < |checks| ==> u != CheckUnit(pr, checks[i])
  }

  lemma {:induction false} RequestsOfOthers(pr: PrSnapshot, checks: seq<string>, n: nat, now: int, plan: string,
                                            u: Unit)
    requires n <= |checks|
    ensures AllOwnRepairs(PendingRows(pr, checks, n, now, plan), pr, now)
    ensures NotAmong(u, pr, checks) ==> NoneFiles(PendingRows(pr, checks, n, now, plan), u)
  {
    if n > 0 { RequestsOfOthers(pr, checks, n - 1, now, plan, u); }
  }

  lemma {:induction false} UnsentAreNoFilings(pr: PrSnapshot, checks: seq<string>, n: nat, now: int, plan: string,
                                              u: Unit)
    requires n <= |checks|
    ensures AllOwnRepairs(UnsentRows(pr, checks, n, now, plan), pr, now)
    ensures NoneFiles(UnsentRows(pr, checks, n, now, plan), u)
  {
    if n > 0 { UnsentAreNoFilings(pr, checks, n - 1, now, plan, u); }
  }

  lemma {:induction false} StartsOfOtherChecks(pr: PrSnapshot, checks: seq<string>, n: nat, now: int, plan: string,
                                               id: Option<string>, u: Unit)
    requires n <= |checks|
    ensures AllOwnRepairs(StartRows(pr, checks, n, now, plan, id), pr, now)
    ensures NotAmong(u, pr, checks) ==> NoneFiles(StartRows(pr, checks, n, now, plan, id), u)
  {
    if n > 0 { StartsOfOtherChecks(pr, checks, n - 1, now, plan, id, u); }
  }

  lemma SharedAppends(rows: seq<Row>, pr: PrSnapshot, checks: seq<string>, now: int, w: World, u: Unit)
    requires checks != []
    ensures var after := SubmitShared(rows, pr, checks, now, w).rows;
            OwnRows(rows, after, pr, now) && OnlyRepairRows(rows, after)
              && (NotAmong(u, pr, checks) ==> FilesNothing(rows, after, u))
  {
    hide OwnRow, FilesOn, NotAmong, IsRepairRow;
    var plan := w.submittedPlan(CheckUnit(pr, checks[0]));
    RequestsOfOthers(pr, checks, |checks|, now, plan, u);
    UnsentAreNoFilings(pr, checks, |checks|, now, plan, u);
    var requested := rows + PendingRows(pr, checks, |checks|, now, plan);
    var after := SubmitShared(rows, pr, checks, now, w).rows;
    match w.submission
    case SubmitRaises => assert after == requested + UnsentRows(pr, checks, |checks|, now, plan);
    case Acknowledged(id) =>
      StartsOfOtherChecks(pr, checks, |checks|, now, plan, id, u);
      assert after == requested + StartRows(pr, checks, |checks|, now, plan, id);
  }

  lemma RepairSharedAppends(rows: seq<Row>, pr: PrSnapshot, key: string, names: seq<string>, now: int, w: World,
                            u: Unit)
    ensures var after := RepairShared(rows, pr, key, names, now, w).rows;
            OwnRows(rows, after, pr, now) && OnlyRepairRows(rows, after)
              && (NotAmong(u, pr, names) ==> FilesNothing(rows, after, u))
  {
    hide SubmitShared;
    SpecsAreNames(pr, names, |names|, w);
    match SpecsOf(pr, names, |names|, w)
    case SpecsRaise =>
    case SpecsInvalid =>
    case SpecsFor(checks) =>
      if checks != [] {
        SharedAppends(rows, pr, checks, now, w, u);
        if NotAmong(u, pr, names) {
          forall i | 0 <= i < |checks|
            ensures u != CheckUnit(pr, checks[i])
          {
            assert checks[i] in checks;
          }
        }
      }
  }

  // ----- every other action -----

  lemma SubmitAppends(rows: seq<Row>, pr: PrSnapshot, filed: Unit, now: int, w: World, u: Unit)
    requires filed.pr == pr.number && filed.head == pr.head
    ensures var after := Submit(rows, filed, now, w).rows;
            OwnRows(rows, after, pr, now) && (IsTrackedKind(filed.kind) ==> OnlyRepairRows(rows, after))
              && (u != filed ==> FilesNothing(rows, after, u))
  {
  }

  lemma FastStartAppends(rows: seq<Row>, pr: PrSnapshot, filed: Unit, now: int, id: string, u: Unit)
    requires filed.pr == pr.number && filed.head == pr.head
    ensures var after := rows + [StartRow(filed, now, None, Some(id))];
            OwnRows(rows, after, pr, now) && (IsTrackedKind(filed.kind) ==> OnlyRepairRows(rows, after))
              && (u != filed ==> FilesNothing(rows, after, u))
  {
  }

  lemma PlainAppends(rows: seq<Row>, pr: PrSnapshot, kind: Kind, key: string, now: int, u: Unit)
    requires !kind.Start? && !kind.Pending?
    ensures var after := rows + [Plain(kind, pr, key, now)];
            OwnRows(rows, after, pr, now)
              && (kind == RepairNoop || kind == QueueOnlyNoop ==> OnlyRepairRows(rows, after))
                 && FilesNothing(rows, after, u)
  {
  }

  lemma RepairOneAppends(rows: seq<Row>, pr: PrSnapshot, check: string, now: int, w: World, u: Unit)
    ensures var after := RepairOne(rows, pr, check, now, w).rows;
            OwnRows(rows, after, pr, now) && OnlyRepairRows(rows, after)
              && (u != CheckUnit(pr, check) ==> FilesNothing(rows, after, u))
  {
    hide Submit, LogOf, IsQueueOnlyRun, DetailsUrl, Plain;
    SubmitAppends(rows, pr, CheckUnit(pr, check), now, w, u);
    PlainAppends(rows, pr, RepairNoop, check, now, u);
    PlainAppends(rows, pr, QueueOnlyNoop, check, now, u);
  }

  /** A repair of a check files that check, or the failing ones together where they are several. */
  lemma CheckAppends(rows: seq<Row>, pr: PrSnapshot, check: string, now: int, w: World, u: Unit)
    ensures var after := RepairNamedCheck(rows, pr, check, now, w).rows;
            OwnRows(rows, after, pr, now) && OnlyRepairRows(rows, after)
              && (u != CheckUnit(pr, check) && !FiledShared(pr, u) ==> FilesNothing(rows, after, u))
  {
    hide RepairOne, RepairShared, StartRow;
    if w.resolve.ResolvedTo? { FastStartAppends(rows, pr, CheckUnit(pr, check), now, w.resolve.id, u); }
    if SeveralFailing(pr) {
      RepairSharedAppends(rows, pr, check, pr.latest.value.failingChecks, now, w, u);
    } else {
      RepairOneAppends(rows, pr, check, now, w, u);
    }
  }

  lemma RebaseAppends(rows: seq<Row>, pr: PrSnapshot, now: int, w: World, u: Unit)
    ensures var after := Rebase(rows, pr, now, w).rows;
            OwnRows(rows, after, pr, now) && OnlyRepairRows(rows, after)
              && (u != RebaseUnit(pr) ==> FilesNothing(rows, after, u))
  {
    hide Submit, StartRow, RebaseKey;
    SubmitAppends(rows, pr, RebaseUnit(pr), now, w, u);
    if w.resolve.ResolvedTo? { FastStartAppends(rows, pr, RebaseUnit(pr), now, w.resolve.id, u); }
  }

  lemma AnnouncedAppends(rows: seq<Row>, e: Effect, pr: PrSnapshot, kindName: string, now: int, w: World, u: Unit)
    requires OwnRows(rows, e.rows, pr, now)
    ensures var after := Announced(e, pr, kindName, now, w).rows;
            OwnRows(rows, after, pr, now) && (FilesNothing(rows, e.rows, u) ==> FilesNothing(rows, after, u))
  {
  }

  lemma ExecuteAppends(rows: seq<Row>, a: Action, pr: PrSnapshot, facts: StackFacts, now: int, w: World, u: Unit)
    ensures var after := Execute(rows, a, pr, facts, now, w).rows;
            OwnRows(rows, after, pr, now) && FilesNothing(rows, after, u)
  {
    hide Describe;
  }

  /** The unit the action itself files, if any. */
  function FiledUnit(pr: PrSnapshot, a: Action): Unit {
    if a.kind == EscalateRequeueStuck then Unit(RequeueEscalation, pr.number, pr.head, a.key) else DispatchUnit(pr, a)
  }

  /** Whatever the outside answers, an action appends rows of its own PR, head and moment, and files
      no unit but its own and those of a shared workflow; one that is no repair and no escalation
      files nothing. */
  lemma PerformAppends(rows: seq<Row>, a: Action, pr: PrSnapshot, facts: StackFacts, now: int, w: World, u: Unit)
    ensures var after := Perform(rows, a, pr, facts, now, w).rows;
            && OwnRows(rows, after, pr, now)
            && ((!IsRepair(a) && a.kind != EscalateRequeueStuck) || (u != FiledUnit(pr, a) && !FiledShared(pr, u)) ==>
                FilesNothing(rows, after, u))
  {
    hide RepairNamedCheck, Submit, Execute, Rebase, Announced, OwnRows, FilesNothing, FiledShared;
    if a.kind == RepairCheckAction {
      var e := if BOT_THREAD_PREFIX <= a.key then Submit(rows, DispatchUnit(pr, a), now, w)
      else RepairNamedCheck(rows, pr, a.key, now, w);
      SubmitAppends(rows, pr, DispatchUnit(pr, a), now, w, u);
      CheckAppends(rows, pr, a.key, now, w, u);
      AnnouncedAppends(rows, e, pr, "repair_check", now, w, u);
    } else if a.kind == RebaseOntoMasterAction {
      RebaseAppends(rows, pr, now, w, u);
      AnnouncedAppends(rows, Rebase(rows, pr, now, w), pr, "rebase_onto_master", now, w, u);
    } else if a.kind == EscalateRequeueStuck {
      SubmitAppends(rows, pr, FiledUnit(pr, a), now, w, u);
      AnnouncedAppends(rows, Escalate(rows, a, pr, now, w), pr, "escalate_requeue_stuck", now, w, u);
    } else {
      ExecuteAppends(rows, a, pr, facts, now, w, u);
    }
  }
}
