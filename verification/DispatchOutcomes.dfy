/** What an action comes to, outcome by outcome: the exact rows it leaves, and under which answers. */
module DispatchOutcomes {
  import opened Wrappers
  import opened LedgerModel
  import opened RetryBudget
  import opened StackFactsModel
  import opened Planner
  import opened PlannerSafety
  import opened Dispatch

  // ----- a submitted repair -----

  /** A request, then its START where the owner acknowledged it, else its infra settle. */
  ghost predicate Requested(before: seq<Row>, e: Effect, u: Unit, now: int, w: World) {
    var plan := Some(w.submittedPlan(u));
    && |e.rows| == |before| + 2 && e.rows[..|before|] == before && !e.aborted
    && e.rows[|before|] == Row(Pending(u.kind), u.pr, u.head, u.key, now, Meta(None, None, plan, None, 0, ""))
    && e.rows[|before| + 1]
       == (match w.submission
           case Acknowledged(id) =>
             Row(Start(u.kind), u.pr, u.head, u.key, now, Meta(None, id, plan, None, 0, ""))
           case SubmitRaises =>
             Row(PendingSettled(u.kind), u.pr, u.head, u.key, now, Meta(Some(Infra), None, plan, None, 0, "")))
    && (e.failed <==> w.submission.SubmitRaises?)
  }

  lemma SubmitRequests(rows: seq<Row>, u: Unit, now: int, w: World)
    ensures Requested(rows, Submit(rows, u, now, w), u, now, w)
  {
  }

  /** The START of a repair handed to a workflow that is already there. */
  ghost predicate HandedOver(before: seq<Row>, e: Effect, u: Unit, now: int, id: string) {
    && e.rows == before + [Row(Start(u.kind), u.pr, u.head, u.key, now, Meta(None, Some(id), None, None, 0, ""))]
    && !e.failed && !e.aborted
  }

  ghost predicate LeavesNothing(before: seq<Row>, e: Effect, failed: bool) {
    e.rows == before && e.failed == failed && !e.aborted
  }

  /** The outcome is remembered by a row of this kind. */
  ghost predicate Remembered(before: seq<Row>, e: Effect, kind: Kind, pr: PrSnapshot, key: string, now: int) {
    && e.rows == before + [Row(kind, pr.number, pr.head, key, now, Meta(None, None, None, None, 0, ""))]
    && !e.failed && !e.aborted
  }

  // ----- the evidence of a failing check -----

  ghost predicate IsFirstUrlsOf(urls: seq<(string, seq<string>)>, check: string, i: int) {
    0 <= i < |urls| && urls[i].0 == check && forall k :: 0 <= k < i ==> urls[k].0 != check
  }

  lemma {:induction false} FirstUrlIsFirst(urls: seq<(string, seq<string>)>, check: string)
    ensures forall i :: IsFirstUrlsOf(urls, check, i) ==>
              FirstUrl(urls, check) == if |urls[i].1| > 0 then urls[i].1[0] else ""
    ensures (forall i :: 0 <= i < |urls| ==> urls[i].0 != check) ==> FirstUrl(urls, check) == ""
  {
    if urls != [] {
      FirstUrlIsFirst(urls[1..], check);
      assert forall i :: 0 < i < |urls| ==> urls[i] == urls[1..][i - 1];
      if urls[0].0 != check {
        assert forall i :: IsFirstUrlsOf(urls, check, i) ==> IsFirstUrlsOf(urls[1..], check, i - 1);
      }
    }
  }

  /** Where a check's job is found: as GitHub reports it, else as Mergify's event names it first. */
  lemma UrlExactlyWhen(pr: PrSnapshot, check: string)
    ensures var reported := if check in pr.checks then pr.checks[check].detailsUrl else "";
            && (reported != "" ==> DetailsUrl(pr, check) == reported)
            && (reported == "" && pr.latest.None? ==> DetailsUrl(pr, check) == "")
            && (reported == "" && pr.latest.Some? ==>
                  && (forall i :: IsFirstUrlsOf(pr.latest.value.failingCheckUrls, check, i) ==>
                        var urls := pr.latest.value.failingCheckUrls[i].1;
                        DetailsUrl(pr, check) == if |urls| > 0 then urls[0] else "")
                  && ((forall i :: 0 <= i < |pr.latest.value.failingCheckUrls| ==>
                         pr.latest.value.failingCheckUrls[i].0 != check) ==> DetailsUrl(pr, check) == ""))
  {
    if pr.latest.Some? { FirstUrlIsFirst(pr.latest.value.failingCheckUrls, check); }
    hide FirstUrl;
  }

  /** Only the merge queue runs the check, and GitHub does not report it. */
  predicate QueueRunsIt(pr: PrSnapshot, check: string) { check !in pr.checks && "required-fast / " <= check }

  /** The log of the check's job, as far as it can be had. */
  function Evidence(pr: PrSnapshot, check: string, w: World): JobLog {
    if DetailsUrl(pr, check) == "" then NoLog else w.readLog(DetailsUrl(pr, check))
  }

  // ----- one failing check -----

  /** Nothing can be done about a check only the queue runs and whose job Mergify does not name. */
  ghost predicate IsUntraceable(pr: PrSnapshot, check: string) {
    QueueRunsIt(pr, check) && DetailsUrl(pr, check) == ""
  }

  /** The PR body is looked at in a checkout: always for Invoker's own repository, else where the job
      left an empty log. */
  ghost predicate LooksAtBody(pr: PrSnapshot, check: string, w: World) {
    check == "PR Body" && (Evidence(pr, check, w) == BlankLog || !w.foreign)
  }

  /** A check is repaired exactly where its log can be read, and it needs it: for the PR body, the
      checkout works, the PR is open, and an empty log does not go with a valid body; for any
      other check, the PR is open, and one only the queue runs has a log with something in it. */
  lemma OneCheckDecides(rows: seq<Row>, pr: PrSnapshot, check: string, now: int, w: World)
    ensures var e, log := RepairOne(rows, pr, check, now, w), Evidence(pr, check, w);
            var readable := !IsUntraceable(pr, check) && !log.LogRaises?;
            var body := LooksAtBody(pr, check, w);
            if readable && (if body then !w.checkoutRaises && !w.prTerminal && !(log == BlankLog && w.prBodyValid)
                            else !w.prTerminal && (QueueRunsIt(pr, check) ==> log == TextLog))
            then Requested(rows, e, Unit(RepairCheck, pr.number, pr.head, check), now, w)
            else if readable && !body && QueueRunsIt(pr, check) && log != TextLog
            then Remembered(rows, e, QueueOnlyNoop, pr, check, now)
            else if readable && check == "PR Body" && !(body && w.checkoutRaises)
            then Remembered(rows, e, RepairNoop, pr, check, now)
            else LeavesNothing(rows, e, !IsUntraceable(pr, check) && (log.LogRaises? || (body && w.checkoutRaises)))
  {
    hide DetailsUrl, Submit, Requested;
    SubmitRequests(rows, CheckUnit(pr, check), now, w);
  }

  // ----- several failing checks -----

  /** The checks the shared workflow repairs: all but those only the queue runs that left no log. */
  function WithEvidence(pr: PrSnapshot, names: seq<string>, w: World): seq<string> {
    if names == [] then []
    else (if QueueRunsIt(pr, names[0]) && Evidence(pr, names[0], w) != TextLog then [] else [names[0]])
         + WithEvidence(pr, names[1..], w)
  }

  ghost predicate Stops(pr: PrSnapshot, name: string, w: World) {
    IsUntraceable(pr, name) || Evidence(pr, name, w).LogRaises?
  }

  ghost predicate IsFirstStop(pr: PrSnapshot, names: seq<string>, w: World, i: int) {
    0 <= i < |names| && Stops(pr, names[i], w) && forall k :: 0 <= k < i ==> !Stops(pr, names[k], w)
  }

  lemma {:induction false} EvidenceAppend(pr: PrSnapshot, names: seq<string>, name: string, w: World)
    ensures WithEvidence(pr, names + [name], w) == WithEvidence(pr, names, w) + WithEvidence(pr, [name], w)
  {
    hide QueueRunsIt, Evidence;
    if names != [] {
      assert (names + [name])[0] == names[0] && (names + [name])[1..] == names[1..] + [name];
      EvidenceAppend(pr, names[1..], name, w);
    } else {
      assert names + [name] == [name];
    }
  }

  lemma SpecsDecide(pr: PrSnapshot, names: seq<string>, n: nat, w: World)
    requires n <= |names|
    ensures (forall k :: 0 <= k < n ==> !Stops(pr, names[k], w)) ==>
              SpecsOf(pr, names, n, w) == SpecsFor(WithEvidence(pr, names[..n], w))
    ensures forall i :: IsFirstStop(pr, names, w, i) && i < n ==>
              SpecsOf(pr, names, n, w) == if IsUntraceable(pr, names[i]) then SpecsInvalid else SpecsRaise
  {
    hide SpecsOf, WithEvidence, Stops, IsUntraceable;
    if forall k :: 0 <= k < n ==> !Stops(pr, names[k], w) { NoStopNoEnd(pr, names, n, w); }
    forall i | IsFirstStop(pr, names, w, i) && i < n
      ensures SpecsOf(pr, names, n, w) == if IsUntraceable(pr, names[i]) then SpecsInvalid else SpecsRaise
    {
      FirstStopEnds(pr, names, i, n, w);
    }
  }

  lemma {:induction false} NoStopNoEnd(pr: PrSnapshot, names: seq<string>, n: nat, w: World)
    requires n <= |names| && forall k :: 0 <= k < n ==> !Stops(pr, names[k], w)
    ensures SpecsOf(pr, names, n, w) == SpecsFor(WithEvidence(pr, names[..n], w))
  {
    hide DetailsUrl;
    if n > 0 {
      var m := n - 1;
      NoStopNoEnd(pr, names, m, w);
      assert names[..n] == names[..m] + [names[m]];
      EvidenceAppend(pr, names[..m], names[m], w);
      OneMoreSpec(pr, names, m, w);
      hide SpecsOf, WithEvidence, IsUntraceable;
    }
  }

  lemma {:induction false} FirstStopEnds(pr: PrSnapshot, names: seq<string>, i: nat, n: nat, w: World)
    requires i < n <= |names| && IsFirstStop(pr, names, w, i)
    ensures SpecsOf(pr, names, n, w) == if IsUntraceable(pr, names[i]) then SpecsInvalid else SpecsRaise
  {
    OneMoreSpec(pr, names, n - 1, w);
    if i < n - 1 { FirstStopEnds(pr, names, i, n - 1, w); } else { NoStopNoEnd(pr, names, i, w); }
    hide SpecsOf, WithEvidence, IsUntraceable;
  }

  lemma OneMoreSpec(pr: PrSnapshot, names: seq<string>, m: nat, w: World)
    requires m < |names|
    ensures var before, name := SpecsOf(pr, names, m, w), names[m];
            SpecsOf(pr, names, m + 1, w) ==
            if !before.SpecsFor? then before
            else if IsUntraceable(pr, name) then SpecsInvalid
            else if Stops(pr, name, w) then SpecsRaise
            else SpecsFor(before.checks + WithEvidence(pr, [name], w))
  {
    hide DetailsUrl;
    assert [names[m]][1..] == [];
  }

  /** One row of a kind for each check, in order. */
  function Each(pr: PrSnapshot, checks: seq<string>, kind: Kind, now: int, meta: Meta): seq<Row> {
    seq(|checks|, k requires 0 <= k < |checks| => Row(kind, pr.number, pr.head, checks[k], now, meta))
  }

  lemma EachAppend(pr: PrSnapshot, checks: seq<string>, n: nat, kind: Kind, now: int, meta: Meta)
    requires n < |checks|
    ensures Each(pr, checks[..n + 1], kind, now, meta)
            == Each(pr, checks[..n], kind, now, meta) + [Row(kind, pr.number, pr.head, checks[n], now, meta)]
  {
  }

  lemma {:induction false} SharedRows(pr: PrSnapshot, checks: seq<string>, n: nat, now: int, plan: string,
                                      id: Option<string>)
    requires n <= |checks|
    ensures PendingRows(pr, checks, n, now, plan)
            == Each(pr, checks[..n], Pending(RepairCheck), now, Meta(None, None, Some(plan), None, 0, ""))
    ensures StartRows(pr, checks, n, now, plan, id)
            == Each(pr, checks[..n], Start(RepairCheck), now, Meta(None, id, Some(plan), None, 0, ""))
    ensures UnsentRows(pr, checks, n, now, plan)
            == Each(pr, checks[..n], PendingSettled(RepairCheck), now, Meta(Some(Infra), None, Some(plan), None, 0, ""))
  {
    if n > 0 {
      SharedRows(pr, checks, n - 1, now, plan, id);
      EachAppend(pr, checks, n - 1, Pending(RepairCheck), now, Meta(None, None, Some(plan), None, 0, ""));
      EachAppend(pr, checks, n - 1, Start(RepairCheck), now, Meta(None, id, Some(plan), None, 0, ""));
      EachAppend(pr, checks, n - 1, PendingSettled(RepairCheck), now, Meta(Some(Infra), None, Some(plan), None, 0, ""));
      hide Each;
    }
  }

  /** All requests of the shared workflow come first, then as many answers, one for each check: a START
      where the owner acknowledged it, else an infra settle. */
  ghost predicate RequestedTogether(before: seq<Row>, e: Effect, pr: PrSnapshot, checks: seq<string>, now: int,
                                    w: World)
    requires checks != []
  {
    var plan := Some(w.submittedPlan(Unit(RepairCheck, pr.number, pr.head, checks[0])));
    && !e.aborted && (e.failed <==> w.submission.SubmitRaises?)
    && e.rows == before + Each(pr, checks, Pending(RepairCheck), now, Meta(None, None, plan, None, 0, ""))
                 + match w.submission
                   case Acknowledged(id) => Each(pr, checks, Start(RepairCheck), now, Meta(None, id, plan, None, 0, ""))
                   case SubmitRaises =>
                     Each(pr, checks, PendingSettled(RepairCheck), now, Meta(Some(Infra), None, plan, None, 0, ""))
  }

  lemma SharedRequests(rows: seq<Row>, pr: PrSnapshot, checks: seq<string>, now: int, w: World)
    requires checks != []
    ensures RequestedTogether(rows, SubmitShared(rows, pr, checks, now, w), pr, checks, now, w)
  {
    var id := if w.submission.Acknowledged? then w.submission.workflowId else None;
    SharedRows(pr, checks, |checks|, now, w.submittedPlan(CheckUnit(pr, checks[0])), id);
    assert checks[..|checks|] == checks;
    hide PendingRows, StartRows, UnsentRows, Each;
  }

  /** Several failing checks are repaired together: the first one that stops everything does, without
      a row; else all with evidence are filed, and where none has any, a no-op is remembered. */
  lemma SharedDecides(rows: seq<Row>, pr: PrSnapshot, key: string, names: seq<string>, now: int, w: World)
    ensures var e, checks := RepairShared(rows, pr, key, names, now, w), WithEvidence(pr, names, w);
            && (forall i :: IsFirstStop(pr, names, w, i) ==> LeavesNothing(rows, e, !IsUntraceable(pr, names[i])))
            && ((forall k :: 0 <= k < |names| ==> !Stops(pr, names[k], w)) ==>
                  if checks == [] then Remembered(rows, e, QueueOnlyNoop, pr, key, now)
                  else RequestedTogether(rows, e, pr, checks, now, w))
  {
    SpecsDecide(pr, names, |names|, w);
    assert names[..|names|] == names;
    var checks := WithEvidence(pr, names, w);
    if checks != [] { SharedRequests(rows, pr, checks, now, w); }
    hide SpecsOf, SubmitShared, WithEvidence, Stops, IsUntraceable, RequestedTogether;
  }

  // ----- whose workflow takes the repair -----

  /** A failing check or a conflict is handed to the PR's own workflow where it has one that takes it, and
      nothing is filed where that cannot be found out or it is not taken. */
  lemma OwnWorkflowComesFirst(rows: seq<Row>, pr: PrSnapshot, check: string, now: int, w: World)
    ensures var e, r := RepairNamedCheck(rows, pr, check, now, w), Rebase(rows, pr, now, w);
            var known := w.resolve.ResolvedTo? && w.resolve.id != "";
            && (w.resolve.ResolveRaises? || (known && !w.fastAccepted) ==>
                  LeavesNothing(rows, e, true) && LeavesNothing(rows, r, true))
            && (known && w.fastAccepted ==>
                  && HandedOver(rows, e, Unit(RepairCheck, pr.number, pr.head, check), now, w.resolve.id)
                  && HandedOver(rows, r, RebaseUnit(pr), now, w.resolve.id))
            && (!known && !w.resolve.ResolveRaises? ==>
                  && Requested(rows, r, RebaseUnit(pr), now, w)
                  && e == if pr.latest.Some? && |pr.latest.value.failingChecks| >= 2
                          then RepairShared(rows, pr, check, pr.latest.value.failingChecks, now, w)
                          else RepairOne(rows, pr, check, now, w))
  {
    hide RepairShared, RepairOne, Submit, Requested;
    SubmitRequests(rows, RebaseUnit(pr), now, w);
  }

  // ----- what GitHub is asked to do -----

  /** The row an action leaves where it succeeds. A comment is remembered under its key, one about a
      reached cap also by what it says. */
  function Memory(a: Action, pr: PrSnapshot): Option<(Kind, string)> {
    match a.kind
    case RequeueAction => Some((Requeue, a.key))
    case RefreshStaleQueueAction => Some((RefreshStaleQueue, a.key))
    case SquashMergeAction => Some((SquashMerge, a.key))
    case RetargetBaseAction => Some((RetargetBase, pr.base + "->" + a.key))
    case RemoveMergeHoldAction => Some((RemoveMergeHold, "merge-hold"))
    case RestoreLabelAction => Some((RestoreLabel, "admin-bypass"))
    case NudgeAction => Some((AdminBypassNudge, a.key))
    case CommentBlockedAction =>
      Some((CommentBlocked, if a.key == "capped" then "capped:" + Describe(a.detail) else a.key))
    case _ => None
  }

  /** Labels and comments, which are not repeated on a head. */
  predicate OnceOnly(k: ActionKind) { k == RestoreLabelAction || k == NudgeAction || k == CommentBlockedAction }

  ghost predicate IsRemembered(rows: seq<Row>, pr: PrSnapshot, m: (Kind, string)) {
    exists i :: 0 <= i < |rows| && rows[i].kind == m.0 && rows[i].pr == pr.number && rows[i].head == pr.head
                && rows[i].key == m.1
  }

  lemma RememberedExactlyWhen(rows: seq<Row>, pr: PrSnapshot, kind: Kind, key: string)
    ensures CountHits(rows, Exact(kind, pr.number, pr.head, key)) > 0 <==> IsRemembered(rows, pr, (kind, key))
  {
    CountIsPositiveIffHit(rows, Exact(kind, pr.number, pr.head, key));
    if IsRemembered(rows, pr, (kind, key)) {
      var i :| 0 <= i < |rows| && rows[i].kind == kind && rows[i].pr == pr.number && rows[i].head == pr.head
        && rows[i].key == key;
      assert Hits(Exact(kind, pr.number, pr.head, key), rows[i]);
    }
  }

  /** An action GitHub carries out: nothing on a head that moved on, or for a label or comment already
      there; remembered where it succeeds; and ending the tick where it fails, except for a retarget
      GitHub rejects, which is remembered as that. */
  lemma ExecuteDecides(rows: seq<Row>, a: Action, pr: PrSnapshot, facts: StackFacts, now: int, w: World)
    requires a.kind != RequeueAction && !IsRepair(a) && a.kind != EscalateRequeueStuck
    ensures var e, m := Execute(rows, a, pr, facts, now, w), Memory(a, pr);
            if !w.headCurrent || (OnceOnly(a.kind) && IsRemembered(rows, pr, m.value))
            then LeavesNothing(rows, e, false)
            else if w.effectSucceeds then
              if m.None? then LeavesNothing(rows, e, false) else Remembered(rows, e, m.value.0, pr, m.value.1, now)
            else if a.kind == RetargetBaseAction && w.retargetRejected
            then Remembered(rows, e, RetargetRejected, pr, pr.base + "->" + a.key, now)
            else e == Effect(rows, false, true)
  {
    hide CountHits, Describe, IsRemembered;
    if OnceOnly(a.kind) { RememberedExactlyWhen(rows, pr, Memory(a, pr).value.0, Memory(a, pr).value.1); }
  }

  // ----- which of these an action is -----

  /** A dispatch that fails is announced on the PR once for its head and the kind of action. */
  lemma FailureIsAnnouncedOnce(e: Effect, pr: PrSnapshot, kindName: string, now: int, w: World)
    ensures var after := Announced(e, pr, kindName, now, w);
            && after.failed == e.failed && after.aborted == e.aborted
            && after.rows == e.rows
               + (if e.failed && w.failureCommentSucceeds && !IsRemembered(e.rows, pr, (DispatchFailed, kindName))
                  then [Row(DispatchFailed, pr.number, pr.head, kindName, now, Meta(None, None, None, None, 0, ""))]
                  else [])
  {
    hide CountHits, IsRemembered;
    RememberedExactlyWhen(e.rows, pr, DispatchFailed, kindName);
  }

  /** Which repair an action is: a review thread by the prefix of its key, a check by any other. */
  lemma ActionDecides(rows: seq<Row>, a: Action, pr: PrSnapshot, facts: StackFacts, now: int, w: World)
    ensures var e := Perform(rows, a, pr, facts, now, w);
            match a.kind
            case RepairCheckAction =>
              if "bot_review_thread:" <= a.key then
                exists s :: Requested(rows, s, Unit(RepairBotThread, pr.number, pr.head,
                                                    a.key[|"bot_review_thread:"|..]), now, w)
                            && e == Announced(s, pr, "repair_check", now, w)
              else e == Announced(RepairNamedCheck(rows, pr, a.key, now, w), pr, "repair_check", now, w)
            case RebaseOntoMasterAction => e == Announced(Rebase(rows, pr, now, w), pr, "rebase_onto_master", now, w)
            case EscalateRequeueStuck =>
              exists s :: Requested(rows, s, Unit(RequeueEscalation, pr.number, pr.head, a.key), now, w)
                          && e == Announced(s, pr, "escalate_requeue_stuck", now, w)
            case _ => e == Execute(rows, a, pr, facts, now, w)
  {
    hide RepairNamedCheck, Rebase, Execute, Announced, Submit, Requested;
    SubmitRequests(rows, DispatchUnit(pr, a), now, w);
    SubmitRequests(rows, Unit(RequeueEscalation, pr.number, pr.head, a.key), now, w);
  }
}
