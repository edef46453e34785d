/** What the shared workflow of several failing checks spends: it files a START for every one of
    them without asking their own caps. */
module SharedSubmission {
  import opened Wrappers
  import opened LedgerModel
  import opened RetryBudget
  import opened StackFactsModel
  import opened Planner
  import opened Dispatch

  /** No settle and no reset of the unit is of this second: every START now spends one. */
  ghost predicate FreshUnit(rows: seq<Row>, u: Unit, now: int) {
    Monotone(rows) && NotAfter(rows, now) && now > ResetFloor(rows, u) && IsBefore(Latest(rows, Settles(u)), now)
  }

  lemma OtherRowKeepsFresh(rows: seq<Row>, r: Row, u: Unit, now: int)
    requires FreshUnit(rows, u, now) && r.epoch == now && !Hits(Settles(u), r) && !Hits(Resets(u), r)
    ensures FreshUnit(rows + [r], u, now)
    ensures !Hits(Starts(u), r) ==> CodeAttempts(rows + [r], u) == CodeAttempts(rows, u)
  {
    MonotoneAppend(rows, r);
    AppendStep(rows, r, Settles(u));
    if !Hits(Starts(u), r) { OtherRowKeepsBudget(rows, r, u); }
    UnitRowsFrame(rows, r, Resets(u));
  }

  /** A START of a second without settles pairs with none, nor does an equal one before it. */
  lemma NothingExcusesNow(starts: seq<Row>, settles: seq<Row>, q: Row)
    requires Monotone(starts) && NotAfter(starts, q.epoch) && FirstFrom(settles, q.epoch).None?
    ensures IndexOf(starts, q) < |starts| ==> !LastExcused(starts, settles)
    ensures !BornExcused(starts, settles, q.epoch)
  {
    if IndexOf(starts, q) < |starts| { MonotonePairs(starts, IndexOf(starts, q), |starts| - 1); }
  }

  lemma FreshStartSpends(rows: seq<Row>, r: Row, u: Unit, now: int)
    requires FreshUnit(rows, u, now) && r.epoch == now && Hits(Starts(u), r)
    ensures CodeAttempts(rows + [r], u) == CodeAttempts(rows, u) + 1
  {
    MonotoneAppend(rows, r);
    NoneSettlesAfter(rows, u, now);
    CountedOrdered(rows, u);
    CountedRows(rows, r, u);
    NothingExcusesNow(CountedStarts(rows, u), UnitRows(rows, Settles(u)), r);
    hide LastExcused, BornExcused, CountedStarts, ResetFloor, UnitRows;
    StartRaisesBudget(rows, r, u);
  }

  lemma {:induction false} RequestsSpendNothing(rows: seq<Row>, pr: PrSnapshot, checks: seq<string>, n: nat, now: int,
                                                plan: string, u: Unit)
    requires n <= |checks| && FreshUnit(rows, u, now)
    ensures FreshUnit(rows + PendingRows(pr, checks, n, now, plan), u, now)
    ensures CodeAttempts(rows + PendingRows(pr, checks, n, now, plan), u) == CodeAttempts(rows, u)
  {
    hide CodeAttempts, FreshUnit;
    if n == 0 {
      assert rows + PendingRows(pr, checks, 0, now, plan) == rows;
    } else {
      RequestsSpendNothing(rows, pr, checks, n - 1, now, plan, u);
      var before := rows + PendingRows(pr, checks, n - 1, now, plan);
      var r := PendingRow(CheckUnit(pr, checks[n - 1]), now, plan);
      OtherRowKeepsFresh(before, r, u, now);
      assert before + [r] == rows + PendingRows(pr, checks, n, now, plan);
    }
  }

  /** How often a check is among the first `n`. */
  function Occurrences(checks: seq<string>, n: nat, check: string): nat
    requires n <= |checks|
  {
    if n == 0 then 0 else Occurrences(checks, n - 1, check) + if checks[n - 1] == check then 1 else 0
  }

  lemma {:induction false} StartsSpendOneEach(rows: seq<Row>, pr: PrSnapshot, checks: seq<string>, n: nat, now: int,
                                              plan: string, id: Option<string>,
                                              check: string)
    requires n <= |checks| && FreshUnit(rows, CheckUnit(pr, check), now)
    ensures FreshUnit(rows + StartRows(pr, checks, n, now, plan, id), CheckUnit(pr, check), now)
    ensures CodeAttempts(rows + StartRows(pr, checks, n, now, plan, id), CheckUnit(pr, check))
            == CodeAttempts(rows, CheckUnit(pr, check)) + Occurrences(checks, n, check)
  {
    hide CodeAttempts, FreshUnit;
    var u := CheckUnit(pr, check);
    if n == 0 {
      assert rows + StartRows(pr, checks, 0, now, plan, id) == rows;
    } else {
      StartsSpendOneEach(rows, pr, checks, n - 1, now, plan, id, check);
      var before := rows + StartRows(pr, checks, n - 1, now, plan, id);
      var r := StartRow(CheckUnit(pr, checks[n - 1]), now, Some(plan), id);
      OtherRowKeepsFresh(before, r, u, now);
      if checks[n - 1] == check { FreshStartSpends(before, r, u, now); }
      assert before + [r] == rows + StartRows(pr, checks, n, now, plan, id);
    }
  }

  /** Every check of the plan is fresh: none of its settles or resets is of this second. */
  ghost predicate FreshChecks(rows: seq<Row>, pr: PrSnapshot, checks: seq<string>, now: int) {
    forall i :: 0 <= i < |checks| ==> FreshUnit(rows, CheckUnit(pr, checks[i]), now)
  }

  /** An acknowledged shared workflow spends one attempt of a check for each time it is listed, so
      the caps hold afterwards exactly when each check had that many attempts left. */
  lemma SharedFilingKeepsCapsExactlyWhen(rows: seq<Row>, pr: PrSnapshot, checks: seq<string>, now: int, w: World,
                                         max: nat)
    requires checks != [] && FreshChecks(rows, pr, checks, now) && w.submission.Acknowledged?
    ensures var after := SubmitShared(rows, pr, checks, now, w).rows;
            && (forall i :: 0 <= i < |checks| ==>
                  CodeAttempts(after, CheckUnit(pr, checks[i]))
                  == CodeAttempts(rows, CheckUnit(pr, checks[i])) + Occurrences(checks, |checks|, checks[i]))
            && ((forall i :: 0 <= i < |checks| ==> CodeAttempts(after, CheckUnit(pr, checks[i])) <= max) <==>
                (forall i :: 0 <= i < |checks| ==>
                   CodeAttempts(rows, CheckUnit(pr, checks[i])) + Occurrences(checks, |checks|, checks[i]) <= max))
  {
    hide CodeAttempts, FreshUnit;
    var plan, id := w.submittedPlan(CheckUnit(pr, checks[0])), w.submission.workflowId;
    var after := SubmitShared(rows, pr, checks, now, w).rows;
    forall i | 0 <= i < |checks|
      ensures CodeAttempts(after, CheckUnit(pr, checks[i]))
              == CodeAttempts(rows, CheckUnit(pr, checks[i])) + Occurrences(checks, |checks|, checks[i])
    {
      RequestsSpendNothing(rows, pr, checks, |checks|, now, plan, CheckUnit(pr, checks[i]));
      StartsSpendOneEach(rows + PendingRows(pr, checks, |checks|, now, plan), pr, checks, |checks|, now, plan, id,
                         checks[i]);
    }
  }
}
