/** What one tick does, step by step: both settle passes, then each stack on what they left. */
module TickOutcomes {
  import opened LedgerModel
  import opened SettlePasses
  import opened StackFactsModel
  import opened Planner
  import opened Dispatch
  import opened LedgerInvariant
  import opened Controller

  // ----- the snapshot an action is carried out on -----

  /** The last snapshot of the PR the tick loaded, over all its stacks. */
  ghost predicate IsLastSnapshot(stacks: seq<StackTick>, number: int, i: int, j: int) {
    && 0 <= i < |stacks| && 0 <= j < |stacks[i].prs| && stacks[i].prs[j].number == number
    && (forall k :: j < k < |stacks[i].prs| ==> stacks[i].prs[k].number != number)
    && (forall m, k :: i < m < |stacks| && 0 <= k < |stacks[m].prs| ==> stacks[m].prs[k].number != number)
  }

  lemma {:induction false} LastAdded(found: map<int, PrSnapshot>, prs: seq<PrSnapshot>, n: nat, number: int)
    requires n <= |prs|
    ensures forall j :: 0 <= j < n && prs[j].number == number && (forall k :: j < k < n ==> prs[k].number != number) ==>
              number in AddPrs(found, prs, n) && AddPrs(found, prs, n)[number] == prs[j]
    ensures (forall j :: 0 <= j < n ==> prs[j].number != number) ==>
              (number in AddPrs(found, prs, n) <==> number in found)
              && (number in found ==> AddPrs(found, prs, n)[number] == found[number])
    ensures number in AddPrs(found, prs, n) ==>
              number in found || exists j :: 0 <= j < n && prs[j].number == number
  {
    if n > 0 {
      var m := n - 1;
      LastAdded(found, prs, m, number);
      assert AddPrs(found, prs, n) == AddPrs(found, prs, m)[prs[m].number := prs[m]];
      hide AddPrs;
      forall j | 0 <= j < n && prs[j].number == number && (forall k :: j < k < n ==> prs[k].number != number)
        ensures number in AddPrs(found, prs, n) && AddPrs(found, prs, n)[number] == prs[j]
      {
        if j < m { assert prs[m].number != number; }
      }
    }
  }

  lemma {:induction false} LastIsLooked(stacks: seq<StackTick>, n: nat, number: int, i: int, j: int)
    requires n <= |stacks| && IsLastSnapshot(stacks[..n], number, i, j)
    ensures number in PrsByNumber(stacks, n) && PrsByNumber(stacks, n)[number] == stacks[i].prs[j]
  {
    var last := stacks[n - 1];
    LastAdded(PrsByNumber(stacks, n - 1), last.prs, |last.prs|, number);
    if i < n - 1 {
      assert stacks[..n][n - 1] == last;
      assert forall m :: 0 <= m < n - 1 ==> stacks[..n - 1][m] == stacks[..n][m];
      LastIsLooked(stacks, n - 1, number, i, j);
    }
  }

  lemma {:induction false} LookedUpIsLoaded(stacks: seq<StackTick>, n: nat, number: int)
    requires n <= |stacks| && number in PrsByNumber(stacks, n)
    ensures exists i, j :: 0 <= i < n && 0 <= j < |stacks[i].prs| && stacks[i].prs[j].number == number
  {
    var last := stacks[n - 1];
    LastAdded(PrsByNumber(stacks, n - 1), last.prs, |last.prs|, number);
    if number in PrsByNumber(stacks, n - 1) { LookedUpIsLoaded(stacks, n - 1, number); }
  }

  /** An action is carried out on the last snapshot of its PR the tick loaded. */
  lemma ActsOnLastSnapshot(t: Tick, number: int)
    ensures forall i, j :: IsLastSnapshot(t.stacks, number, i, j) ==>
              number in AllPrs(t) && AllPrs(t)[number] == t.stacks[i].prs[j]
    ensures number in AllPrs(t) <==>
            exists i, j :: 0 <= i < |t.stacks| && 0 <= j < |t.stacks[i].prs| && t.stacks[i].prs[j].number == number
  {
    assert t.stacks[..|t.stacks|] == t.stacks;
    forall i, j | IsLastSnapshot(t.stacks, number, i, j)
      ensures number in AllPrs(t) && AllPrs(t)[number] == t.stacks[i].prs[j]
    {
      LastIsLooked(t.stacks, |t.stacks|, number, i, j);
    }
    if number in AllPrs(t) { LookedUpIsLoaded(t.stacks, |t.stacks|, number); }
    LoadedIsLookedUp(t.stacks, |t.stacks|, number);
  }

  lemma {:induction false} LoadedIsLookedUp(stacks: seq<StackTick>, n: nat, number: int)
    requires n <= |stacks|
    ensures (exists i, j :: 0 <= i < n && 0 <= j < |stacks[i].prs| && stacks[i].prs[j].number == number) ==>
              number in PrsByNumber(stacks, n)
  {
    if n > 0 {
      LoadedIsLookedUp(stacks, n - 1, number);
      AddedStay(PrsByNumber(stacks, n - 1), stacks[n - 1].prs, |stacks[n - 1].prs|, number);
    }
  }

  lemma {:induction false} AddedStay(found: map<int, PrSnapshot>, prs: seq<PrSnapshot>, n: nat, number: int)
    requires n <= |prs|
    ensures number in found || (exists j :: 0 <= j < n && prs[j].number == number) ==> number in AddPrs(found, prs, n)
  {
    if n > 0 { AddedStay(found, prs, n - 1, number); }
  }

  // ----- one stack -----

  /** What a tick does with one stack. After an exception nothing more happens. A stack without PRs, or
      with one twice, ends the tick. While the prerequisite PR of its bottom is open, nothing is
      planned; else at most one action is carried out. */
  lemma StackDecides(s: CycleState, t: Tick, stack: StackTick, l: Limits)
    ensures var after := StackStep(s, t, stack, l);
            if s.aborted then after == s
            else if stack.prs == [] || exists i, j :: 0 <= i < j < |stack.prs|
                                         && stack.prs[i].number == stack.prs[j].number
            then after.aborted && after.history == s.history
            else
              var c := PlanningContext(s.history.rows, t, stack, l);
              if c.facts.prereq.Some? && c.facts.prereq.value.prNumber in AllPrs(t) then after == s
              else
                match PlanActions(c).action
                case None => after == s
                case Some(a) =>
                  if a.pr !in AllPrs(t) then after.aborted && after.history == s.history
                  else
                    var e := Perform(s.history.rows, a, AllPrs(t)[a.pr], c.facts, t.now, stack.world);
                    after.history.rows == e.rows && after.aborted == e.aborted
  {
    hide PlanActions, Perform, AllPrs;
    if stack.prs != [] && Distinct(stack.prs) { OpenPrereqStops(s.history.rows, t, stack, l); }
  }

  lemma OpenPrereqStops(rows: seq<Row>, t: Tick, stack: StackTick, l: Limits)
    requires stack.prs != []
    ensures var f := PlanningContext(rows, t, stack, l).facts;
            f.prereq.Some? ==> (f.prereq.value.isOpen <==> f.prereq.value.prNumber in AllPrs(t))
  {
    hide AllPrs;
  }

  // ----- the whole tick -----

  /** The stacks are taken in their order, each from the state the one before left; so are the ticks of
      a run, from an empty ledger on. */
  lemma InTurn(h: History, t: Tick, i: nat, ticks: seq<Tick>, n: nat, l: Limits)
    requires i < |t.stacks| && n < |ticks|
    ensures StackLoop(h, t, 0, l) == CycleState(h, false)
    ensures StackLoop(h, t, i + 1, l) == StackStep(StackLoop(h, t, i, l), t, t.stacks[i], l)
    ensures Run(ticks, 0, l) == History([], map[])
    ensures Run(ticks, n + 1, l) == Cycle(Run(ticks, n, l), ticks[n], l).history
  {
    hide StackStep, Cycle;
  }

  lemma {:induction false} AbortEndsTick(h: History, t: Tick, m: nat, n: nat, l: Limits)
    requires m <= n <= |t.stacks| && StackLoop(h, t, m, l).aborted
    ensures StackLoop(h, t, n, l) == StackLoop(h, t, m, l)
  {
    hide StackStep;
    if m < n {
      AbortEndsTick(h, t, m, n - 1, l);
      AbortedStays(StackLoop(h, t, n - 1, l), t, t.stacks[n - 1], l);
    }
  }

  lemma AbortedStays(s: CycleState, t: Tick, stack: StackTick, l: Limits)
    requires s.aborted
    ensures StackStep(s, t, stack, l) == s
  {
  }

  /** The ledger the first stack is planned on: what other processes appended, then what the fast pass
      settled on it, then what the plan pass wrote on both. Every known workflow that has ended is
      settled by then, and every request answered. */
  ghost predicate SettledFor(rows: seq<Row>, t: Tick, before: seq<Row>)
    requires t.owner.workflows.Some?
  {
    exists fast ::
      && IsPrefix(before, fast) && IsPrefix(fast, rows)
      && (forall k :: |before| <= k < |fast| ==> FastJustified(fast[k], before, t.now, t.owner))
      && (forall k :: |fast| <= k < |rows| ==> rows[k].epoch == t.now)
      && (Monotone(before) ==> Monotone(fast) && forall i :: 0 <= i < |fast| ==> FastThrough(fast, i, t.owner))
      && AllAnswered(rows)
      && (Monotone(before) ==> Monotone(rows) && forall i :: 0 <= i < |fast| ==> PlanThrough(rows, i, t.owner))
  }

  /** A tick is planned on a settled ledger, stack after stack, until one aborts. */
  lemma TickDecides(h: History, t: Tick, l: Limits)
    requires Total(t.owner) && NotAfter(h.rows + t.external, t.now)
    ensures exists begun: History ::
              && begun.crashed == h.crashed && SettledFor(begun.rows, t, h.rows + t.external)
              && Cycle(h, t, l) == StackLoop(begun, t, |t.stacks|, l)
  {
    var before := h.rows + t.external;
    var fast := FastPass(before, t.now, t.owner).rows;
    var settled := PlanPass(fast, t.now, t.owner).rows;
    hide FastPass, PlanPass, StackLoop, FastThrough, PlanThrough, FastJustified;
    FastPassConverges(before, t.now, t.now, t.owner);
    FastIsNow(before, fast, t);
    PlanAfterFast(fast, t);
    assert SettledFor(settled, t, before);
    assert Cycle(h, t, l) == StackLoop(History(settled, h.crashed), t, |t.stacks|, l);
  }

  lemma FastIsNow(before: seq<Row>, fast: seq<Row>, t: Tick)
    requires NotAfter(before, t.now) && IsPrefix(before, fast)
    requires forall k :: |before| <= k < |fast| ==> FastJustified(fast[k], before, t.now, t.owner)
    ensures NotAfter(fast, t.now)
  {
    hide FastCause;
    assert forall k :: 0 <= k < |before| ==> fast[k] == before[k];
  }

  lemma PlanAfterFast(fast: seq<Row>, t: Tick)
    requires Total(t.owner) && NotAfter(fast, t.now)
    ensures var rows := PlanPass(fast, t.now, t.owner).rows;
            && IsPrefix(fast, rows) && AllAnswered(rows)
            && (forall k :: |fast| <= k < |rows| ==> rows[k].epoch == t.now)
            && (Monotone(fast) ==> Monotone(rows) && forall i :: 0 <= i < |fast| ==> PlanThrough(rows, i, t.owner))
  {
    var workflows := t.owner.workflows.value;
    var answered, rows := PendingLoop(fast, |fast|, t.now, t.owner, workflows), PlanPass(fast, t.now, t.owner).rows;
    hide PendingLoop, StartLoop, StartDone, PlanThrough, Answered;
    PlanPassWork(fast, t.now, t.owner);
    PendingLoopWork(fast, |fast|, t.now, t.owner, workflows);
    StartLoopWork(fast, answered, |fast|, t.now, t.owner, workflows);
    forall k | |fast| <= k < |rows|
      ensures rows[k].epoch == t.now
    {
      if k < |answered| { assert rows[..|answered|][k] == answered[k]; }
    }
    if Monotone(fast) {
      PlanPassOrdered(fast, t.now, t.owner);
      forall i | 0 <= i < |fast|
        ensures PlanThrough(rows, i, t.owner)
      {
        assert rows[..|fast|][i] == rows[i];
        StartDoneIsThrough(rows, i, t.owner);
      }
    }
  }
}
