/** The retry budget of a repair unit: which START rows spend it, and how every
    kind of appended row moves it. */
module RetryBudget {
  import opened Wrappers
  import opened LedgerModel

  /** What a retry cap is scoped to: one submit kind and key on one head of one PR. */
  datatype Unit = Unit(kind: RepairKind, pr: int, head: string, key: string)

  function Starts(u: Unit): Query { Exact(Start(u.kind), u.pr, u.head, u.key) }

  function Settles(u: Unit): Query { Exact(Settled(u.kind), u.pr, u.head, u.key) }

  function Pendings(u: Unit): Query { Exact(Pending(u.kind), u.pr, u.head, u.key) }

  function Resets(u: Unit): Query { Exact(AttemptsReset, u.pr, u.head, u.key) }

  // ----- the rows of a unit, in epoch order -----

  function Select(rows: seq<Row>, q: Query): seq<Row> {
    if rows == [] then []
    else if Hits(q, rows[|rows| - 1]) then Select(rows[..|rows| - 1], q) + [rows[|rows| - 1]]
    else Select(rows[..|rows| - 1], q)
  }

  /** Behind every row of the same or an earlier epoch: what keeps the sort stable. */
  function InsertByEpoch(sorted: seq<Row>, r: Row): seq<Row> {
    if sorted == [] || sorted[|sorted| - 1].epoch <= r.epoch then sorted + [r]
    else InsertByEpoch(sorted[..|sorted| - 1], r) + [sorted[|sorted| - 1]]
  }

  function SortByEpoch(rows: seq<Row>): seq<Row> {
    if rows == [] then []
    else InsertByEpoch(SortByEpoch(rows[..|rows| - 1]), rows[|rows| - 1])
  }

  function UnitRows(rows: seq<Row>, q: Query): seq<Row> {
    SortByEpoch(Select(rows, q))
  }

  // ----- pairing a START with the settle of its epoch window -----

  /** `starts.index(start)`: the first row that is equal, not the row itself; the callers
      only ask about rows of `starts`. */
  function IndexOf(starts: seq<Row>, start: Row): nat {
    IndexFrom(starts, start, 0)
  }

  function IndexFrom(starts: seq<Row>, start: Row, i: nat): (k: nat)
    requires i <= |starts|
    ensures k <= |starts|
    ensures k < |starts| ==> starts[k] == start
    decreases |starts| - i
  {
    if i == |starts| || starts[i] == start then i else IndexFrom(starts, start, i + 1)
  }

  /** The first settle, from position `i` on, that is not before `epoch`. */
  function FirstFrom(settles: seq<Row>, epoch: int, i: nat := 0): (first: Option<Row>)
    requires i <= |settles|
    ensures first.Some? ==> first.value.epoch >= epoch
    decreases |settles| - i
  {
    if i == |settles| then None
    else if settles[i].epoch >= epoch then Some(settles[i])
    else FirstFrom(settles, epoch, i + 1)
  }

  function NextEpoch(starts: seq<Row>, i: nat): Option<int> {
    if i + 1 < |starts| then Some(starts[i + 1].epoch) else None
  }

  function InWindow(settles: seq<Row>, from: int, until: Option<int>): Option<Row> {
    var first := FirstFrom(settles, from);
    if first.Some? && until.Some? && first.value.epoch >= until.value then None else first
  }

  function SettleOf(starts: seq<Row>, settles: seq<Row>, start: Row): Option<Row> {
    InWindow(settles, start.epoch, NextEpoch(starts, IndexOf(starts, start)))
  }

  predicate Excluded(settled: Option<Row>) {
    settled.Some? && (settled.value.meta.outcome == Some(Superseded)
                      || settled.value.meta.outcome == Some(CapacityDeferred))
  }

  function SpendCount(starts: seq<Row>, settles: seq<Row>, n: nat): nat
    requires n <= |starts|
  {
    if n == 0 then 0
    else SpendCount(starts, settles, n - 1) + if Excluded(SettleOf(starts, settles, starts[n - 1])) then 0 else 1
  }

  function Above(rows: seq<Row>, floor: int): seq<Row> {
    if rows == [] then []
    else if rows[|rows| - 1].epoch > floor then Above(rows[..|rows| - 1], floor) + [rows[|rows| - 1]]
    else Above(rows[..|rows| - 1], floor)
  }

  function ResetFloor(rows: seq<Row>, u: Unit): int {
    var resets := UnitRows(rows, Resets(u));
    if resets == [] then -1 else resets[|resets| - 1].epoch
  }

  function CountedStarts(rows: seq<Row>, u: Unit): seq<Row> {
    Above(UnitRows(rows, Starts(u)), ResetFloor(rows, u))
  }

  function CodeAttempts(rows: seq<Row>, u: Unit): nat {
    var starts := CountedStarts(rows, u);
    SpendCount(starts, UnitRows(rows, Settles(u)), |starts|)
  }

  method SettleForSubmit(start: Row, starts: seq<Row>, settles: seq<Row>) returns (settled: Option<Row>)
    ensures settled == SettleOf(starts, settles, start)
  {
    var next := NextEpoch(starts, IndexOf(starts, start));
    for i := 0 to |settles|
      invariant FirstFrom(settles, start.epoch) == FirstFrom(settles, start.epoch, i)
    {
      var epoch := settles[i].epoch;
      if epoch < start.epoch { continue; }
      if next.Some? && epoch >= next.value { return None; }
      return Some(settles[i]);
    }
    return None;
  }

  method CountCodeRepairAttempts(ledger: Ledger, u: Unit) returns (count: nat)
    ensures count == CodeAttempts(ledger.rows, u)
  {
    var floor := ResetFloor(ledger.rows, u);
    var starts := Above(UnitRows(ledger.rows, Starts(u)), floor);
    var settles := UnitRows(ledger.rows, Settles(u));
    count := 0;
    for i := 0 to |starts|
      invariant count == SpendCount(starts, settles, i)
    {
      var settled := SettleForSubmit(starts[i], starts, settles);
      if settled.Some?
        && (settled.value.meta.outcome == Some(Superseded) || settled.value.meta.outcome == Some(CapacityDeferred)) {
        continue;
      }
      count := count + 1;
    }
  }

  // ----- what the sort and the selection keep -----

  lemma {:induction false} InsertKeepsOrder(sorted: seq<Row>, r: Row, top: int)
    requires Monotone(sorted)
    ensures Monotone(InsertByEpoch(sorted, r))
    ensures NotAfter(sorted, top) && r.epoch <= top ==> NotAfter(InsertByEpoch(sorted, r), top)
  {
    if sorted == [] || sorted[|sorted| - 1].epoch <= r.epoch {
      MonotoneAppend(sorted, r);
    } else {
      var init, last := sorted[..|sorted| - 1], sorted[|sorted| - 1];
      InsertKeepsOrder(init, r, last.epoch);
      InsertKeepsOrder(init, r, top);
      MonotoneAppend(InsertByEpoch(init, r), last);
    }
  }

  lemma {:induction false} InsertKeepsRows(sorted: seq<Row>, r: Row)
    ensures multiset(InsertByEpoch(sorted, r)) == multiset(sorted) + multiset{r}
  {
    if sorted != [] && sorted[|sorted| - 1].epoch > r.epoch {
      InsertKeepsRows(sorted[..|sorted| - 1], r);
      assert sorted == sorted[..|sorted| - 1] + [sorted[|sorted| - 1]];
    }
  }

  lemma {:induction false} SortOrders(rows: seq<Row>)
    ensures Monotone(SortByEpoch(rows))
  {
    if rows != [] {
      SortOrders(rows[..|rows| - 1]);
      InsertKeepsOrder(SortByEpoch(rows[..|rows| - 1]), rows[|rows| - 1], 0);
    }
  }

  lemma {:induction false} SortKeepsRows(rows: seq<Row>)
    ensures multiset(SortByEpoch(rows)) == multiset(rows)
  {
    if rows != [] {
      var init, last := rows[..|rows| - 1], rows[|rows| - 1];
      SortKeepsRows(init);
      InsertKeepsRows(SortByEpoch(init), last);
      assert rows == init + [last];
    }
  }

  lemma {:induction false} SortOfOrdered(rows: seq<Row>)
    requires Monotone(rows)
    ensures SortByEpoch(rows) == rows
  {
    if rows != [] {
      SortOfOrdered(rows[..|rows| - 1]);
      assert rows == rows[..|rows| - 1] + [rows[|rows| - 1]];
    }
  }

  lemma {:induction false} SelectedRows(rows: seq<Row>, q: Query)
    ensures forall r :: r in Select(rows, q) <==> r in rows && Hits(q, r)
  {
    if rows != [] {
      SelectedRows(rows[..|rows| - 1], q);
      assert rows == rows[..|rows| - 1] + [rows[|rows| - 1]];
    }
  }

  lemma {:induction false} SelectionBound(rows: seq<Row>, q: Query, top: int)
    requires NotAfter(rows, top)
    ensures NotAfter(Select(rows, q), top)
  {
    if rows != [] { SelectionBound(rows[..|rows| - 1], q, top); }
  }

  lemma {:induction false} SelectionOrdered(rows: seq<Row>, q: Query)
    requires Monotone(rows)
    ensures Monotone(Select(rows, q))
  {
    if rows != [] {
      var init, last := rows[..|rows| - 1], rows[|rows| - 1];
      SelectionOrdered(init, q);
      SelectionBound(init, q, last.epoch);
      MonotoneAppend(Select(init, q), last);
    }
  }

  lemma SelectAppend(rows: seq<Row>, r: Row, q: Query)
    ensures Select(rows + [r], q) == if Hits(q, r) then Select(rows, q) + [r] else Select(rows, q)
  {
    assert (rows + [r])[..|rows|] == rows;
  }

  /** On a monotone ledger the unit's rows are simply the selected ones, and a new row goes last. */
  lemma UnitRowsOfMonotone(rows: seq<Row>, q: Query)
    requires Monotone(rows)
    ensures UnitRows(rows, q) == Select(rows, q)
  {
    SelectionOrdered(rows, q);
    SortOfOrdered(Select(rows, q));
  }

  lemma UnitRowsAppend(rows: seq<Row>, r: Row, q: Query)
    requires Monotone(rows + [r])
    ensures UnitRows(rows + [r], q) == if Hits(q, r) then UnitRows(rows, q) + [r] else UnitRows(rows, q)
    ensures Monotone(UnitRows(rows, q)) && NotAfter(UnitRows(rows, q), r.epoch)
  {
    MonotoneAppend(rows, r);
    SelectAppend(rows, r, q);
    UnitRowsOfMonotone(rows, q);
    UnitRowsOfMonotone(rows + [r], q);
    SelectionOrdered(rows, q);
    SelectionBound(rows, q, r.epoch);
  }

  lemma UnitRowsMembers(rows: seq<Row>, q: Query)
    requires Monotone(rows)
    ensures forall x :: x in UnitRows(rows, q) <==> x in rows && Hits(q, x)
  {
    UnitRowsOfMonotone(rows, q);
    SelectedRows(rows, q);
  }

  lemma UnitRowsFrame(rows: seq<Row>, r: Row, q: Query)
    requires !Hits(q, r)
    ensures UnitRows(rows + [r], q) == UnitRows(rows, q)
  {
    SelectAppend(rows, r, q);
  }

  // ----- windows -----

  lemma {:induction false} FirstFromAppend(settles: seq<Row>, t: Row, epoch: int, i: nat := 0)
    requires i <= |settles|
    ensures FirstFrom(settles + [t], epoch, i) ==
            if FirstFrom(settles, epoch, i).Some? then FirstFrom(settles, epoch, i)
            else if t.epoch >= epoch then Some(t) else None
    decreases |settles| - i
  {
    if i < |settles| { FirstFromAppend(settles, t, epoch, i + 1); }
  }

  lemma {:induction false} FirstFromLater(settles: seq<Row>, lo: int, hi: int, i: nat := 0)
    requires lo <= hi && i <= |settles|
    ensures FirstFrom(settles, lo, i).Some? && FirstFrom(settles, lo, i).value.epoch >= hi ==>
              FirstFrom(settles, hi, i) == FirstFrom(settles, lo, i)
    ensures FirstFrom(settles, lo, i).None? ==> FirstFrom(settles, hi, i).None?
    decreases |settles| - i
  {
    if i < |settles| { FirstFromLater(settles, lo, hi, i + 1); }
  }

  lemma {:induction false} NoneFrom(settles: seq<Row>, epoch: int, i: nat := 0)
    requires i <= |settles| && forall t :: t in settles ==> t.epoch < epoch
    ensures FirstFrom(settles, epoch, i).None?
    decreases |settles| - i
  {
    if i < |settles| {
      assert settles[i] in settles;
      NoneFrom(settles, epoch, i + 1);
    }
  }

  lemma {:induction false} IndexFromAppend(starts: seq<Row>, q: Row, s: Row, i: nat)
    requires i <= |starts|
    ensures IndexFrom(starts, s, i) < |starts| ==> IndexFrom(starts + [q], s, i) == IndexFrom(starts, s, i)
    ensures IndexFrom(starts, s, i) == |starts| && q == s ==> IndexFrom(starts + [q], s, i) == |starts|
    decreases |starts| - i
  {
    if i < |starts| { IndexFromAppend(starts, q, s, i + 1); }
  }

  lemma {:induction false} NotInIndex(starts: seq<Row>, s: Row, i: nat)
    requires s !in starts && i <= |starts|
    ensures IndexFrom(starts, s, i) == |starts|
    decreases |starts| - i
  {
    if i < |starts| { NotInIndex(starts, s, i + 1); }
  }

  lemma {:induction false} FirstEqualIsNotAfter(starts: seq<Row>, at: nat, i: nat)
    requires i <= at < |starts|
    ensures IndexFrom(starts, starts[at], i) <= at
    decreases at - i
  {
    if i < at { FirstEqualIsNotAfter(starts, at, i + 1); }
  }

  lemma {:induction false} AboveMembers(rows: seq<Row>, floor: int)
    ensures forall r :: r in Above(rows, floor) <==> r in rows && r.epoch > floor
  {
    if rows != [] {
      AboveMembers(rows[..|rows| - 1], floor);
      assert rows == rows[..|rows| - 1] + [rows[|rows| - 1]];
    }
  }

  lemma {:induction false} AboveBound(rows: seq<Row>, floor: int, top: int)
    requires NotAfter(rows, top)
    ensures NotAfter(Above(rows, floor), top)
  {
    if rows != [] { AboveBound(rows[..|rows| - 1], floor, top); }
  }

  lemma AboveAppend(rows: seq<Row>, r: Row, floor: int)
    ensures Above(rows + [r], floor) == if r.epoch > floor then Above(rows, floor) + [r] else Above(rows, floor)
  {
    assert (rows + [r])[..|rows|] == rows;
  }

  // ----- how a new row moves the budget -----

  /** A row that is no START, settle or reset of the unit does not touch its budget. */
  lemma OtherRowKeepsBudget(rows: seq<Row>, r: Row, u: Unit)
    requires !Hits(Starts(u), r) && !Hits(Settles(u), r) && !Hits(Resets(u), r)
    ensures CodeAttempts(rows + [r], u) == CodeAttempts(rows, u)
  {
    UnitRowsFrame(rows, r, Starts(u));
    UnitRowsFrame(rows, r, Settles(u));
    UnitRowsFrame(rows, r, Resets(u));
  }

  /** A new START only closes the window of the last one. */
  lemma {:induction false} EarlierSpendsStay(starts: seq<Row>, settles: seq<Row>, q: Row, n: nat)
    requires n < |starts| || n == 0
    ensures SpendCount(starts + [q], settles, n) == SpendCount(starts, settles, n)
  {
    if n > 0 {
      EarlierSpendsStay(starts, settles, q, n - 1);
      var s := starts[n - 1];
      assert (starts + [q])[n - 1] == s;
      IndexFromAppend(starts, q, s, 0);
      FirstEqualIsNotAfter(starts, n - 1, 0);
    }
  }

  /** Cutting an open window in two: the settle stays in the first part, or the first part
      is empty and the second one has it. */
  lemma WindowSplits(settles: seq<Row>, lo: int, hi: int)
    requires lo <= hi
    ensures InWindow(settles, lo, Some(hi)) == InWindow(settles, lo, None)
         || (InWindow(settles, lo, Some(hi)).None? && InWindow(settles, lo, None) == InWindow(settles, hi, None))
  {
    FirstFromLater(settles, lo, hi);
  }

  lemma WindowsAfterStart(starts: seq<Row>, settles: seq<Row>, q: Row, p: Row)
    requires IndexOf(starts, q) == |starts| > 0 && p == starts[|starts| - 1]
    ensures SettleOf(starts + [q], settles, q) == InWindow(settles, q.epoch, None)
    ensures IndexOf(starts, p) == |starts| - 1 ==> SettleOf(starts, settles, p) == InWindow(settles, p.epoch, None)
    ensures SettleOf(starts + [q], settles, p) ==
            if IndexOf(starts, p) == |starts| - 1 then InWindow(settles, p.epoch, Some(q.epoch))
            else SettleOf(starts, settles, p)
  {
    FirstEqualIsNotAfter(starts, |starts| - 1, 0);
    IndexFromAppend(starts, q, q, 0);
    IndexFromAppend(starts, q, p, 0);
  }

  /** A START filed now would be excused from the start: the first settle not before it is
      superseded or capacity-deferred, and the last START does not own that settle. */
  ghost predicate BornExcused(starts: seq<Row>, settles: seq<Row>, epoch: int) {
    var first := FirstFrom(settles, epoch);
    Excluded(first) && (starts == [] || SettleOf(starts, settles, starts[|starts| - 1]) != first)
  }

  /** A window closed by a later START holds no settle of that START's epoch or after. */
  lemma ClosedWindow(starts: seq<Row>, settles: seq<Row>, p: Row, epoch: int)
    requires IndexOf(starts, p) + 1 < |starts| && NotAfter(starts, epoch)
    ensures SettleOf(starts, settles, p).Some? ==> SettleOf(starts, settles, p).value.epoch < epoch
  {
    assert starts[IndexOf(starts, p) + 1].epoch <= epoch;
  }

  lemma NewStartSpends(starts: seq<Row>, settles: seq<Row>, q: Row)
    requires IndexOf(starts, q) == |starts| && NotAfter(starts, q.epoch)
    ensures SpendCount(starts + [q], settles, |starts| + 1) ==
            SpendCount(starts, settles, |starts|) + if BornExcused(starts, settles, q.epoch) then 0 else 1
  {
    var n, after := |starts|, starts + [q];
    assert after[n] == q;
    if n == 0 {
      IndexFromAppend(starts, q, q, 0);
    } else {
      var p := starts[n - 1];
      assert after[n - 1] == p;
      EarlierSpendsStay(starts, settles, q, n - 1);
      WindowsAfterStart(starts, settles, q, p);
      WindowSplits(settles, p.epoch, q.epoch);
      FirstEqualIsNotAfter(starts, n - 1, 0);
      if IndexOf(starts, p) < n - 1 { ClosedWindow(starts, settles, p, q.epoch); }
    }
  }

  /** The unit's rows after one more row, when no reset is added. */
  lemma CountedAppend(rows: seq<Row>, r: Row, u: Unit)
    requires Monotone(rows + [r]) && !Hits(Resets(u), r)
    ensures ResetFloor(rows + [r], u) == ResetFloor(rows, u)
    ensures CountedStarts(rows + [r], u) ==
            if Hits(Starts(u), r) && r.epoch > ResetFloor(rows, u) then CountedStarts(rows, u) + [r]
            else CountedStarts(rows, u)
    ensures UnitRows(rows + [r], Settles(u)) ==
            if Hits(Settles(u), r) then UnitRows(rows, Settles(u)) + [r] else UnitRows(rows, Settles(u))
  {
    UnitRowsFrame(rows, r, Resets(u));
    UnitRowsAppend(rows, r, Settles(u));
    UnitRowsAppend(rows, r, Starts(u));
    AboveAppend(UnitRows(rows, Starts(u)), r, ResetFloor(rows, u));
  }

  lemma CountedRows(rows: seq<Row>, r: Row, u: Unit)
    requires Monotone(rows + [r])
    ensures NotAfter(CountedStarts(rows, u), r.epoch)
  {
    UnitRowsAppend(rows, r, Starts(u));
    AboveBound(UnitRows(rows, Starts(u)), ResetFloor(rows, u), r.epoch);
  }

  lemma {:induction false} AboveOrdered(rows: seq<Row>, floor: int)
    requires Monotone(rows)
    ensures Monotone(Above(rows, floor))
  {
    if rows != [] {
      var init, last := rows[..|rows| - 1], rows[|rows| - 1];
      AboveOrdered(init, floor);
      AboveBound(init, floor, last.epoch);
      MonotoneAppend(Above(init, floor), last);
    }
  }

  lemma CountedOrdered(rows: seq<Row>, u: Unit)
    requires Monotone(rows)
    ensures Monotone(CountedStarts(rows, u))
  {
    UnitRowsOfMonotone(rows, Starts(u));
    SelectionOrdered(rows, Starts(u));
    AboveOrdered(UnitRows(rows, Starts(u)), ResetFloor(rows, u));
  }

  lemma CountedMembers(rows: seq<Row>, x: Row, u: Unit)
    requires Monotone(rows)
    ensures x in CountedStarts(rows, u) <==> x in rows && Hits(Starts(u), x) && x.epoch > ResetFloor(rows, u)
  {
    UnitRowsMembers(rows, Starts(u));
    AboveMembers(UnitRows(rows, Starts(u)), ResetFloor(rows, u));
  }

  /** The last START has no settle in its window yet: the next settle pairs with it. */
  ghost predicate LastAwaits(starts: seq<Row>, settles: seq<Row>) {
    starts != [] && IndexOf(starts, starts[|starts| - 1]) == |starts| - 1
    && FirstFrom(settles, starts[|starts| - 1].epoch).None?
  }

  lemma {:induction false} SettledSpendsEarlier(starts: seq<Row>, settles: seq<Row>, t: Row, n: nat)
    requires n < |starts| && NotAfter(starts, t.epoch)
    ensures SpendCount(starts, settles + [t], n) == SpendCount(starts, settles, n)
  {
    if n > 0 {
      SettledSpendsEarlier(starts, settles, t, n - 1);
      FirstFromAppend(settles, t, starts[n - 1].epoch);
      FirstEqualIsNotAfter(starts, n - 1, 0);
    }
  }

  lemma SettledSpends(starts: seq<Row>, settles: seq<Row>, t: Row)
    requires NotAfter(starts, t.epoch)
    ensures SpendCount(starts, settles + [t], |starts|) == SpendCount(starts, settles, |starts|)
            - if LastAwaits(starts, settles) && Excluded(Some(t)) then 1 else 0
  {
    var n := |starts|;
    if n > 0 {
      SettledSpendsEarlier(starts, settles, t, n - 1);
      FirstFromAppend(settles, t, starts[n - 1].epoch);
      FirstEqualIsNotAfter(starts, n - 1, 0);
    }
  }

  ghost predicate AwaitsSettle(rows: seq<Row>, u: Unit) {
    LastAwaits(CountedStarts(rows, u), UnitRows(rows, Settles(u)))
  }

  // ----- which attempt the next settle ends -----

  /** The START at `i` is the unit's last one and repeats no earlier row; every reset and every
      settle of the unit is older. A unit never reset starts counting at epoch zero. */
  ghost predicate AwaitsAt(rows: seq<Row>, u: Unit, i: nat) {
    && i < |rows| && Hits(Starts(u), rows[i]) && rows[i] !in rows[..i]
    && (rows[i].epoch >= 0 || exists k :: 0 <= k < |rows| && Hits(Resets(u), rows[k]))
    && (forall k :: i < k < |rows| ==> !Hits(Starts(u), rows[k]))
    && (forall k :: 0 <= k < |rows| && (Hits(Settles(u), rows[k]) || Hits(Resets(u), rows[k])) ==>
          rows[k].epoch < rows[i].epoch)
  }

  lemma {:induction false} SelectUpToLast(rows: seq<Row>, q: Query, i: nat)
    requires i < |rows| && Hits(q, rows[i]) && forall k :: i < k < |rows| ==> !Hits(q, rows[k])
    ensures Select(rows, q) == Select(rows[..i], q) + [rows[i]]
  {
    if i < |rows| - 1 {
      SelectUpToLast(rows[..|rows| - 1], q, i);
      assert rows[..|rows| - 1][..i] == rows[..i];
    }
  }

  lemma FloorIsHighest(rows: seq<Row>, u: Unit)
    requires Monotone(rows)
    ensures forall k :: 0 <= k < |rows| && Hits(Resets(u), rows[k]) ==> rows[k].epoch <= ResetFloor(rows, u)
    ensures if exists k :: 0 <= k < |rows| && Hits(Resets(u), rows[k])
            then exists k :: 0 <= k < |rows| && Hits(Resets(u), rows[k]) && rows[k].epoch == ResetFloor(rows, u)
            else ResetFloor(rows, u) == -1
  {
    var resets := UnitRows(rows, Resets(u));
    UnitRowsMembers(rows, Resets(u));
    UnitRowsOfMonotone(rows, Resets(u));
    SelectionOrdered(rows, Resets(u));
    if resets != [] {
      assert resets[|resets| - 1] in resets;
      forall r | r in resets
        ensures r.epoch <= ResetFloor(rows, u)
      {
        var k :| 0 <= k < |resets| && resets[k] == r;
        MonotonePairs(resets, k, |resets| - 1);
      }
    }
    forall k | 0 <= k < |rows| && Hits(Resets(u), rows[k])
      ensures rows[k].epoch <= ResetFloor(rows, u)
    {
      assert rows[k] in resets;
    }
  }

  lemma {:induction false} FirstFromIsFirst(settles: seq<Row>, epoch: int, i: nat := 0)
    requires i <= |settles| && FirstFrom(settles, epoch, i).None?
    ensures forall k :: i <= k < |settles| ==> settles[k].epoch < epoch
    decreases |settles| - i
  {
    if i < |settles| { FirstFromIsFirst(settles, epoch, i + 1); }
  }

  lemma NoSettleFrom(rows: seq<Row>, u: Unit, epoch: int)
    requires Monotone(rows)
    ensures FirstFrom(UnitRows(rows, Settles(u)), epoch).None? <==>
            forall k :: 0 <= k < |rows| && Hits(Settles(u), rows[k]) ==> rows[k].epoch < epoch
  {
    var settles := UnitRows(rows, Settles(u));
    UnitRowsMembers(rows, Settles(u));
    if FirstFrom(settles, epoch).None? {
      FirstFromIsFirst(settles, epoch);
      forall k | 0 <= k < |rows| && Hits(Settles(u), rows[k])
        ensures rows[k].epoch < epoch
      {
        assert rows[k] in settles;
      }
    } else if forall k :: 0 <= k < |rows| && Hits(Settles(u), rows[k]) ==> rows[k].epoch < epoch {
      NoneFrom(settles, epoch);
    }
  }

  /** The unit's counted STARTs end with its last START, unless a reset outdates even that one. */
  lemma CountedUpToLast(rows: seq<Row>, u: Unit, i: nat)
    requires Monotone(rows) && i < |rows| && Hits(Starts(u), rows[i])
    requires forall k :: i < k < |rows| ==> !Hits(Starts(u), rows[k])
    ensures var before := Above(Select(rows[..i], Starts(u)), ResetFloor(rows, u));
            && CountedStarts(rows, u) == (if rows[i].epoch > ResetFloor(rows, u) then before + [rows[i]] else [])
            && (rows[i].epoch > ResetFloor(rows, u) ==> (rows[i] in before <==> rows[i] in rows[..i]))
  {
    var floor := ResetFloor(rows, u);
    var before := Above(Select(rows[..i], Starts(u)), floor);
    UnitRowsOfMonotone(rows, Starts(u));
    SelectUpToLast(rows, Starts(u), i);
    AboveAppend(Select(rows[..i], Starts(u)), rows[i], floor);
    SelectedRows(rows[..i], Starts(u));
    AboveMembers(Select(rows[..i], Starts(u)), floor);
    if rows[i].epoch <= floor && before != [] {
      assert before[0] in before;
      var k :| 0 <= k < i && rows[..i][k] == before[0];
      MonotonePairs(rows, k, i);
    }
  }

  lemma LastIsNew(before: seq<Row>, s: Row)
    ensures IndexOf(before + [s], s) == |before| <==> s !in before
  {
    var starts := before + [s];
    if s in before {
      var k :| 0 <= k < |before| && before[k] == s;
      assert starts[k] == s;
      FirstEqualIsNotAfter(starts, k, 0);
    } else {
      NotInIndex(before, s, 0);
      IndexFromAppend(before, s, s, 0);
    }
  }

  lemma AwaitsAtLast(rows: seq<Row>, u: Unit, i: nat)
    requires Monotone(rows) && i < |rows| && Hits(Starts(u), rows[i])
    requires forall k :: i < k < |rows| ==> !Hits(Starts(u), rows[k])
    ensures AwaitsSettle(rows, u) <==> AwaitsAt(rows, u, i)
  {
    hide UnitRows, ResetFloor, CountedStarts, IndexFrom, Select, Above, Monotone, FirstFrom;
    FloorIsHighest(rows, u);
    NoSettleFrom(rows, u, rows[i].epoch);
    CountedUpToLast(rows, u, i);
    var before, starts := Above(Select(rows[..i], Starts(u)), ResetFloor(rows, u)), CountedStarts(rows, u);
    LastIsNew(before, rows[i]);
    if rows[i].epoch > ResetFloor(rows, u) {
      assert starts == before + [rows[i]] && |starts| == |before| + 1 && starts[|before|] == rows[i];
    } else {
      assert !AwaitsSettle(rows, u);
      assert !AwaitsAt(rows, u, i);
    }
  }

  lemma {:induction false} NothingSelected(rows: seq<Row>, q: Query)
    requires forall k :: 0 <= k < |rows| ==> !Hits(q, rows[k])
    ensures Select(rows, q) == []
  {
    if rows != [] { NothingSelected(rows[..|rows| - 1], q); }
  }

  lemma {:induction false} LastHit(rows: seq<Row>, q: Query) returns (i: nat)
    ensures (forall k :: 0 <= k < |rows| ==> !Hits(q, rows[k]))
            || (i < |rows| && Hits(q, rows[i]) && forall k :: i < k < |rows| ==> !Hits(q, rows[k]))
  {
    i := 0;
    if rows != [] {
      if Hits(q, rows[|rows| - 1]) { i := |rows| - 1; } else { i := LastHit(rows[..|rows| - 1], q); }
    }
  }

  /** Whose settle is awaited, read off the rows. */
  lemma AwaitsExactlyWhen(rows: seq<Row>, u: Unit)
    requires Monotone(rows)
    ensures AwaitsSettle(rows, u) <==> exists i :: AwaitsAt(rows, u, i)
  {
    var i := LastHit(rows, Starts(u));
    if i < |rows| && Hits(Starts(u), rows[i]) {
      AwaitsAtLast(rows, u, i);
      assert forall k: nat :: AwaitsAt(rows, u, k) ==> k == i;
    } else {
      NothingSelected(rows, Starts(u));
    }
  }

  /** A settle never raises the budget; it gives one attempt back exactly when it is the
      first settle of the last START and its outcome is superseded or capacity-deferred. */
  lemma SettleNeverRaisesBudget(rows: seq<Row>, t: Row, u: Unit)
    requires Monotone(rows + [t]) && Hits(Settles(u), t)
    ensures CodeAttempts(rows + [t], u) == CodeAttempts(rows, u)
            - if AwaitsSettle(rows, u) && Excluded(Some(t)) then 1 else 0
  {
    var starts, settles := CountedStarts(rows, u), UnitRows(rows, Settles(u));
    CountedAppend(rows, t, u);
    CountedRows(rows, t, u);
    SettledSpends(starts, settles, t);
  }

  /** An attempt is given back for a settle that says superseded or capacity-deferred and for no
      other, and only where the unit's last START awaits it. No settle takes one. */
  lemma SettleGivesBackExactlyWhen(rows: seq<Row>, t: Row, u: Unit)
    requires Monotone(rows + [t]) && Hits(Settles(u), t)
    ensures var given := (exists i :: AwaitsAt(rows, u, i))
                         && (t.meta.outcome == Some(Superseded) || t.meta.outcome == Some(CapacityDeferred));
            CodeAttempts(rows + [t], u) == CodeAttempts(rows, u) - if given then 1 else 0
  {
    MonotoneAppend(rows, t);
    SettleNeverRaisesBudget(rows, t, u);
    hide AwaitsSettle, AwaitsAt, CodeAttempts;
    AwaitsExactlyWhen(rows, u);
  }

  /** A reset empties the budget of its unit. */
  lemma ResetClearsBudget(rows: seq<Row>, t: Row, u: Unit)
    requires Monotone(rows + [t]) && Hits(Resets(u), t)
    ensures CodeAttempts(rows + [t], u) == 0
  {
    assert ResetFloor(rows + [t], u) == t.epoch by { UnitRowsAppend(rows, t, Resets(u)); }
    assert CountedStarts(rows + [t], u) == [] by {
      UnitRowsAppend(rows, t, Starts(u));
      NoneAbove(UnitRows(rows, Starts(u)), t.epoch);
    }
  }

  lemma {:induction false} NoneAbove(rows: seq<Row>, floor: int)
    requires NotAfter(rows, floor)
    ensures Above(rows, floor) == []
  {
    if rows != [] { NoneAbove(rows[..|rows| - 1], floor); }
  }

  // ----- a START row repeated word for word -----

  /** The last START was excused by the settle of its window. */
  ghost predicate LastExcused(starts: seq<Row>, settles: seq<Row>) {
    starts != [] && IndexOf(starts, starts[|starts| - 1]) == |starts| - 1
    && Excluded(SettleOf(starts, settles, starts[|starts| - 1]))
  }

  /** A START whose successor has its own epoch pairs with nothing. */
  lemma EmptyWindow(starts: seq<Row>, settles: seq<Row>, s: Row, k: nat)
    requires IndexOf(starts, s) == k && k + 1 < |starts| && starts[k + 1].epoch <= s.epoch
    ensures SettleOf(starts, settles, s).None?
  {
  }

  lemma RepeatedWindows(starts: seq<Row>, settles: seq<Row>, q: Row, p: Row)
    requires IndexOf(starts, q) < |starts| && NotAfter(starts, q.epoch)
    requires p == starts[|starts| - 1] && p.epoch == q.epoch
    ensures SettleOf(starts + [q], settles, q).None? && SettleOf(starts + [q], settles, p).None?
    ensures IndexOf(starts, p) <= |starts| - 1
    ensures IndexOf(starts, p) < |starts| - 1 ==> SettleOf(starts, settles, p).None?
  {
    var after, at, k := starts + [q], IndexOf(starts, q), IndexOf(starts, p);
    FirstEqualIsNotAfter(starts, |starts| - 1, 0);
    IndexFromAppend(starts, q, p, 0);
    IndexFromAppend(starts, q, q, 0);
    EmptyWindow(after, settles, q, at);
    EmptyWindow(after, settles, p, k);
    if k < |starts| - 1 { EmptyWindow(starts, settles, p, k); }
  }

  lemma RepeatedStartSpends(starts: seq<Row>, settles: seq<Row>, q: Row)
    requires IndexOf(starts, q) < |starts| && NotAfter(starts, q.epoch) && starts[|starts| - 1].epoch == q.epoch
    ensures SpendCount(starts + [q], settles, |starts| + 1) == SpendCount(starts, settles, |starts|) + 1
            + if LastExcused(starts, settles) then 1 else 0
  {
    var n, after := |starts|, starts + [q];
    assert after[n] == q && after[n - 1] == starts[n - 1];
    RepeatedWindows(starts, settles, q, starts[n - 1]);
    EarlierSpendsStay(starts, settles, q, n - 1);
  }

  // ----- what a START spends -----

  /** The attempts a START of the unit spends when it is appended: none behind the unit's last
      reset, else one, unless it repeats a counted START word for word whose last twin had been
      excused, or is itself excused by a settle of its own second. */
  ghost function SpendOf(rows: seq<Row>, q: Row, u: Unit): nat {
    var starts, settles := CountedStarts(rows, u), UnitRows(rows, Settles(u));
    if q.epoch <= ResetFloor(rows, u) then 0
    else if IndexOf(starts, q) < |starts| then if LastExcused(starts, settles) then 2 else 1
    else if BornExcused(starts, settles, q.epoch) then 0 else 1
  }

  lemma CountedStartSpends(starts: seq<Row>, settles: seq<Row>, q: Row)
    requires Monotone(starts) && NotAfter(starts, q.epoch)
    ensures SpendCount(starts + [q], settles, |starts| + 1) == SpendCount(starts, settles, |starts|)
            + if IndexOf(starts, q) < |starts| then if LastExcused(starts, settles) then 2 else 1
              else if BornExcused(starts, settles, q.epoch) then 0 else 1
  {
    hide SettleOf, LastExcused, BornExcused;
    if IndexOf(starts, q) < |starts| {
      MonotonePairs(starts, IndexOf(starts, q), |starts| - 1);
      RepeatedStartSpends(starts, settles, q);
    } else {
      NewStartSpends(starts, settles, q);
    }
  }

  /** Exactly what a START adds to the budget. */
  lemma StartRaisesBudget(rows: seq<Row>, q: Row, u: Unit)
    requires Monotone(rows + [q]) && Hits(Starts(u), q)
    ensures CodeAttempts(rows + [q], u) == CodeAttempts(rows, u) + SpendOf(rows, q, u)
  {
    hide UnitRows, ResetFloor, LastExcused, BornExcused, SettleOf, CountedStarts, SpendCount, IndexFrom, Monotone;
    MonotoneAppend(rows, q);
    CountedAppend(rows, q, u);
    CountedRows(rows, q, u);
    CountedOrdered(rows, u);
    CountedStartSpends(CountedStarts(rows, u), UnitRows(rows, Settles(u)), q);
  }

  /** The only START that spends two: a repeated one, behind an excused last START. */
  ghost predicate SpendsTwo(rows: seq<Row>, q: Row, u: Unit) {
    q in rows && q.epoch > ResetFloor(rows, u) && LastExcused(CountedStarts(rows, u), UnitRows(rows, Settles(u)))
  }

  lemma RepeatedIsCounted(rows: seq<Row>, q: Row, u: Unit)
    requires Monotone(rows) && Hits(Starts(u), q) && q.epoch > ResetFloor(rows, u)
    ensures IndexOf(CountedStarts(rows, u), q) < |CountedStarts(rows, u)| <==> q in rows
  {
    var starts := CountedStarts(rows, u);
    CountedMembers(rows, q, u);
    if q in starts {
      var i :| 0 <= i < |starts| && starts[i] == q;
      FirstEqualIsNotAfter(starts, i, 0);
    } else {
      NotInIndex(starts, q, 0);
    }
  }

  /** A START spends exactly one attempt if and only if it is behind no reset, is not excused by
      a settle of its own second, and does not spend two. */
  lemma StartSpendsOneExactlyWhen(rows: seq<Row>, q: Row, u: Unit)
    requires Monotone(rows + [q]) && Hits(Starts(u), q)
    ensures CodeAttempts(rows + [q], u) == CodeAttempts(rows, u) + 1 <==>
            && q.epoch > ResetFloor(rows, u)
            && !SpendsTwo(rows, q, u)
            && (q in rows || !BornExcused(CountedStarts(rows, u), UnitRows(rows, Settles(u)), q.epoch))
    ensures CodeAttempts(rows + [q], u) == CodeAttempts(rows, u) + 2 <==> SpendsTwo(rows, q, u)
  {
    MonotoneAppend(rows, q);
    StartRaisesBudget(rows, q, u);
    if q.epoch > ResetFloor(rows, u) { RepeatedIsCounted(rows, q, u); }
  }

  predicate IsBefore(r: Option<Row>, epoch: int) { r.None? || r.value.epoch < epoch }

  lemma LaterIsNew(rows: seq<Row>, q: Row, u: Unit)
    requires Hits(Starts(u), q) && IsBefore(Latest(rows, Starts(u)), q.epoch)
    ensures q !in rows
  {
    var at := LatestPosition(rows, Starts(u));
  }

  lemma NoneSettlesAfter(rows: seq<Row>, u: Unit, epoch: int)
    requires Monotone(rows) && IsBefore(Latest(rows, Settles(u)), epoch)
    ensures FirstFrom(UnitRows(rows, Settles(u)), epoch).None?
  {
    var at := LatestPosition(rows, Settles(u));
    UnitRowsMembers(rows, Settles(u));
    NoneFrom(UnitRows(rows, Settles(u)), epoch);
  }

  /** A START later than every reset, settle and START of its unit spends one. */
  lemma LaterStartSpendsOne(rows: seq<Row>, q: Row, u: Unit)
    requires Monotone(rows + [q]) && Hits(Starts(u), q) && q.epoch > ResetFloor(rows, u)
    requires IsBefore(Latest(rows, Starts(u)), q.epoch) && IsBefore(Latest(rows, Settles(u)), q.epoch)
    ensures CodeAttempts(rows + [q], u) == CodeAttempts(rows, u) + 1
  {
    MonotoneAppend(rows, q);
    LaterIsNew(rows, q, u);
    NoneSettlesAfter(rows, u, q.epoch);
    hide CodeAttempts, Latest, Monotone, UnitRows, CountedStarts, ResetFloor;
    StartSpendsOneExactlyWhen(rows, q, u);
  }

  /** Any appended row: the budget of a unit rises only by a START of it, by two only for one
      that spends two, and by at most one otherwise. */
  lemma AppendedRowAndBudget(rows: seq<Row>, r: Row, u: Unit)
    requires Monotone(rows + [r])
    ensures CodeAttempts(rows + [r], u) <= CodeAttempts(rows, u)
            + if !Hits(Starts(u), r) then 0 else if SpendsTwo(rows, r, u) then 2 else 1
  {
    if Hits(Starts(u), r) { StartSpendsOneExactlyWhen(rows, r, u); StartRaisesBudget(rows, r, u); }
    else if Hits(Settles(u), r) { SettleNeverRaisesBudget(rows, r, u); }
    else if Hits(Resets(u), r) { ResetClearsBudget(rows, r, u); }
    else { OtherRowKeepsBudget(rows, r, u); }
  }
}
