/** The invariant of one repair unit over every run, and how each kind of appended row keeps it. */
module LedgerInvariant {
  import opened LedgerModel
  import opened RetryBudget
  import opened RetryGate
  import opened SettlePasses

  /** The rows so far, and for each filing row written because the last attempt was known to have
      crashed on infrastructure: what the outside answered when it was written. */
  datatype History = History(rows: seq<Row>, crashed: map<nat, Oracles>)

  datatype Limits = Limits(maxRequeue: nat, maxRepair: nat)

  /** The rows that file the unit: its STARTs and its requests. */
  predicate FilesOn(r: Row, u: Unit) { Hits(Starts(u), r) || Hits(Pendings(u), r) }

  // ----- the parts -----

  /** Every START found an attempt left when it was written. */
  ghost predicate StartsHadBudget(rows: seq<Row>, u: Unit, max: nat) {
    forall k :: 0 <= k < |rows| && Hits(Starts(u), rows[k]) ==> CodeAttempts(rows[..k], u) < max
  }

  /** A request of this epoch was started since, or an attempt is left for it. */
  ghost predicate HasRoom(rows: seq<Row>, u: Unit, epoch: int, max: nat) {
    SettledSince(rows, Starts(u), epoch) || CodeAttempts(rows, u) < max
  }

  /** A request still open, that a later pass may acknowledge, has an attempt left for it. */
  ghost predicate RequestsHaveRoom(rows: seq<Row>, u: Unit, max: nat) {
    forall i :: 0 <= i < |rows| && Hits(Pendings(u), rows[i]) ==> HasRoom(rows, u, rows[i].epoch, max)
  }

  /** The crash that let the row at `i` be written was confirmed when it was. */
  ghost predicate CrashConfirmed(h: History, u: Unit, i: nat)
    requires i <= |h.rows|
  {
    i in h.crashed && CrashedOnInfra(h.rows[..i], u, h.crashed[i])
  }

  /** The filing written at `i` came after the unit's previous attempt was over. */
  ghost predicate FiledInTime(h: History, u: Unit, i: nat)
    requires i < |h.rows|
  {
    PreviousAttemptOver(h.rows[..i], u, h.rows[i].epoch, CrashConfirmed(h, u, i))
  }

  /** The START at `j` was filed at `i`: by itself, or by a request with no START since. */
  ghost predicate FiledAt(h: History, u: Unit, i: nat, j: nat)
    requires i <= j < |h.rows|
  {
    && FilesOn(h.rows[i], u) && (i == j || Hits(Pendings(u), h.rows[i])) && FiledInTime(h, u, i)
    && forall k :: i <= k < j ==> !Hits(Starts(u), h.rows[k])
  }

  ghost predicate HasFiling(h: History, u: Unit, j: nat)
    requires j < |h.rows|
  {
    exists i: nat :: i <= j && FiledAt(h, u, i, j)
  }

  ghost predicate OneLiveAttempt(h: History, u: Unit) {
    && (forall i :: 0 <= i < |h.rows| && Hits(Pendings(u), h.rows[i]) ==> FiledInTime(h, u, i))
    && (forall j :: 0 <= j < |h.rows| && Hits(Starts(u), h.rows[j]) ==> HasFiling(h, u, j))
  }

  ghost predicate UnitInvariant(h: History, u: Unit, max: nat) {
    && Monotone(h.rows)
    && StartsHadBudget(h.rows, u, max)
    && RequestsHaveRoom(h.rows, u, max)
    && OneLiveAttempt(h, u)
  }

  lemma InvariantOfEmpty(u: Unit, max: nat)
    ensures UnitInvariant(History([], map[]), u, max)
  {
  }

  // ----- one more row -----

  function Extended(h: History, r: Row): History { h.(rows := h.rows + [r]) }

  lemma StartsHadBudgetAfter(rows: seq<Row>, r: Row, u: Unit, max: nat)
    requires StartsHadBudget(rows, u, max) && (Hits(Starts(u), r) ==> CodeAttempts(rows, u) < max)
    ensures StartsHadBudget(rows + [r], u, max)
  {
    var after := rows + [r];
    forall k | 0 <= k < |after| && Hits(Starts(u), after[k])
      ensures CodeAttempts(after[..k], u) < max
    {
      assert after[..k] == rows[..k];
      assert rows[..|rows|] == rows;
    }
  }

  lemma RoomAfter(rows: seq<Row>, r: Row, u: Unit, epoch: int, max: nat)
    requires Monotone(rows + [r]) && epoch <= r.epoch && HasRoom(rows, u, epoch, max)
    ensures HasRoom(rows + [r], u, epoch, max)
  {
    if SettledSince(rows, Starts(u), epoch) {
      SettledSinceStays(rows, r, Starts(u), epoch);
    } else if Hits(Starts(u), r) {
      NewHitSettles(rows, r, Starts(u), epoch);
    } else {
      AppendedRowAndBudget(rows, r, u);
    }
  }

  lemma RequestsAfter(rows: seq<Row>, r: Row, u: Unit, max: nat)
    requires Monotone(rows + [r]) && RequestsHaveRoom(rows, u, max)
    requires Hits(Pendings(u), r) ==> CodeAttempts(rows, u) < max
    ensures RequestsHaveRoom(rows + [r], u, max)
  {
    hide HasRoom;
    MonotoneAppend(rows, r);
    forall i | 0 <= i < |rows| + 1 && Hits(Pendings(u), (rows + [r])[i])
      ensures HasRoom(rows + [r], u, (rows + [r])[i].epoch, max)
    {
      if i < |rows| { RoomAfter(rows, r, u, rows[i].epoch, max); } else { NewRequestHasRoom(rows, r, u, max); }
    }
  }

  lemma NewRequestHasRoom(rows: seq<Row>, r: Row, u: Unit, max: nat)
    requires Hits(Pendings(u), r) && CodeAttempts(rows, u) < max
    ensures HasRoom(rows + [r], u, r.epoch, max)
  {
    OtherRowKeepsBudget(rows, r, u);
  }

  lemma FiledInTimeStays(h: History, r: Row, u: Unit, i: nat)
    requires i < |h.rows| && FiledInTime(h, u, i)
    ensures FiledInTime(Extended(h, r), u, i)
  {
    assert (h.rows + [r])[..i] == h.rows[..i];
  }

  lemma OneLiveAfter(h: History, r: Row, u: Unit)
    requires OneLiveAttempt(h, u)
    requires Hits(Pendings(u), r) ==> FiledInTime(Extended(h, r), u, |h.rows|)
    requires Hits(Starts(u), r) ==> HasFiling(Extended(h, r), u, |h.rows|)
    ensures OneLiveAttempt(Extended(h, r), u)
  {
    hide FiledInTime;
    var after := Extended(h, r);
    forall i | 0 <= i < |after.rows| && Hits(Pendings(u), after.rows[i])
      ensures FiledInTime(after, u, i)
    {
      if i < |h.rows| { FiledInTimeStays(h, r, u, i); }
    }
    forall j | 0 <= j < |after.rows| && Hits(Starts(u), after.rows[j])
      ensures HasFiling(after, u, j)
    {
      if j < |h.rows| {
        var i: nat :| i <= j && FiledAt(h, u, i, j);
        FiledInTimeStays(h, r, u, i);
        assert FiledAt(after, u, i, j);
      }
    }
  }

  /** A row that does not file the unit keeps its invariant, whatever else it records. */
  lemma OtherRowKeeps(h: History, r: Row, u: Unit, max: nat)
    requires UnitInvariant(h, u, max) && !FilesOn(r, u) && NotAfter(h.rows, r.epoch)
    ensures UnitInvariant(Extended(h, r), u, max)
  {
    hide StartsHadBudget, RequestsHaveRoom, OneLiveAttempt;
    MonotoneAppend(h.rows, r);
    StartsHadBudgetAfter(h.rows, r, u, max);
    RequestsAfter(h.rows, r, u, max);
    OneLiveAfter(h, r, u);
  }

  /** A START or request of the unit written behind the gate keeps its invariant. */
  lemma GatedFilingKeeps(h: History, r: Row, u: Unit, max: nat)
    requires UnitInvariant(h, u, max) && FilesOn(r, u) && NotAfter(h.rows, r.epoch)
    requires CodeAttempts(h.rows, u) < max
    requires PreviousAttemptOver(h.rows, u, r.epoch, CrashConfirmed(h, u, |h.rows|))
    ensures UnitInvariant(Extended(h, r), u, max)
  {
    hide StartsHadBudget, RequestsHaveRoom, OneLiveAttempt, PreviousAttemptOver, CrashedOnInfra;
    MonotoneAppend(h.rows, r);
    StartsHadBudgetAfter(h.rows, r, u, max);
    RequestsAfter(h.rows, r, u, max);
    var after := Extended(h, r);
    assert after.rows[..|h.rows|] == h.rows == h.rows[..|h.rows|];
    assert FiledInTime(after, u, |h.rows|);
    assert FiledAt(after, u, |h.rows|, |h.rows|);
    OneLiveAfter(h, r, u);
  }

  lemma NoStartSince(rows: seq<Row>, u: Unit, i: nat, k: nat)
    requires Monotone(rows) && i <= k < |rows| && !SettledSince(rows, Starts(u), rows[i].epoch)
    ensures !Hits(Starts(u), rows[k])
  {
    if Hits(Starts(u), rows[k]) {
      MonotonePairs(rows, i, k);
      var at := LatestPosition(rows, Starts(u));
    }
  }

  /** The acknowledgement of an open request keeps the invariant: the request had passed the
      gate, and nothing was started for its unit since. */
  lemma AcknowledgementKeeps(h: History, i: nat, r: Row, u: Unit, max: nat)
    requires UnitInvariant(h, u, max) && i < |h.rows| && Hits(Pendings(u), h.rows[i]) && NotAfter(h.rows, r.epoch)
    requires Hits(Starts(u), r) && !SettledSince(h.rows, Starts(u), h.rows[i].epoch)
    ensures UnitInvariant(Extended(h, r), u, max)
  {
    hide CodeAttempts, PreviousAttemptOver, SettledSince;
    MonotoneAppend(h.rows, r);
    assert HasRoom(h.rows, u, h.rows[i].epoch, max);
    StartsHadBudgetAfter(h.rows, r, u, max);
    RequestsAfter(h.rows, r, u, max);
    var after := Extended(h, r);
    FiledInTimeStays(h, r, u, i);
    forall k | i <= k < |h.rows|
      ensures !Hits(Starts(u), after.rows[k])
    {
      NoStartSince(h.rows, u, i, k);
    }
    assert FiledAt(after, u, i, |h.rows|);
    OneLiveAfter(h, r, u);
  }

  /** Rows that file other units, in order of time, keep the invariant. */
  lemma {:induction false} OtherRowsKeep(h: History, rows: seq<Row>, u: Unit, max: nat)
    requires UnitInvariant(h, u, max) && IsPrefix(h.rows, rows) && Monotone(rows)
    requires forall k :: |h.rows| <= k < |rows| ==> !FilesOn(rows[k], u)
    ensures UnitInvariant(h.(rows := rows), u, max)
  {
    hide UnitInvariant;
    if rows == h.rows {
    } else {
      var init, last := rows[..|rows| - 1], rows[|rows| - 1];
      assert init[..|h.rows|] == h.rows;
      OtherRowsKeep(h, init, u, max);
      OtherRowKeeps(h.(rows := init), last, u, max);
      assert init + [last] == rows;
    }
  }

  /** What the invariant says of a position is settled by the crashes recorded before it. */
  lemma LaterMarksKeep(h: History, crashed: map<nat, Oracles>, u: Unit, max: nat)
    requires UnitInvariant(h, u, max)
    requires forall i :: 0 <= i < |h.rows| ==> (i in h.crashed <==> i in crashed)
    requires forall i :: 0 <= i < |h.rows| && i in h.crashed ==> h.crashed[i] == crashed[i]
    ensures UnitInvariant(h.(crashed := crashed), u, max)
  {
    hide PreviousAttemptOver, StartsHadBudget, RequestsHaveRoom, CrashedOnInfra;
    var after := h.(crashed := crashed);
    assert forall i: nat :: i < |h.rows| ==> (FiledInTime(after, u, i) <==> FiledInTime(h, u, i));
    forall j | 0 <= j < |after.rows| && Hits(Starts(u), after.rows[j])
      ensures HasFiling(after, u, j)
    {
      assert HasFiling(h, u, j);
      var i: nat :| i <= j && FiledAt(h, u, i, j);
      assert FiledAt(after, u, i, j);
    }
  }

  // ----- what the invariant says about the budget -----

  /** The START at `k` found one attempt left and spent two. */
  ghost predicate Overspends(rows: seq<Row>, u: Unit, max: nat, k: nat)
    requires k < |rows|
  {
    Hits(Starts(u), rows[k]) && CodeAttempts(rows[..k], u) == max - 1 && SpendsTwo(rows[..k], rows[k], u)
  }

  lemma {:induction false} PrefixMonotone(rows: seq<Row>, n: nat)
    requires Monotone(rows) && n <= |rows|
    ensures Monotone(rows[..n])
    decreases |rows|
  {
    if n < |rows| {
      PrefixMonotone(rows[..|rows| - 1], n);
      assert rows[..|rows| - 1][..n] == rows[..n];
    } else {
      assert rows[..n] == rows;
    }
  }

  lemma BudgetStep(rows: seq<Row>, u: Unit, max: nat, n: nat)
    requires Monotone(rows) && StartsHadBudget(rows, u, max) && n < |rows|
    ensures CodeAttempts(rows[..n + 1], u) > CodeAttempts(rows[..n], u) ==> CodeAttempts(rows[..n], u) < max
    ensures CodeAttempts(rows[..n + 1], u) <= CodeAttempts(rows[..n], u) + 2
    ensures CodeAttempts(rows[..n], u) <= max ==>
              (CodeAttempts(rows[..n + 1], u) > max <==> Overspends(rows, u, max, n))
  {
    hide CodeAttempts, SpendsTwo;
    PrefixMonotone(rows, n + 1);
    assert rows[..n + 1] == rows[..n] + [rows[n]];
    AppendedRowAndBudget(rows[..n], rows[n], u);
    if Hits(Starts(u), rows[n]) { StartSpendsOneExactlyWhen(rows[..n], rows[n], u); }
  }

  lemma NothingCounted(rows: seq<Row>, u: Unit)
    ensures CodeAttempts(rows[..0], u) == 0
  {
    assert rows[..0] == [];
    assert CountedStarts([], u) == [];
  }

  /** Behind such filings the count is at most one over the cap. */
  lemma {:induction false} BudgetIsAlmostKept(rows: seq<Row>, u: Unit, max: nat, n: nat)
    requires Monotone(rows) && StartsHadBudget(rows, u, max) && n <= |rows|
    ensures CodeAttempts(rows[..n], u) <= max + 1
  {
    hide CodeAttempts, Monotone, StartsHadBudget, Overspends;
    if n == 0 {
      NothingCounted(rows, u);
    } else {
      BudgetIsAlmostKept(rows, u, max, n - 1);
      BudgetStep(rows, u, max, n - 1);
    }
  }

  ghost predicate KeepsBudget(rows: seq<Row>, u: Unit, max: nat, n: nat)
    requires n <= |rows|
  {
    forall m :: 0 <= m <= n ==> CodeAttempts(rows[..m], u) <= max
  }

  ghost predicate NoneOverspends(rows: seq<Row>, u: Unit, max: nat, n: nat)
    requires n <= |rows|
  {
    forall k :: 0 <= k < n ==> !Overspends(rows, u, max, k)
  }

  lemma KeepsBudgetStep(rows: seq<Row>, u: Unit, max: nat, n: nat)
    requires 0 < n <= |rows|
    ensures KeepsBudget(rows, u, max, n) <==> KeepsBudget(rows, u, max, n - 1) && CodeAttempts(rows[..n], u) <= max
    ensures NoneOverspends(rows, u, max, n) <==>
            NoneOverspends(rows, u, max, n - 1) && !Overspends(rows, u, max, n - 1)
    ensures KeepsBudget(rows, u, max, n - 1) ==> CodeAttempts(rows[..n - 1], u) <= max
  {
    hide CodeAttempts, Overspends;
  }

  /** The cap is kept at every moment if and only if no START overspends. */
  lemma {:induction false} BudgetIsKeptExactlyWhen(rows: seq<Row>, u: Unit, max: nat, n: nat)
    requires Monotone(rows) && StartsHadBudget(rows, u, max) && n <= |rows|
    ensures KeepsBudget(rows, u, max, n) <==> NoneOverspends(rows, u, max, n)
  {
    hide CodeAttempts, Overspends, Monotone, StartsHadBudget;
    if n == 0 {
      NothingCounted(rows, u);
    } else {
      hide KeepsBudget, NoneOverspends;
      BudgetIsKeptExactlyWhen(rows, u, max, n - 1);
      BudgetStep(rows, u, max, n - 1);
      KeepsBudgetStep(rows, u, max, n);
    }
  }
}
