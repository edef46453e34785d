/** The append-only ledger every cap, in-flight test and escalation is derived from. */
module LedgerModel {
  import opened Wrappers

  /** The submit kinds that own START, pending and settled rows. */
  datatype RepairKind = RepairCheck | ConflictRepair | RebaseOntoMaster | RepairBotThread | RequeueEscalation

  /** A row's `kind`; the derived kinds `<kind>-settled`, `<kind>-pending` and
      `<kind>-pending-settled` are constructors over the submit kind. */
  datatype Kind =
    | Start(repair: RepairKind)
    | Settled(repair: RepairKind)
    | Pending(repair: RepairKind)
    | PendingSettled(repair: RepairKind)
    | AttemptsReset
    | Requeue
    | RefreshStaleQueue
    | RestoreLabel
    | RetargetBase
    | RetargetRejected
    | SquashMerge
    | AdminBypassNudge
    | RemoveMergeHold
    | CommentBlocked
    | DispatchFailed
    | QueueOnlyNoop
    | QueueOnlyRequeue
    | RepairNoop
    | RepairInvalid
    | PrereqCreated
    | PrereqRequeue
    | OtherKind(name: string)

  /** `meta.outcomeClass` of a settled row. */
  datatype Outcome = Superseded | CapacityDeferred | Infra | Code | Success | Unknown | OtherOutcome(name: string)

  /** The fields of `meta` some decision reads. */
  datatype Meta = Meta(
    outcome: Option<Outcome>,
    workflowId: Option<string>,
    planName: Option<string>,
    errors: Option<seq<string>>,
    prNumber: int,
    branch: string)

  const NO_META := Meta(None, None, None, None, 0, "")

  datatype Row = Row(kind: Kind, pr: int, head: string, key: string, epoch: int, meta: Meta)

  /** The row filters of `count`/`latest`, `count_for_head` and `latest_by_unit`. */
  datatype Query =
    | Exact(kind: Kind, pr: int, head: string, key: string)
    | ForHead(kind: Kind, pr: int, head: string)
    | ByUnit(kind: Kind, pr: int, key: string)

  predicate Hits(q: Query, r: Row) {
    r.kind == q.kind && r.pr == q.pr &&
    match q
    case Exact(_, _, head, key) => r.head == head && r.key == key
    case ForHead(_, _, head) => r.head == head
    case ByUnit(_, _, key) => r.key == key
  }

  function CountHits(rows: seq<Row>, q: Query): nat {
    if rows == [] then 0
    else CountHits(rows[..|rows| - 1], q) + if Hits(q, rows[|rows| - 1]) then 1 else 0
  }

  /** The row the `latest*` loops end with: the last one among the hits of greatest epoch. */
  function Latest(rows: seq<Row>, q: Query): Option<Row> {
    if rows == [] then None
    else
      var before := Latest(rows[..|rows| - 1], q);
      var last := rows[|rows| - 1];
      if Hits(q, last) && (before.None? || last.epoch >= before.value.epoch) then Some(last) else before
  }

  ghost predicate NotAfter(rows: seq<Row>, epoch: int) {
    forall i :: 0 <= i < |rows| ==> rows[i].epoch <= epoch
  }

  /** Epochs never go down along the file. */
  ghost predicate Monotone(rows: seq<Row>) {
    rows == [] || (Monotone(rows[..|rows| - 1]) && NotAfter(rows[..|rows| - 1], rows[|rows| - 1].epoch))
  }

  lemma MonotoneAppend(rows: seq<Row>, r: Row)
    ensures Monotone(rows + [r]) <==> Monotone(rows) && NotAfter(rows, r.epoch)
  {
    assert (rows + [r])[..|rows|] == rows;
  }

  lemma {:induction false} MonotonePairs(rows: seq<Row>, i: nat, j: nat)
    requires Monotone(rows) && i <= j < |rows|
    ensures rows[i].epoch <= rows[j].epoch
  {
    if i < j && j < |rows| - 1 { MonotonePairs(rows[..|rows| - 1], i, j); }
  }

  lemma AppendStep(rows: seq<Row>, r: Row, q: Query)
    ensures CountHits(rows + [r], q) == CountHits(rows, q) + if Hits(q, r) then 1 else 0
    ensures Latest(rows + [r], q) ==
            var before := Latest(rows, q);
            if Hits(q, r) && (before.None? || r.epoch >= before.value.epoch) then Some(r) else before
  {
    assert (rows + [r])[..|rows|] == rows;
  }

  /** Position `at` holds a hit that no hit outranks in epoch and no later hit ties. */
  ghost predicate IsNewest(rows: seq<Row>, q: Query, at: int) {
    && 0 <= at < |rows|
    && Hits(q, rows[at])
    && (forall i :: 0 <= i < |rows| && Hits(q, rows[i]) ==> rows[i].epoch <= rows[at].epoch)
    && (forall i :: at < i < |rows| && Hits(q, rows[i]) ==> rows[i].epoch < rows[at].epoch)
  }

  lemma {:induction false} LatestPosition(rows: seq<Row>, q: Query) returns (at: int)
    ensures Latest(rows, q).None? ==> forall i :: 0 <= i < |rows| ==> !Hits(q, rows[i])
    ensures Latest(rows, q).Some? ==> IsNewest(rows, q, at) && rows[at] == Latest(rows, q).value
  {
    at := -1;
    if rows != [] {
      var init, last := rows[..|rows| - 1], rows[|rows| - 1];
      at := LatestPosition(init, q);
      assert forall i :: 0 <= i < |init| ==> rows[i] == init[i];
      if Hits(q, last) && (at == -1 || Latest(init, q).None? || last.epoch >= init[at].epoch) {
        at := |rows| - 1;
      }
    }
  }

  /** What `latest` promises, without its loop: the newest hit, and none only when there is none. */
  lemma LatestIsTheNewestHit(rows: seq<Row>, q: Query)
    ensures Latest(rows, q).None? <==> forall i :: 0 <= i < |rows| ==> !Hits(q, rows[i])
    ensures Latest(rows, q).Some? ==> exists at :: IsNewest(rows, q, at) && rows[at] == Latest(rows, q).value
  {
    var at := LatestPosition(rows, q);
  }

  /** Position `at` holds the newest of the rows `p` accepts, the last one of equal epochs. */
  ghost predicate IsNewestWhere(rows: seq<Row>, p: Row -> bool, at: int) {
    && 0 <= at < |rows| && p(rows[at])
    && (forall i :: 0 <= i < |rows| && p(rows[i]) ==> rows[i].epoch <= rows[at].epoch)
    && (forall i :: at < i < |rows| && p(rows[i]) ==> rows[i].epoch < rows[at].epoch)
  }

  ghost predicate FindsNewest(rows: seq<Row>, found: Option<Row>, p: Row -> bool) {
    && (found.None? <==> forall i :: 0 <= i < |rows| ==> !p(rows[i]))
    && (found.Some? ==> exists at :: IsNewestWhere(rows, p, at) && rows[at] == found.value)
  }

  lemma HitsFindNewest(rows: seq<Row>, q: Query, p: Row -> bool)
    requires forall r :: p(r) <==> Hits(q, r)
    ensures FindsNewest(rows, Latest(rows, q), p)
  {
    var at := LatestPosition(rows, q);
    if Latest(rows, q).Some? { assert IsNewestWhere(rows, p, at); }
  }

  /** The three filters, by the fields they read: `latest` reads kind, PR, head and key, the count
      per head no key, and `latest_by_unit` no head. */
  lemma LatestByFields(rows: seq<Row>, kind: Kind, pr: int, head: string, key: string)
    ensures FindsNewest(rows, Latest(rows, Exact(kind, pr, head, key)),
                        (r: Row) => r.kind == kind && r.pr == pr && r.head == head && r.key == key)
    ensures FindsNewest(rows, Latest(rows, ForHead(kind, pr, head)),
                        (r: Row) => r.kind == kind && r.pr == pr && r.head == head)
    ensures FindsNewest(rows, Latest(rows, ByUnit(kind, pr, key)), (r: Row) => r.kind == kind && r.pr == pr
                        && r.key == key)
  {
    HitsFindNewest(rows, Exact(kind, pr, head, key),
                   (r: Row) => r.kind == kind && r.pr == pr && r.head == head && r.key == key);
    HitsFindNewest(rows, ForHead(kind, pr, head), (r: Row) => r.kind == kind && r.pr == pr && r.head == head);
    HitsFindNewest(rows, ByUnit(kind, pr, key), (r: Row) => r.kind == kind && r.pr == pr && r.key == key);
  }

  lemma {:induction false} CountIsPositiveIffHit(rows: seq<Row>, q: Query)
    ensures CountHits(rows, q) > 0 <==> exists i :: 0 <= i < |rows| && Hits(q, rows[i])
  {
    if rows != [] {
      var init := rows[..|rows| - 1];
      CountIsPositiveIffHit(init, q);
      if CountHits(init, q) > 0 {
        var i :| 0 <= i < |init| && Hits(q, init[i]);
        assert Hits(q, rows[i]);
      }
      if Hits(q, rows[|rows| - 1]) { assert CountHits(rows, q) > 0; }
      if i :| 0 <= i < |rows| && Hits(q, rows[i]) && i < |init| { assert Hits(q, init[i]); }
    }
  }

  /** `Ledger`: the rows read from the state file, in file order, then everything recorded. */
  class Ledger {
    var rows: seq<Row>

    constructor (stored: seq<Row>)
      ensures rows == stored
    {
      rows := stored;
    }

    method CountRows(q: Query) returns (n: nat)
      ensures n == CountHits(rows, q)
    {
      n := 0;
      for i := 0 to |rows|
        invariant n == CountHits(rows[..i], q)
      {
        AppendStep(rows[..i], rows[i], q);
        assert rows[..i] + [rows[i]] == rows[..i + 1];
        if Hits(q, rows[i]) { n := n + 1; }
      }
      assert rows[..|rows|] == rows;
    }

    method Count(kind: Kind, pr: int, head: string, key: string) returns (n: nat)
      ensures n == CountHits(rows, Exact(kind, pr, head, key))
    {
      n := CountRows(Exact(kind, pr, head, key));
    }

    method CountForHead(kind: Kind, pr: int, head: string) returns (n: nat)
      ensures n == CountHits(rows, ForHead(kind, pr, head))
    {
      n := CountRows(ForHead(kind, pr, head));
    }

    /** `latest` and `latest_by_unit`: `latestEpoch` is only read once a row was kept. */
    method LatestRow(q: Query) returns (latest: Option<Row>)
      ensures latest == Latest(rows, q)
    {
      latest := None;
      var latestEpoch := 0;
      for i := 0 to |rows|
        invariant latest == Latest(rows[..i], q)
        invariant latest.Some? ==> latestEpoch == latest.value.epoch
      {
        AppendStep(rows[..i], rows[i], q);
        assert rows[..i] + [rows[i]] == rows[..i + 1];
        if !Hits(q, rows[i]) { continue; }
        if latest.None? || rows[i].epoch >= latestEpoch {
          latest := Some(rows[i]);
          latestEpoch := rows[i].epoch;
        }
      }
      assert rows[..|rows|] == rows;
    }

    method HasDifferentHead(kind: Kind, pr: int, currentHead: string, key: string) returns (found: bool)
      ensures found == DifferentHead(rows, kind, pr, currentHead, key)
    {
      for i := 0 to |rows|
        invariant !DifferentHead(rows[..i], kind, pr, currentHead, key)
      {
        if Hits(ByUnit(kind, pr, key), rows[i]) && rows[i].head != "" && rows[i].head != currentHead {
          return true;
        }
      }
      assert rows[..|rows|] == rows;
      return false;
    }

    method Record(row: Row)
      modifies this
      ensures rows == old(rows) + [row]
    {
      rows := rows + [row];
    }
  }

  predicate DifferentHead(rows: seq<Row>, kind: Kind, pr: int, currentHead: string, key: string) {
    exists i :: 0 <= i < |rows| && Hits(ByUnit(kind, pr, key), rows[i]) && rows[i].head != ""
      && rows[i].head != currentHead
  }

  /** A unit was tried on another head exactly when a row of its kind, PR and key names one. */
  lemma DifferentHeadExactlyWhen(rows: seq<Row>, kind: Kind, pr: int, currentHead: string, key: string)
    ensures DifferentHead(rows, kind, pr, currentHead, key) <==>
            exists r :: r in rows && r.kind == kind && r.pr == pr && r.key == key && |r.head| > 0
                        && r.head != currentHead
  {
    if r :| r in rows && r.kind == kind && r.pr == pr && r.key == key && |r.head| > 0 && r.head != currentHead {
      var i :| 0 <= i < |rows| && rows[i] == r;
      assert Hits(ByUnit(kind, pr, key), rows[i]);
    }
  }
}
