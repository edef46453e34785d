/** The complaint scout's attempt ledger: at most three failed drafts of a target, one final row,
    then never again. */
module Scout {
  import opened Wrappers

  const ATTEMPT_CAP := 3

  datatype Status = DraftFailed | Drafted | Terminal

  datatype Record = Record(key: string, attempt: nat, status: Status)

  predicate IsFinal(r: Record) { r.status != DraftFailed }

  // ----- ledger_state -----

  function Attempts(records: seq<Record>, key: string): nat {
    if records == [] then 0
    else
      var before, last := Attempts(records[..|records| - 1], key), records[|records| - 1];
      if last.key == key && last.attempt > before then last.attempt else before
  }

  predicate HasFinal(records: seq<Record>, key: string) {
    exists i :: 0 <= i < |records| && records[i].key == key && IsFinal(records[i])
  }

  predicate Capped(records: seq<Record>, key: string) {
    Attempts(records, key) >= ATTEMPT_CAP && !HasFinal(records, key)
  }

  // ----- one live pass -----

  /** `forced` is the blocker of a capped target. */
  datatype Selected = Selected(key: string, forced: bool)

  function SelectFrom(candidates: seq<string>, records: seq<Record>, i: nat): Option<Selected>
    requires i <= |candidates|
    decreases |candidates| - i
  {
    if i == |candidates| then None
    else if HasFinal(records, candidates[i]) then SelectFrom(candidates, records, i + 1)
    else Some(Selected(candidates[i], Capped(records, candidates[i])))
  }

  function SelectCandidate(candidates: seq<string>, records: seq<Record>): Option<Selected> {
    SelectFrom(candidates, records, 0)
  }

  /** What happens to a selected target: a blocker is posted or the post raises; a draft is staged
      or staging raises, after the failure was recorded. */
  datatype Outcome = Blocked | PostRaises | Staged | StageRaises

  function Act(records: seq<Record>, s: Selected, o: Outcome): seq<Record> {
    var attempt := Attempts(records, s.key) + 1;
    if s.forced then if o == PostRaises then records else records + [Record(s.key, attempt, Terminal)]
    else
      match o
      case Blocked => records + [Record(s.key, attempt, Terminal)]
      case PostRaises => records
      case Staged => records + [Record(s.key, attempt, Drafted)]
      case StageRaises => records + [Record(s.key, attempt, DraftFailed)]
  }

  datatype Pass = Pass(candidates: seq<string>, outcome: Outcome)

  function LivePass(records: seq<Record>, p: Pass): seq<Record> {
    var s := SelectCandidate(p.candidates, records);
    if s.None? then records else Act(records, s.value, p.outcome)
  }

  function Run(passes: seq<Pass>, n: nat): seq<Record>
    requires n <= |passes|
  {
    if n == 0 then [] else LivePass(Run(passes, n - 1), passes[n - 1])
  }

  class Ledger {
    var records: seq<Record>

    constructor ()
      ensures records == []
    {
      records := [];
    }

    method AppendLedger(r: Record)
      modifies this
      ensures records == old(records) + [r]
    {
      records := records + [r];
    }

    method AttemptsOf(key: string) returns (attempts: nat)
      ensures attempts == Attempts(records, key)
    {
      attempts := 0;
      for i := 0 to |records|
        invariant attempts == Attempts(records[..i], key)
      {
        assert records[..i + 1][..i] == records[..i];
        if records[i].key == key && records[i].attempt > attempts { attempts := records[i].attempt; }
      }
      assert records[..|records|] == records;
    }

    /** `live_pass`, from selection to the appended row. */
    method RunPass(p: Pass)
      modifies this
      ensures records == LivePass(old(records), p)
    {
      var selected: Option<Selected> := None;
      for i := 0 to |p.candidates|
        invariant selected.None? && SelectCandidate(p.candidates, records) == SelectFrom(p.candidates, records, i)
      {
        var key := p.candidates[i];
        if HasFinal(records, key) { continue; }
        selected := Some(Selected(key, Capped(records, key)));
        break;
      }
      assert selected == SelectCandidate(p.candidates, records);
      if selected.None? { return; }
      var attempts := AttemptsOf(selected.value.key);
      if p.outcome == PostRaises { return; }
      var status := if selected.value.forced || p.outcome == Blocked then Terminal
      else if p.outcome == Staged then Drafted else DraftFailed;
      AppendLedger(Record(selected.value.key, attempts + 1, status));
    }
  }

  // ----- what every run keeps -----

  function Rows(records: seq<Record>, key: string): nat {
    if records == [] then 0 else Rows(records[..|records| - 1], key)
                                 + if records[|records| - 1].key == key then 1 else 0
  }

  function Failures(records: seq<Record>, key: string): nat {
    if records == [] then 0
    else Failures(records[..|records| - 1], key)
         + if records[|records| - 1].key == key && !IsFinal(records[|records| - 1]) then 1 else 0
  }

  /** A target's rows are numbered one by one: at most three failures, then at most one final row. */
  ghost predicate Bounded(records: seq<Record>, key: string) {
    && Attempts(records, key) == Rows(records, key)
    && Failures(records, key) <= ATTEMPT_CAP
    && Rows(records, key) == Failures(records, key) + if HasFinal(records, key) then 1 else 0
  }

  lemma AppendRecord(records: seq<Record>, r: Record, key: string)
    ensures var after := records + [r];
            && Rows(after, key) == Rows(records, key) + (if r.key == key then 1 else 0)
            && Failures(after, key) == Failures(records, key) + (if r.key == key && !IsFinal(r) then 1 else 0)
            && Attempts(after, key)
               == (if r.key == key && r.attempt > Attempts(records, key) then r.attempt else Attempts(records, key))
            && (HasFinal(after, key) <==> HasFinal(records, key) || (r.key == key && IsFinal(r)))
  {
    var after := records + [r];
    assert after[..|records|] == records && after[|records|] == r;
    if HasFinal(records, key) {
      var i :| 0 <= i < |records| && records[i].key == key && IsFinal(records[i]);
      assert after[i] == records[i];
    }
  }

  lemma {:induction false} SelectedIsOpen(candidates: seq<string>, records: seq<Record>, i: nat)
    requires i <= |candidates|
    ensures var s := SelectFrom(candidates, records, i);
            s.Some? ==>
              && s.value.key in candidates && !HasFinal(records, s.value.key)
              && s.value.forced == Capped(records, s.value.key)
    ensures SelectFrom(candidates, records, i).None? ==>
              forall k :: i <= k < |candidates| ==> HasFinal(records, candidates[k])
    decreases |candidates| - i
  {
    if i < |candidates| { SelectedIsOpen(candidates, records, i + 1); }
  }

  /** The attempt number counted on is the greatest one recorded for the target. */
  lemma {:induction false} AttemptsIsGreatest(records: seq<Record>, key: string)
    ensures forall i :: 0 <= i < |records| && records[i].key == key ==> records[i].attempt <= Attempts(records, key)
    ensures Attempts(records, key) == 0
            || exists i :: 0 <= i < |records| && records[i].key == key && records[i].attempt == Attempts(records, key)
  {
    if records != [] {
      var init := records[..|records| - 1];
      AttemptsIsGreatest(init, key);
      assert forall i :: 0 <= i < |init| ==> records[i] == init[i];
    }
  }

  ghost predicate IsOpen(records: seq<Record>, key: string) {
    forall i :: 0 <= i < |records| && records[i].key == key ==> records[i].status == DraftFailed
  }

  /** What a pass does with the first candidate no final row exists for: nothing where the post raises;
      a final blocker where it is one, or three drafts of it failed; else what became of its draft. */
  lemma PassDecides(records: seq<Record>, p: Pass, i: nat)
    requires i < |p.candidates| && IsOpen(records, p.candidates[i])
    requires forall k :: 0 <= k < i ==> !IsOpen(records, p.candidates[k])
    ensures var key, attempts := p.candidates[i], Attempts(records, p.candidates[i]);
            LivePass(records, p) == match p.outcome
                                    case PostRaises => records
                                    case Blocked => records + [Record(key, attempts + 1, Terminal)]
                                    case Staged => records + [Record(key, attempts + 1, if attempts >= 3 then Terminal
                                                                                        else Drafted)]
                                    case StageRaises => records + [Record(key, attempts + 1, if attempts >= 3
                                                                                             then Terminal
                                                                                             else DraftFailed)]
  {
    OpenHasNoFinal(records, p.candidates[i]);
    FirstOpenIsSelected(records, p.candidates, 0, i);
  }

  lemma OpenHasNoFinal(records: seq<Record>, key: string)
    ensures IsOpen(records, key) <==> !HasFinal(records, key)
  {
  }

  lemma {:induction false} FirstOpenIsSelected(records: seq<Record>, candidates: seq<string>, k: nat, i: nat)
    requires k <= i < |candidates| && IsOpen(records, candidates[i])
    requires forall m :: k <= m < i ==> !IsOpen(records, candidates[m])
    ensures SelectFrom(candidates, records, k) == Some(Selected(candidates[i], Capped(records, candidates[i])))
    decreases i - k
  {
    OpenHasNoFinal(records, candidates[k]);
    if k < i { FirstOpenIsSelected(records, candidates, k + 1, i); }
  }

  lemma PassKeepsBounds(records: seq<Record>, p: Pass, key: string)
    requires Bounded(records, key)
    ensures Bounded(LivePass(records, p), key)
  {
    hide Attempts, Rows, Failures, HasFinal, SelectFrom;
    SelectedIsOpen(p.candidates, records, 0);
    var after := LivePass(records, p);
    if after != records { AppendRecord(records, after[|records|], key); }
  }

  /** Each target gets at most three failed drafts and one final row, in any run. */
  lemma {:induction false} RunsAreBounded(passes: seq<Pass>, n: nat, key: string)
    requires n <= |passes|
    ensures Bounded(Run(passes, n), key)
  {
    if n > 0 {
      RunsAreBounded(passes, n - 1, key);
      PassKeepsBounds(Run(passes, n - 1), passes[n - 1], key);
    }
  }

  /** After its final row a target is never selected, so none of its rows follows that row. */
  lemma FinalMeansNeverSelected(passes: seq<Pass>, n: nat, key: string)
    requires n < |passes| && HasFinal(Run(passes, n), key)
    ensures Rows(Run(passes, n + 1), key) == Rows(Run(passes, n), key)
    ensures SelectCandidate(passes[n].candidates, Run(passes, n)).Some? ==>
              SelectCandidate(passes[n].candidates, Run(passes, n)).value.key != key
  {
    var records, after := Run(passes, n), Run(passes, n + 1);
    SelectedIsOpen(passes[n].candidates, records, 0);
    if after != records { AppendRecord(records, after[|records|], key); }
  }

  // ----- termination for a fixed candidate list -----

  function KeysOf(records: seq<Record>): set<string> { set i | 0 <= i < |records| :: records[i].key }

  function Without(records: seq<Record>, key: string): seq<Record> {
    if records == [] then []
    else if records[|records| - 1].key == key then Without(records[..|records| - 1], key)
    else Without(records[..|records| - 1], key) + [records[|records| - 1]]
  }

  lemma KeysAppend(records: seq<Record>, r: Record)
    ensures KeysOf(records + [r]) == KeysOf(records) + {r.key}
  {
    var after := records + [r];
    assert after[|records|] == r && forall k :: 0 <= k < |records| ==> after[k] == records[k];
  }

  lemma {:induction false} WithoutCounts(records: seq<Record>, key: string, other: string)
    ensures |Without(records, key)| + Rows(records, key) == |records|
    ensures Rows(Without(records, key), other) == if other == key then 0 else Rows(records, other)
  {
    if records != [] {
      var init, last := records[..|records| - 1], records[|records| - 1];
      WithoutCounts(init, key, other);
      hide Attempts, Failures, HasFinal;
      if last.key != key { AppendRecord(Without(init, key), last, other); }
    }
  }

  lemma {:induction false} WithoutKeys(records: seq<Record>, key: string)
    ensures KeysOf(Without(records, key)) == KeysOf(records) - {key}
  {
    if records != [] {
      var init, last := records[..|records| - 1], records[|records| - 1];
      assert records == init + [last];
      WithoutKeys(init, key);
      hide KeysOf;
      KeysAppend(init, last);
      KeysAppend(Without(init, key), last);
    }
  }

  lemma NoKeysNoRecords(records: seq<Record>)
    ensures KeysOf(records) == {} <==> records == []
  {
    assert records != [] ==> records[0].key in KeysOf(records);
  }

  lemma OneMore(each: nat, n: nat)
    requires n > 0
    ensures each * n == each * (n - 1) + each
  {
  }

  lemma {:induction false} CountedByKey(records: seq<Record>, keys: set<string>, each: nat)
    requires KeysOf(records) <= keys && forall k :: k in keys ==> Rows(records, k) <= each
    ensures |records| <= each * |keys|
    decreases |keys|
  {
    if keys == {} {
      NoKeysNoRecords(records);
    } else {
      var key :| key in keys;
      var rest := Without(records, key);
      hide Rows, Without, KeysOf;
      WithoutCounts(records, key, key);
      WithoutKeys(records, key);
      forall k | k in keys - {key}
        ensures Rows(rest, k) <= each
      {
        WithoutCounts(records, key, k);
      }
      CountedByKey(rest, keys - {key}, each);
      OneMore(each, |keys|);
    }
  }

  lemma {:induction false} RunKeys(passes: seq<Pass>, n: nat, keys: set<string>)
    requires n <= |passes|
    requires forall i :: 0 <= i < n ==> forall k :: 0 <= k < |passes[i].candidates| ==> passes[i].candidates[k] in keys
    ensures KeysOf(Run(passes, n)) <= keys
  {
    if n > 0 {
      RunKeys(passes, n - 1, keys);
      SelectedIsOpen(passes[n - 1].candidates, Run(passes, n - 1), 0);
    }
  }

  /** However many passes run over the targets `keys`, at most four rows a target are appended. */
  lemma ScoutTerminates(passes: seq<Pass>, n: nat, keys: set<string>)
    requires n <= |passes|
    requires forall i :: 0 <= i < n ==> forall k :: 0 <= k < |passes[i].candidates| ==> passes[i].candidates[k] in keys
    ensures |Run(passes, n)| <= (ATTEMPT_CAP + 1) * |keys|
  {
    var records := Run(passes, n);
    RunKeys(passes, n, keys);
    forall k | k in keys
      ensures Rows(records, k) <= ATTEMPT_CAP + 1
    {
      RunsAreBounded(passes, n, k);
    }
    CountedByKey(records, keys, ATTEMPT_CAP + 1);
  }

  /** A pass appends nothing only when every candidate is finished, or Slack refused the post. */
  lemma IdleOnlyWhenFinished(records: seq<Record>, p: Pass)
    ensures LivePass(records, p) == records <==>
            (forall k :: 0 <= k < |p.candidates| ==> HasFinal(records, p.candidates[k])) || p.outcome == PostRaises
  {
    SelectedIsOpen(p.candidates, records, 0);
    var s := SelectCandidate(p.candidates, records);
    if s.Some? {
      var k :| 0 <= k < |p.candidates| && p.candidates[k] == s.value.key;
      assert |Act(records, s.value, p.outcome)| == |records| <==> p.outcome == PostRaises;
    }
  }
}
