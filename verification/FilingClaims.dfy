/** The shared claim table: any interleaving of planners and releases on one atomic table. */
module FilingClaims {
  import opened StackFactsModel
  import opened Planner

  // ----- the claims of one planning call -----

  predicate IsGrant(call: Call) { call.ClaimCall? && !call.denied }

  /** The claims granted during a planning call. */
  function Grants(log: seq<Call>): nat {
    if log == [] then 0 else Grants(log[..|log| - 1]) + if IsGrant(log[|log| - 1]) then 1 else 0
  }

  lemma ClaimGrants(f: Filing, key: ClaimKey, log: seq<Call>)
    ensures f.claims ==>
              Grants(TryClaim(f, key, log).log) == Grants(log) + if TryClaim(f, key, log).granted then 1 else 0
    ensures !f.claims ==> TryClaim(f, key, log) == Claimed(true, log)
  {
    assert (log + [ClaimCall(key, f.denied(|log|))])[..|log|] == log;
  }

  lemma ReleaseGrants(key: ClaimKey, log: seq<Call>)
    ensures Grants(log + [ReleaseCall(key)]) == Grants(log)
  {
    assert (log + [ReleaseCall(key)])[..|log|] == log;
  }

  /** The claims `run_cycle` gives back when the dispatch of a repair fails. */
  function ReleaseKeys(f: Filing, pr: PrSnapshot, a: Action): set<ClaimKey> {
    if a.kind == RebaseOntoMasterAction then {ClaimKey(REBASE_FILING_KIND, pr.number, pr.head)}
    else if a.kind == RepairCheckAction && !(BOT_THREAD_PREFIX <= a.key) then
      var kind := CheckFilingKind(f, a.key);
      if pr.latest.Some?
      then {ClaimKey(kind, pr.number, pr.head), ClaimKey(kind, pr.number, QueueStateSha(pr, pr.latest.value))}
      else {ClaimKey(kind, pr.number, pr.head)}
    else {}
  }

  /** A failed dispatch gives back the keys its own repair may have been claimed under, for this head
      or for the speculative merge Mergify last reported, and no other. */
  lemma ReleasesExactlyItsOwn(f: Filing, pr: PrSnapshot, a: Action, key: ClaimKey)
    ensures key in ReleaseKeys(f, pr, a) <==>
            && key.subject == pr.number
            && match a.kind
               case RebaseOntoMasterAction => key.kind == "admin-requeue:rebase-onto-master" && key.sha == pr.head
               case RepairCheckAction =>
                 && !("bot_review_thread:" <= a.key) && key.kind == "admin-requeue:check:" + f.slug(a.key)
                 && (|| key.sha == pr.head
                     || (pr.latest.Some? && key.sha == pr.head + ":" + if pr.latest.value.commentId == ""
                                                                       then "no-comment"
                                                                       else pr.latest.value.commentId))
               case _ => false
  {
  }

  // ----- the table, over any interleaving -----

  /** One call as the owner saw it. A caller that times out counts its claim as denied, and
      its release as done, whether or not the owner `applied` it. */
  datatype Event = Event(call: Call, applied: bool)

  function TableAfter(events: seq<Event>, n: nat): set<ClaimKey>
    requires n <= |events|
  {
    if n == 0 then {}
    else
      var before, e := TableAfter(events, n - 1), events[n - 1];
      if !e.applied then before
      else match e.call
        case ClaimCall(key, _) => before + {key}
        case ReleaseCall(key) => before - {key}
  }

  /** A claim is only granted where the owner inserted a key that was absent. */
  ghost predicate Atomic(events: seq<Event>) {
    forall i :: 0 <= i < |events| && IsGrant(events[i].call) ==>
      events[i].applied && events[i].call.key !in TableAfter(events, i)
  }

  /** The table holds a key exactly when a claim of it was applied and no release of it since. */
  lemma {:induction false} HeldExactlyWhen(events: seq<Event>, key: ClaimKey, n: nat)
    requires n <= |events|
    ensures key in TableAfter(events, n) <==>
            exists i :: 0 <= i < n && IsLastClaim(events, key, i, n)
  {
    if n > 0 {
      HeldExactlyWhen(events, key, n - 1);
      var e := events[n - 1];
      if e.applied && e.call.ClaimCall? && e.call.key == key { assert IsLastClaim(events, key, n - 1, n); }
      if key in TableAfter(events, n - 1) && !(e.applied && e.call == ReleaseCall(key)) {
        var i :| 0 <= i < n - 1 && IsLastClaim(events, key, i, n - 1);
        assert IsLastClaim(events, key, i, n);
      }
      if i :| 0 <= i < n && IsLastClaim(events, key, i, n) {
        if i < n - 1 { assert IsLastClaim(events, key, i, n - 1); }
      }
    }
  }

  ghost predicate IsLastClaim(events: seq<Event>, key: ClaimKey, i: nat, n: nat)
    requires i < n <= |events|
  {
    events[i].applied && events[i].call.ClaimCall? && events[i].call.key == key
    && forall k :: i < k < n ==> !(events[k].applied && events[k].call == ReleaseCall(key))
  }

  /** The moments up to `n` at which this call was made. */
  ghost function CallsOf(events: seq<Event>, call: Call, n: nat): set<nat>
    requires n <= |events|
  {
    set i: nat | i < n && events[i].call == call
  }

  lemma OneMoreCall(events: seq<Event>, call: Call, n: nat)
    requires 0 < n <= |events|
    ensures |CallsOf(events, call, n)| == |CallsOf(events, call, n - 1)| + if events[n - 1].call == call then 1 else 0
  {
    var before, after := CallsOf(events, call, n - 1), CallsOf(events, call, n);
    assert after == if events[n - 1].call == call then before + {n - 1} else before;
  }

  /** Whatever planners, failed calls and releases interleave: the grants of a key never exceed
      its releases by more than the one claim the table still holds. */
  lemma {:induction false} GrantsNeedReleases(events: seq<Event>, key: ClaimKey, n: nat)
    requires n <= |events| && Atomic(events)
    ensures |CallsOf(events, ClaimCall(key, false), n)|
            <= |CallsOf(events, ReleaseCall(key), n)| + if key in TableAfter(events, n) then 1 else 0
  {
    if n == 0 {
      assert CallsOf(events, ClaimCall(key, false), 0) == {};
    } else {
      GrantsNeedReleases(events, key, n - 1);
      OneMoreCall(events, ClaimCall(key, false), n);
      OneMoreCall(events, ReleaseCall(key), n);
      hide CallsOf;
    }
  }

  lemma {:induction false} HeldUntilReleased(events: seq<Event>, key: ClaimKey, i: nat, j: nat)
    requires i < j <= |events| && Atomic(events) && IsGrant(events[i].call) && events[i].call.key == key
    requires forall k :: i < k < j ==> events[k].call != ReleaseCall(key)
    ensures key in TableAfter(events, j)
  {
    if j > i + 1 { HeldUntilReleased(events, key, i, j - 1); }
  }

  /** No two planners hold one key: between two grants of it stands a release of it. */
  lemma OneHolderPerKey(events: seq<Event>, i: nat, j: nat)
    requires i < j < |events| && Atomic(events) && IsGrant(events[i].call) && IsGrant(events[j].call)
    requires events[i].call.key == events[j].call.key
    ensures exists k :: i < k < j && events[k].call == ReleaseCall(events[i].call.key)
  {
    if forall k :: i < k < j ==> events[k].call != ReleaseCall(events[i].call.key) {
      HeldUntilReleased(events, events[i].call.key, i, j);
    }
  }
}
