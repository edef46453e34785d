/** The stacks of a tick come out of one grouping of one list of snapshots, so a PR number has one
    snapshot in them, however the groups overlap. */
module LoadedTicks {
  import opened StackFactsModel
  import opened Controller
  import Groups = StackGroups

  /** The tick's stacks are groups of these snapshots, one snapshot per PR number. */
  ghost predicate LoadedFrom(t: Tick, prs: seq<PrSnapshot>, metadata: map<int, Groups.Meta>) {
    && Distinct(prs)
    && forall i :: 0 <= i < |t.stacks| ==>
         exists k :: 0 <= k < |Groups.GroupStackPrs(prs, metadata, t.trunk)|
                     && t.stacks[i].prs == Groups.GroupStackPrs(prs, metadata, t.trunk)[k].prs
  }

  lemma StacksAmong(t: Tick, prs: seq<PrSnapshot>, metadata: map<int, Groups.Meta>)
    requires LoadedFrom(t, prs, metadata)
    ensures forall i :: 0 <= i < |t.stacks| ==> Groups.Among(prs, t.stacks[i].prs)
  {
    Groups.GroupsHoldGivenPrs(prs, metadata, t.trunk);
    hide Groups.GroupStackPrs, Groups.Among;
  }

  lemma {:induction false} AddedAmong(found: map<int, PrSnapshot>, all: seq<PrSnapshot>, prs: seq<PrSnapshot>, n: nat)
    requires n <= |prs| && Groups.Among(all, prs) && forall x :: x in found ==> found[x] in all && found[x].number == x
    ensures forall x :: x in AddPrs(found, prs, n) ==>
              AddPrs(found, prs, n)[x] in all && AddPrs(found, prs, n)[x].number == x
    ensures forall k :: 0 <= k < n ==> prs[k].number in AddPrs(found, prs, n)
    ensures forall x :: x in found ==> x in AddPrs(found, prs, n)
  {
    if n > 0 { AddedAmong(found, all, prs, n - 1); }
  }

  lemma {:induction false} NumberedAmong(all: seq<PrSnapshot>, stacks: seq<StackTick>, n: nat)
    requires n <= |stacks| && forall i :: 0 <= i < |stacks| ==> Groups.Among(all, stacks[i].prs)
    ensures forall x :: x in PrsByNumber(stacks, n) ==>
              PrsByNumber(stacks, n)[x] in all && PrsByNumber(stacks, n)[x].number == x
    ensures forall i, k :: 0 <= i < n && 0 <= k < |stacks[i].prs| ==> stacks[i].prs[k].number in PrsByNumber(stacks, n)
  {
    hide Groups.Among;
    if n > 0 {
      NumberedAmong(all, stacks, n - 1);
      AddedAmong(PrsByNumber(stacks, n - 1), all, stacks[n - 1].prs, |stacks[n - 1].prs|);
    }
  }

  lemma SameNumberSamePr(prs: seq<PrSnapshot>, a: PrSnapshot, b: PrSnapshot)
    requires Distinct(prs) && a in prs && b in prs && a.number == b.number
    ensures a == b
  {
    var i :| 0 <= i < |prs| && prs[i] == a;
    var j :| 0 <= j < |prs| && prs[j] == b;
  }

  /** What the theorems on runs ask of a tick's snapshots holds of every tick that was loaded so. */
  lemma LoadedTickHasOneSnapshot(t: Tick, prs: seq<PrSnapshot>, metadata: map<int, Groups.Meta>, number: int)
    requires LoadedFrom(t, prs, metadata)
    ensures OneSnapshot(t, number)
  {
    StacksAmong(t, prs, metadata);
    NumberedAmong(prs, t.stacks, |t.stacks|);
    hide PrsByNumber, LoadedFrom;
    forall i, j | 0 <= i < |t.stacks| && 0 <= j < |t.stacks[i].prs| && t.stacks[i].prs[j].number == number
      ensures number in AllPrs(t) && t.stacks[i].prs[j] == AllPrs(t)[number]
    {
      SameNumberSamePr(prs, t.stacks[i].prs[j], AllPrs(t)[number]);
    }
  }
}
