/** Grouping open PRs into stacks: first by stack comments, then by walking base-to-head chains. */
module StackGroups {
  import opened StackFactsModel

  datatype Meta = Meta(stackId: string, numbers: seq<int>)

  datatype Source = FromComment(stackId: string) | FromBranch(root: int) | Single(number: int)

  /** `source` stands for the stack id: a comment's own, "branch:" or "single:" and a number. */
  datatype Group = Group(source: Source, prs: seq<PrSnapshot>)

  /** The groups so far and the PR numbers they use. */
  datatype Grouped = Grouped(groups: seq<Group>, used: set<int>)

  function LastOf(prs: seq<PrSnapshot>, n: nat): map<int, PrSnapshot>
    requires n <= |prs|
  {
    if n == 0 then map[] else LastOf(prs, n - 1)[prs[n - 1].number := prs[n - 1]]
  }

  // ----- stack comments -----

  function Present(byNumber: map<int, PrSnapshot>, numbers: seq<int>, n: nat): seq<PrSnapshot>
    requires n <= |numbers|
  {
    if n == 0 then []
    else if numbers[n - 1] in byNumber then Present(byNumber, numbers, n - 1) + [byNumber[numbers[n - 1]]]
    else Present(byNumber, numbers, n - 1)
  }

  datatype MetaState = MetaState(grouped: Grouped, seen: set<Meta>)

  function MetaStep(s: MetaState, pr: PrSnapshot, byNumber: map<int, PrSnapshot>, metadata: map<int, Meta>): MetaState {
    if pr.number !in metadata || metadata[pr.number] in s.seen then s
    else
      var meta := metadata[pr.number];
      var present := Present(byNumber, meta.numbers, |meta.numbers|);
      MetaState(Grouped(if present == [] then s.grouped.groups
                        else s.grouped.groups + [Group(FromComment(meta.stackId), present)],
                        s.grouped.used + Numbers(present)),
                s.seen + {meta})
  }

  function MetaGroups(prs: seq<PrSnapshot>, metadata: map<int, Meta>, n: nat): MetaState
    requires n <= |prs|
  {
    if n == 0 then MetaState(Grouped([], {}), {})
    else MetaStep(MetaGroups(prs, metadata, n - 1), prs[n - 1], LastOf(prs, |prs|), metadata)
  }

  // ----- branch chains -----

  function Unused(prs: seq<PrSnapshot>, used: set<int>, n: nat): seq<PrSnapshot>
    requires n <= |prs|
  {
    if n == 0 then []
    else if prs[n - 1].number in used then Unused(prs, used, n - 1)
    else Unused(prs, used, n - 1) + [prs[n - 1]]
  }

  function WithBase(prs: seq<PrSnapshot>, base: string, n: nat): seq<PrSnapshot>
    requires n <= |prs|
  {
    if n == 0 then []
    else if prs[n - 1].base == base then WithBase(prs, base, n - 1) + [prs[n - 1]]
    else WithBase(prs, base, n - 1)
  }

  function OpenHeads(prs: seq<PrSnapshot>): set<string> {
    set i | 0 <= i < |prs| && prs[i].state == OPEN && prs[i].headRef != "" :: prs[i].headRef
  }

  predicate IsRoot(pr: PrSnapshot, heads: set<string>, trunk: string) { pr.base == trunk || pr.base !in heads }

  function Roots(prs: seq<PrSnapshot>, heads: set<string>, trunk: string, n: nat): seq<PrSnapshot>
    requires n <= |prs|
  {
    if n == 0 then []
    else if IsRoot(prs[n - 1], heads, trunk) then InsertByNumber(Roots(prs, heads, trunk, n - 1), prs[n - 1])
    else Roots(prs, heads, trunk, n - 1)
  }

  /** Behind every PR of the same or a smaller number: a stable sort, one insertion at a time. */
  function InsertByNumber(sorted: seq<PrSnapshot>, pr: PrSnapshot): seq<PrSnapshot> {
    if sorted == [] || sorted[|sorted| - 1].number <= pr.number then sorted + [pr]
    else InsertByNumber(sorted[..|sorted| - 1], pr) + [sorted[|sorted| - 1]]
  }

  function UnusedChildren(remaining: seq<PrSnapshot>, used: set<int>, top: PrSnapshot): seq<PrSnapshot> {
    var children := WithBase(remaining, top.headRef, |remaining|);
    Unused(children, used, |children|)
  }

  datatype Walk = Walk(stack: seq<PrSnapshot>, used: set<int>)

  lemma {:induction false} UnusedAreFree(prs: seq<PrSnapshot>, used: set<int>, n: nat)
    requires n <= |prs|
    ensures forall k :: 0 <= k < |Unused(prs, used, n)| ==>
              Unused(prs, used, n)[k].number !in used && Unused(prs, used, n)[k] in prs[..n]
  {
    if n > 0 {
      UnusedAreFree(prs, used, n - 1);
      assert prs[..n] == prs[..n - 1] + [prs[n - 1]];
    }
  }

  lemma {:induction false} WithBaseIsFrom(prs: seq<PrSnapshot>, base: string, n: nat)
    requires n <= |prs|
    ensures forall k :: 0 <= k < |WithBase(prs, base, n)| ==>
              WithBase(prs, base, n)[k].base == base && WithBase(prs, base, n)[k] in prs[..n]
  {
    if n > 0 {
      WithBaseIsFrom(prs, base, n - 1);
      assert prs[..n] == prs[..n - 1] + [prs[n - 1]];
    }
  }

  lemma ChildIsFreeChild(remaining: seq<PrSnapshot>, used: set<int>, top: PrSnapshot)
    ensures var children := UnusedChildren(remaining, used, top);
            |children| == 1 ==>
              children[0].base == top.headRef && children[0].number !in used && children[0].number in Numbers(remaining)
  {
    var all := WithBase(remaining, top.headRef, |remaining|);
    UnusedAreFree(all, used, |all|);
    WithBaseIsFrom(remaining, top.headRef, |remaining|);
    var children := UnusedChildren(remaining, used, top);
    if |children| == 1 {
      var k :| 0 <= k < |all| && all[k] == children[0];
      assert all[k] in remaining;
      var i :| 0 <= i < |remaining| && remaining[i] == children[0];
    }
  }

  /** The while loop: as long as the top has exactly one unused child, that child is the next top. */
  function Climb(remaining: seq<PrSnapshot>, w: Walk): Walk
    requires w.stack != []
    decreases |Numbers(remaining) - w.used|
  {
    var top := w.stack[|w.stack| - 1];
    var children := UnusedChildren(remaining, w.used, top);
    if |children| != 1 then w
    else
      ChildIsFreeChild(remaining, w.used, top);
      Shrinks(Numbers(remaining), w.used, children[0].number);
      Climb(remaining, Walk(w.stack + [children[0]], w.used + {children[0].number}))
  }

  lemma Shrinks(all: set<int>, used: set<int>, number: int)
    requires number in all && number !in used
    ensures |all - (used + {number})| < |all - used|
  {
    assert all - used == (all - (used + {number})) + {number};
  }

  function ChainStep(g: Grouped, root: PrSnapshot, remaining: seq<PrSnapshot>): Grouped {
    if root.number in g.used then g
    else
      var w := Climb(remaining, Walk([root], g.used + {root.number}));
      Grouped(g.groups + [Group(FromBranch(root.number), w.stack)], w.used)
  }

  function ChainGroups(g: Grouped, roots: seq<PrSnapshot>, remaining: seq<PrSnapshot>, n: nat): Grouped
    requires n <= |roots|
  {
    if n == 0 then g else ChainStep(ChainGroups(g, roots, remaining, n - 1), roots[n - 1], remaining)
  }

  function SingleGroups(groups: seq<Group>, used: set<int>, remaining: seq<PrSnapshot>, n: nat): seq<Group>
    requires n <= |remaining|
  {
    if n == 0 then groups
    else
      var before, pr := SingleGroups(groups, used, remaining, n - 1), remaining[n - 1];
      if pr.number in used then before else before + [Group(Single(pr.number), [pr])]
  }

  function Remaining(prs: seq<PrSnapshot>, metadata: map<int, Meta>): seq<PrSnapshot> {
    Unused(prs, MetaGroups(prs, metadata, |prs|).grouped.used, |prs|)
  }

  function Chained(prs: seq<PrSnapshot>, metadata: map<int, Meta>, trunk: string): Grouped {
    var remaining := Remaining(prs, metadata);
    var roots := Roots(remaining, OpenHeads(remaining), trunk, |remaining|);
    ChainGroups(MetaGroups(prs, metadata, |prs|).grouped, roots, remaining, |roots|)
  }

  function GroupStackPrs(prs: seq<PrSnapshot>, metadata: map<int, Meta>, trunk: string): seq<Group> {
    var chained, remaining := Chained(prs, metadata, trunk), Remaining(prs, metadata);
    SingleGroups(chained.groups, chained.used, remaining, |remaining|)
  }

  // ----- the loops themselves -----

  method GroupByComments(prs: seq<PrSnapshot>, metadata: map<int, Meta>) returns (groups: seq<Group>, used: set<int>)
    ensures Grouped(groups, used) == MetaGroups(prs, metadata, |prs|).grouped
  {
    var byNumber := map[];
    for i := 0 to |prs|
      invariant byNumber == LastOf(prs, i)
    {
      byNumber := byNumber[prs[i].number := prs[i]];
    }
    groups, used := [], {};
    var seen: set<Meta> := {};
    for i := 0 to |prs|
      invariant MetaState(Grouped(groups, used), seen) == MetaGroups(prs, metadata, i)
    {
      var pr := prs[i];
      if pr.number !in metadata || metadata[pr.number] in seen { continue; }
      var meta := metadata[pr.number];
      seen := seen + {meta};
      var present := Present(byNumber, meta.numbers, |meta.numbers|);
      used := used + Numbers(present);
      if present != [] { groups := groups + [Group(FromComment(meta.stackId), present)]; }
    }
  }

  method WalkChain(remaining: seq<PrSnapshot>, root: PrSnapshot, given: set<int>)
    returns (stack: seq<PrSnapshot>, used: set<int>)
    ensures Walk(stack, used) == Climb(remaining, Walk([root], given + {root.number}))
  {
    stack, used := [root], given + {root.number};
    var top := root;
    while true
      invariant stack != [] && top == stack[|stack| - 1]
      invariant Climb(remaining, Walk(stack, used)) == Climb(remaining, Walk([root], given + {root.number}))
      decreases |Numbers(remaining) - used|
    {
      var children := UnusedChildren(remaining, used, top);
      if |children| != 1 { break; }
      ChildIsFreeChild(remaining, used, top);
      Shrinks(Numbers(remaining), used, children[0].number);
      stack, used, top := stack + [children[0]], used + {children[0].number}, children[0];
    }
  }

  method GroupPrs(prs: seq<PrSnapshot>, metadata: map<int, Meta>, trunk: string) returns (groups: seq<Group>)
    ensures groups == GroupStackPrs(prs, metadata, trunk)
  {
    var used: set<int>;
    groups, used := GroupByComments(prs, metadata);
    var remaining := Unused(prs, used, |prs|);
    var roots := Roots(remaining, OpenHeads(remaining), trunk, |remaining|);
    ghost var commented := Grouped(groups, used);
    for i := 0 to |roots|
      invariant Grouped(groups, used) == ChainGroups(commented, roots, remaining, i)
    {
      if roots[i].number in used { continue; }
      var stack: seq<PrSnapshot>;
      stack, used := WalkChain(remaining, roots[i], used);
      groups := groups + [Group(FromBranch(roots[i].number), stack)];
    }
    ghost var chained := groups;
    for i := 0 to |remaining|
      invariant groups == SingleGroups(chained, used, remaining, i)
    {
      if remaining[i].number !in used { groups := groups + [Group(Single(remaining[i].number), [remaining[i]])]; }
    }
  }

  // ----- chains -----

  ghost predicate IsChain(prs: seq<PrSnapshot>) {
    prs != [] && forall i :: 0 < i < |prs| ==> prs[i].base == prs[i - 1].headRef
  }

  ghost predicate BranchesAreChains(groups: seq<Group>) {
    forall i :: 0 <= i < |groups| && groups[i].source.FromBranch? ==> IsChain(groups[i].prs)
  }

  lemma {:induction false} ClimbChains(remaining: seq<PrSnapshot>, w: Walk)
    requires IsChain(w.stack)
    ensures IsChain(Climb(remaining, w).stack)
    decreases |Numbers(remaining) - w.used|
  {
    var top := w.stack[|w.stack| - 1];
    var children := UnusedChildren(remaining, w.used, top);
    if |children| == 1 {
      ChildIsFreeChild(remaining, w.used, top);
      Shrinks(Numbers(remaining), w.used, children[0].number);
      ClimbChains(remaining, Walk(w.stack + [children[0]], w.used + {children[0].number}));
    }
  }

  /** A walk stops only where the top has no unused child, or several. */
  lemma {:induction false} ClimbIsMaximal(remaining: seq<PrSnapshot>, w: Walk)
    requires w.stack != []
    ensures var after := Climb(remaining, w);
            after.stack != [] && |UnusedChildren(remaining, after.used, after.stack[|after.stack| - 1])| != 1
    decreases |Numbers(remaining) - w.used|
  {
    hide UnusedChildren, Numbers;
    var top := w.stack[|w.stack| - 1];
    var children := UnusedChildren(remaining, w.used, top);
    if |children| == 1 {
      ChildIsFreeChild(remaining, w.used, top);
      Shrinks(Numbers(remaining), w.used, children[0].number);
      ClimbIsMaximal(remaining, Walk(w.stack + [children[0]], w.used + {children[0].number}));
    }
  }

  lemma {:induction false} ChainGroupsAreChains(g: Grouped, roots: seq<PrSnapshot>, remaining: seq<PrSnapshot>, n: nat)
    requires n <= |roots| && BranchesAreChains(g.groups)
    ensures BranchesAreChains(ChainGroups(g, roots, remaining, n).groups)
  {
    if n > 0 {
      ChainGroupsAreChains(g, roots, remaining, n - 1);
      var before := ChainGroups(g, roots, remaining, n - 1);
      ClimbChains(remaining, Walk([roots[n - 1]], before.used + {roots[n - 1].number}));
    }
  }

  lemma {:induction false} CommentsAreNoBranches(prs: seq<PrSnapshot>, metadata: map<int, Meta>, n: nat)
    requires n <= |prs|
    ensures BranchesAreChains(MetaGroups(prs, metadata, n).grouped.groups)
  {
    if n > 0 { CommentsAreNoBranches(prs, metadata, n - 1); }
  }

  lemma {:induction false} SinglesAreNoBranches(groups: seq<Group>, used: set<int>, remaining: seq<PrSnapshot>, n: nat)
    requires n <= |remaining| && BranchesAreChains(groups)
    ensures BranchesAreChains(SingleGroups(groups, used, remaining, n))
  {
    if n > 0 { SinglesAreNoBranches(groups, used, remaining, n - 1); }
  }

  /** On any graph, cyclic or not, every branch group is a chain: each PR's base is the head of
      the one below it. */
  lemma BranchGroupsAreChains(prs: seq<PrSnapshot>, metadata: map<int, Meta>, trunk: string)
    ensures BranchesAreChains(GroupStackPrs(prs, metadata, trunk))
  {
    hide Climb, Roots;
    var commented, remaining := MetaGroups(prs, metadata, |prs|).grouped, Remaining(prs, metadata);
    var roots := Roots(remaining, OpenHeads(remaining), trunk, |remaining|);
    CommentsAreNoBranches(prs, metadata, |prs|);
    ChainGroupsAreChains(commented, roots, remaining, |roots|);
    var chained := Chained(prs, metadata, trunk);
    SinglesAreNoBranches(chained.groups, chained.used, remaining, |remaining|);
  }

  // ----- who is in which group -----

  /** How often a number occurs among PRs, and among groups. */
  function CountIn(prs: seq<PrSnapshot>, x: int): nat {
    if prs == [] then 0 else CountIn(prs[..|prs| - 1], x) + if prs[|prs| - 1].number == x then 1 else 0
  }

  function Count(groups: seq<Group>, x: int): nat {
    if groups == [] then 0 else Count(groups[..|groups| - 1], x) + CountIn(groups[|groups| - 1].prs, x)
  }

  function In(used: set<int>, x: int): nat { if x in used then 1 else 0 }

  lemma CountAppend(groups: seq<Group>, g: Group, x: int)
    ensures Count(groups + [g], x) == Count(groups, x) + CountIn(g.prs, x)
  {
    assert (groups + [g])[..|groups|] == groups;
  }

  lemma CountInAppend(prs: seq<PrSnapshot>, pr: PrSnapshot, x: int)
    ensures CountIn(prs + [pr], x) == CountIn(prs, x) + if pr.number == x then 1 else 0
  {
    assert (prs + [pr])[..|prs|] == prs;
  }

  lemma CountOfOne(pr: PrSnapshot, x: int)
    ensures CountIn([pr], x) == if pr.number == x then 1 else 0
  {
    assert [pr][..0] == [];
  }

  lemma {:induction false} CountInIsPositive(prs: seq<PrSnapshot>, x: int)
    ensures CountIn(prs, x) > 0 <==> x in Numbers(prs)
  {
    if prs != [] {
      var init := prs[..|prs| - 1];
      CountInIsPositive(init, x);
      NumbersAppend(init, prs[|prs| - 1]);
      assert prs == init + [prs[|prs| - 1]];
    }
  }

  lemma NumbersAppend(prs: seq<PrSnapshot>, pr: PrSnapshot)
    ensures Numbers(prs + [pr]) == Numbers(prs) + {pr.number}
  {
    var after := prs + [pr];
    assert after[|prs|] == pr && forall k :: 0 <= k < |prs| ==> after[k] == prs[k];
  }

  lemma {:induction false} DistinctCount(prs: seq<PrSnapshot>, x: int)
    requires Distinct(prs)
    ensures CountIn(prs, x) <= 1
  {
    if prs != [] {
      var init := prs[..|prs| - 1];
      DistinctCount(init, x);
      CountInIsPositive(init, x);
    }
  }

  /** A climb adds numbers not used before, each once. */
  lemma {:induction false} ClimbCounts(remaining: seq<PrSnapshot>, w: Walk, x: int)
    requires w.stack != []
    ensures var after := Climb(remaining, w);
            && w.used <= after.used <= w.used + Numbers(remaining)
            && CountIn(after.stack, x) + In(w.used, x) == CountIn(w.stack, x) + In(after.used, x)
    decreases |Numbers(remaining) - w.used|
  {
    hide UnusedChildren, CountIn, Numbers;
    var top := w.stack[|w.stack| - 1];
    var children := UnusedChildren(remaining, w.used, top);
    if |children| == 1 {
      ChildIsFreeChild(remaining, w.used, top);
      Shrinks(Numbers(remaining), w.used, children[0].number);
      CountInAppend(w.stack, children[0], x);
      ClimbCounts(remaining, Walk(w.stack + [children[0]], w.used + {children[0].number}), x);
    }
  }

  lemma ChainStepCounts(g: Grouped, root: PrSnapshot, remaining: seq<PrSnapshot>, x: int)
    ensures var after := ChainStep(g, root, remaining);
            && g.used <= after.used <= g.used + {root.number} + Numbers(remaining)
            && Count(after.groups, x) + In(g.used, x) == Count(g.groups, x) + In(after.used, x)
  {
    hide Climb, Count, CountIn, Numbers;
    if root.number !in g.used {
      var start := Walk([root], g.used + {root.number});
      ClimbCounts(remaining, start, x);
      CountOfOne(root, x);
      CountAppend(g.groups, Group(FromBranch(root.number), Climb(remaining, start).stack), x);
    }
  }

  lemma {:induction false} ChainsCount(g: Grouped, roots: seq<PrSnapshot>, remaining: seq<PrSnapshot>, n: nat, x: int)
    requires n <= |roots| && Numbers(roots) <= Numbers(remaining)
    ensures var after := ChainGroups(g, roots, remaining, n);
            && g.used <= after.used <= g.used + Numbers(remaining)
            && Count(after.groups, x) + In(g.used, x) == Count(g.groups, x) + In(after.used, x)
  {
    if n > 0 {
      ChainsCount(g, roots, remaining, n - 1, x);
      assert roots[n - 1].number in Numbers(roots);
      hide ChainStep, Count, Numbers;
      ChainStepCounts(ChainGroups(g, roots, remaining, n - 1), roots[n - 1], remaining, x);
    }
  }

  lemma {:induction false} InsertKeepsNumbers(sorted: seq<PrSnapshot>, pr: PrSnapshot)
    ensures Numbers(InsertByNumber(sorted, pr)) == Numbers(sorted) + {pr.number}
  {
    if sorted == [] || sorted[|sorted| - 1].number <= pr.number {
      NumbersAppend(sorted, pr);
    } else {
      var init, last := sorted[..|sorted| - 1], sorted[|sorted| - 1];
      InsertKeepsNumbers(init, pr);
      NumbersAppend(InsertByNumber(init, pr), last);
      NumbersAppend(init, last);
      assert sorted == init + [last];
    }
  }

  lemma {:induction false} RootsAreOwn(prs: seq<PrSnapshot>, heads: set<string>, trunk: string, n: nat)
    requires n <= |prs|
    ensures Numbers(Roots(prs, heads, trunk, n)) <= Numbers(prs)
  {
    if n > 0 {
      RootsAreOwn(prs, heads, trunk, n - 1);
      if IsRoot(prs[n - 1], heads, trunk) { InsertKeepsNumbers(Roots(prs, heads, trunk, n - 1), prs[n - 1]); }
    }
  }

  lemma {:induction false} UnusedCounts(prs: seq<PrSnapshot>, used: set<int>, n: nat, x: int)
    requires n <= |prs|
    ensures CountIn(Unused(prs, used, n), x) == if x in used then 0 else CountIn(prs[..n], x)
  {
    if n > 0 {
      UnusedCounts(prs, used, n - 1, x);
      assert prs[..n] == prs[..n - 1] + [prs[n - 1]];
      CountInAppend(prs[..n - 1], prs[n - 1], x);
      CountInAppend(Unused(prs, used, n - 1), prs[n - 1], x);
    }
  }

  lemma {:induction false} SinglesCount(groups: seq<Group>, used: set<int>, remaining: seq<PrSnapshot>, n: nat, x: int)
    requires n <= |remaining|
    ensures Count(SingleGroups(groups, used, remaining, n), x) == Count(groups, x)
            + if x in used then 0 else CountIn(remaining[..n], x)
  {
    hide Count, CountIn;
    if n == 0 {
      assert remaining[..0] == [];
      NothingCounted(x);
    } else {
      SinglesCount(groups, used, remaining, n - 1, x);
      var before, pr := SingleGroups(groups, used, remaining, n - 1), remaining[n - 1];
      assert remaining[..n] == remaining[..n - 1] + [pr];
      CountInAppend(remaining[..n - 1], pr, x);
      CountAppend(before, Group(Single(pr.number), [pr]), x);
      CountOfOne(pr, x);
    }
  }

  lemma NothingCounted(x: int)
    ensures CountIn([], x) == 0 && Count([], x) == 0
  {
  }

  /** How often the finished grouping holds a number, from what the stack comments made of it. */
  lemma GroupedCount(prs: seq<PrSnapshot>, metadata: map<int, Meta>, trunk: string, x: int)
    ensures var commented, chained := MetaGroups(prs, metadata, |prs|).grouped, Chained(prs, metadata, trunk);
            && commented.used <= chained.used <= commented.used + Numbers(prs)
            && Count(GroupStackPrs(prs, metadata, trunk), x) + In(commented.used, x) ==
               Count(commented.groups, x) + if x in chained.used then 1 else CountIn(prs, x)
  {
    hide Count, CountIn, Roots, ChainGroups, SingleGroups, Numbers, Unused, OpenHeads, MetaGroups;
    var commented, remaining := MetaGroups(prs, metadata, |prs|).grouped, Remaining(prs, metadata);
    var roots := Roots(remaining, OpenHeads(remaining), trunk, |remaining|);
    var chained := Chained(prs, metadata, trunk);
    RootsAreOwn(remaining, OpenHeads(remaining), trunk, |remaining|);
    ChainsCount(commented, roots, remaining, |roots|, x);
    UnusedCounts(prs, commented.used, |prs|, x);
    SinglesCount(chained.groups, chained.used, remaining, |remaining|, x);
    assert remaining[..|remaining|] == remaining && prs[..|prs|] == prs;
    RemainingAreOwn(prs, commented.used, |prs|);
  }

  lemma {:induction false} RemainingAreOwn(prs: seq<PrSnapshot>, used: set<int>, n: nat)
    requires n <= |prs|
    ensures Numbers(Unused(prs, used, n)) <= Numbers(prs)
  {
    if n > 0 {
      RemainingAreOwn(prs, used, n - 1);
      NumbersAppend(Unused(prs, used, n - 1), prs[n - 1]);
    }
  }

  // ----- every PR is grouped -----

  lemma {:induction false} CommentsCover(prs: seq<PrSnapshot>, metadata: map<int, Meta>, n: nat, x: int)
    requires n <= |prs|
    ensures var g := MetaGroups(prs, metadata, n).grouped;
            x in g.used ==> Count(g.groups, x) > 0
  {
    if n > 0 {
      CommentsCover(prs, metadata, n - 1, x);
      var before, pr := MetaGroups(prs, metadata, n - 1), prs[n - 1];
      if pr.number in metadata && metadata[pr.number] !in before.seen {
        var meta := metadata[pr.number];
        var present := Present(LastOf(prs, |prs|), meta.numbers, |meta.numbers|);
        hide Count, CountIn, Present, LastOf;
        CountInIsPositive(present, x);
        CountAppend(before.grouped.groups, Group(FromComment(meta.stackId), present), x);
      }
    }
  }

  /** Every PR is in some group, whatever the graph and the comments. */
  lemma EveryPrIsGrouped(prs: seq<PrSnapshot>, metadata: map<int, Meta>, trunk: string, i: nat)
    requires i < |prs|
    ensures Count(GroupStackPrs(prs, metadata, trunk), prs[i].number) > 0
  {
    var x := prs[i].number;
    assert x in Numbers(prs);
    hide Count, CountIn, GroupStackPrs, MetaGroups, Chained, Numbers;
    CommentsCover(prs, metadata, |prs|, x);
    CountInIsPositive(prs, x);
    GroupedCount(prs, metadata, trunk, x);
  }

  // ----- a partition -----

  ghost predicate NoRepeats(numbers: seq<int>) {
    forall i, j :: 0 <= i < j < |numbers| ==> numbers[i] != numbers[j]
  }

  ghost predicate Disjoint(a: seq<int>, b: seq<int>) { forall x :: x in a ==> x !in b }

  /** No stack comment lists a number twice, and two different ones share none. */
  ghost predicate CleanComments(metadata: map<int, Meta>) {
    && (forall k :: k in metadata ==> NoRepeats(metadata[k].numbers))
    && (forall k, j :: k in metadata && j in metadata && metadata[k] != metadata[j] ==>
          Disjoint(metadata[k].numbers, metadata[j].numbers))
  }

  lemma {:induction false} LastOfKeys(prs: seq<PrSnapshot>, n: nat)
    requires n <= |prs|
    ensures forall k :: k in LastOf(prs, n) ==> LastOf(prs, n)[k].number == k && k in Numbers(prs)
  {
    if n > 0 { LastOfKeys(prs, n - 1); }
  }

  lemma {:induction false} PresentCounts(byNumber: map<int, PrSnapshot>, numbers: seq<int>, n: nat, x: int)
    requires n <= |numbers| && NoRepeats(numbers) && forall k :: k in byNumber ==> byNumber[k].number == k
    ensures CountIn(Present(byNumber, numbers, n), x) == if x in byNumber && x in numbers[..n] then 1 else 0
  {
    if n > 0 {
      PresentCounts(byNumber, numbers, n - 1, x);
      assert numbers[..n] == numbers[..n - 1] + [numbers[n - 1]];
      assert numbers[n - 1] !in numbers[..n - 1];
      hide NoRepeats, CountIn;
      if numbers[n - 1] in byNumber { CountInAppend(Present(byNumber, numbers, n - 1), byNumber[numbers[n - 1]], x); }
    }
  }

  /** A used number comes from one of the comments seen. */
  ghost predicate UsedBySeen(used: set<int>, seen: set<Meta>, metadata: map<int, Meta>, x: int) {
    x in used ==> exists k :: k in metadata && metadata[k] in seen && x in metadata[k].numbers
  }

  lemma CommentCountsOnce(s: MetaState, pr: PrSnapshot, byNumber: map<int, PrSnapshot>, metadata: map<int, Meta>,
                          x: int)
    requires CleanComments(metadata) && (forall k :: k in byNumber ==> byNumber[k].number == k)
    requires Count(s.grouped.groups, x) == In(s.grouped.used, x) && UsedBySeen(s.grouped.used, s.seen, metadata, x)
    requires x in s.grouped.used ==> x in byNumber
    ensures var after := MetaStep(s, pr, byNumber, metadata);
            && Count(after.grouped.groups, x) == In(after.grouped.used, x)
               && UsedBySeen(after.grouped.used, after.seen, metadata, x)
            && (x in after.grouped.used ==> x in byNumber)
  {
    if pr.number in metadata && metadata[pr.number] !in s.seen {
      var meta := metadata[pr.number];
      var present := Present(byNumber, meta.numbers, |meta.numbers|);
      PresentCounts(byNumber, meta.numbers, |meta.numbers|, x);
      assert meta.numbers[..|meta.numbers|] == meta.numbers;
      CountInIsPositive(present, x);
      CountAppend(s.grouped.groups, Group(FromComment(meta.stackId), present), x);
      if x in s.grouped.used {
        var k :| k in metadata && metadata[k] in s.seen && x in metadata[k].numbers;
        assert Disjoint(metadata[k].numbers, meta.numbers);
      }
      assert present == [] ==> CountIn(present, x) == 0;
      hide CleanComments, Count, CountIn, Present, Numbers;
    }
  }

  lemma {:induction false} CommentsCountOnce(prs: seq<PrSnapshot>, metadata: map<int, Meta>, n: nat, x: int)
    requires n <= |prs| && CleanComments(metadata)
    ensures var s := MetaGroups(prs, metadata, n);
            && Count(s.grouped.groups, x) == In(s.grouped.used, x) && UsedBySeen(s.grouped.used, s.seen, metadata, x)
            && (x in s.grouped.used ==> x in LastOf(prs, |prs|))
  {
    hide MetaStep, LastOf, CleanComments, UsedBySeen;
    if n == 0 {
      assert UsedBySeen({}, {}, metadata, x) by { UsedByNone(metadata, x); }
    } else {
      CommentsCountOnce(prs, metadata, n - 1, x);
      LastOfKeys(prs, |prs|);
      CommentCountsOnce(MetaGroups(prs, metadata, n - 1), prs[n - 1], LastOf(prs, |prs|), metadata, x);
    }
  }

  lemma UsedByNone(metadata: map<int, Meta>, x: int)
    ensures UsedBySeen({}, {}, metadata, x)
  {
  }

  /** With distinct PR numbers and clean comments, the groups are a partition: every PR number is
      in exactly one group, exactly once, and no other number is. */
  lemma GroupsPartitionPrs(prs: seq<PrSnapshot>, metadata: map<int, Meta>, trunk: string, x: int)
    requires Distinct(prs) && CleanComments(metadata)
    ensures Count(GroupStackPrs(prs, metadata, trunk), x) == if x in Numbers(prs) then 1 else 0
  {
    hide Count, CountIn, GroupStackPrs, MetaGroups, Chained, Numbers, CleanComments, Distinct;
    CommentsCountOnce(prs, metadata, |prs|, x);
    LastOfKeys(prs, |prs|);
    GroupedCount(prs, metadata, trunk, x);
    CountInIsPositive(prs, x);
    DistinctCount(prs, x);
  }

  // ----- groups hold the PRs they were given -----

  ghost predicate Among(all: seq<PrSnapshot>, prs: seq<PrSnapshot>) { forall k :: 0 <= k < |prs| ==> prs[k] in all }

  ghost predicate GroupsAmong(all: seq<PrSnapshot>, groups: seq<Group>) {
    forall i :: 0 <= i < |groups| ==> Among(all, groups[i].prs)
  }

  lemma {:induction false} LastOfAmong(prs: seq<PrSnapshot>, n: nat)
    requires n <= |prs|
    ensures forall x :: x in LastOf(prs, n) ==> LastOf(prs, n)[x] in prs
  {
    if n > 0 { LastOfAmong(prs, n - 1); }
  }

  lemma {:induction false} PresentAmong(all: seq<PrSnapshot>, byNumber: map<int, PrSnapshot>, numbers: seq<int>, n: nat)
    requires n <= |numbers| && forall x :: x in byNumber ==> byNumber[x] in all
    ensures Among(all, Present(byNumber, numbers, n))
  {
    if n > 0 { PresentAmong(all, byNumber, numbers, n - 1); }
  }

  lemma {:induction false} CommentsAmong(prs: seq<PrSnapshot>, metadata: map<int, Meta>, n: nat)
    requires n <= |prs|
    ensures GroupsAmong(prs, MetaGroups(prs, metadata, n).grouped.groups)
  {
    hide Among, Present, LastOf;
    if n > 0 {
      CommentsAmong(prs, metadata, n - 1);
      LastOfAmong(prs, |prs|);
      if prs[n - 1].number in metadata {
        var numbers := metadata[prs[n - 1].number].numbers;
        PresentAmong(prs, LastOf(prs, |prs|), numbers, |numbers|);
      }
    }
  }

  lemma {:induction false} UnusedAmong(all: seq<PrSnapshot>, prs: seq<PrSnapshot>, used: set<int>, n: nat)
    requires n <= |prs| && Among(all, prs)
    ensures Among(all, Unused(prs, used, n))
  {
    if n > 0 { UnusedAmong(all, prs, used, n - 1); }
  }

  lemma {:induction false} WithBaseAmong(all: seq<PrSnapshot>, prs: seq<PrSnapshot>, base: string, n: nat)
    requires n <= |prs| && Among(all, prs)
    ensures Among(all, WithBase(prs, base, n))
  {
    if n > 0 { WithBaseAmong(all, prs, base, n - 1); }
  }

  lemma {:induction false} InsertAmong(all: seq<PrSnapshot>, sorted: seq<PrSnapshot>, pr: PrSnapshot)
    requires Among(all, sorted) && pr in all
    ensures Among(all, InsertByNumber(sorted, pr))
  {
    if sorted != [] && sorted[|sorted| - 1].number > pr.number { InsertAmong(all, sorted[..|sorted| - 1], pr); }
  }

  lemma {:induction false} RootsAmong(all: seq<PrSnapshot>, prs: seq<PrSnapshot>, heads: set<string>, trunk: string,
                                      n: nat)
    requires n <= |prs| && Among(all, prs)
    ensures Among(all, Roots(prs, heads, trunk, n))
  {
    if n > 0 {
      RootsAmong(all, prs, heads, trunk, n - 1);
      InsertAmong(all, Roots(prs, heads, trunk, n - 1), prs[n - 1]);
    }
  }

  lemma {:induction false} ClimbAmong(all: seq<PrSnapshot>, remaining: seq<PrSnapshot>, w: Walk)
    requires w.stack != [] && Among(all, w.stack) && Among(all, remaining)
    ensures Among(all, Climb(remaining, w).stack)
    decreases |Numbers(remaining) - w.used|
  {
    hide Numbers, WithBase, Unused;
    var top := w.stack[|w.stack| - 1];
    var children := UnusedChildren(remaining, w.used, top);
    if |children| == 1 {
      var based := WithBase(remaining, top.headRef, |remaining|);
      WithBaseAmong(all, remaining, top.headRef, |remaining|);
      UnusedAmong(all, based, w.used, |based|);
      ChildIsFreeChild(remaining, w.used, top);
      Shrinks(Numbers(remaining), w.used, children[0].number);
      ClimbAmong(all, remaining, Walk(w.stack + [children[0]], w.used + {children[0].number}));
    }
  }

  lemma {:induction false} ChainsAmong(all: seq<PrSnapshot>, g: Grouped, roots: seq<PrSnapshot>,
                                       remaining: seq<PrSnapshot>, n: nat)
    requires n <= |roots| && Among(all, roots) && Among(all, remaining) && GroupsAmong(all, g.groups)
    ensures GroupsAmong(all, ChainGroups(g, roots, remaining, n).groups)
  {
    if n > 0 {
      ChainsAmong(all, g, roots, remaining, n - 1);
      var before := ChainGroups(g, roots, remaining, n - 1);
      ClimbAmong(all, remaining, Walk([roots[n - 1]], before.used + {roots[n - 1].number}));
    }
  }

  lemma {:induction false} SinglesAmong(all: seq<PrSnapshot>, groups: seq<Group>, used: set<int>,
                                        remaining: seq<PrSnapshot>, n: nat)
    requires n <= |remaining| && Among(all, remaining) && GroupsAmong(all, groups)
    ensures GroupsAmong(all, SingleGroups(groups, used, remaining, n))
  {
    if n > 0 { SinglesAmong(all, groups, used, remaining, n - 1); }
  }

  /** Every group holds the very snapshots it was given. */
  lemma GroupsHoldGivenPrs(prs: seq<PrSnapshot>, metadata: map<int, Meta>, trunk: string)
    ensures GroupsAmong(prs, GroupStackPrs(prs, metadata, trunk))
  {
    assert Among(prs, prs);
    hide Climb, Roots, Among, GroupsAmong, ChainGroups, SingleGroups, Unused, MetaGroups;
    var commented, remaining := MetaGroups(prs, metadata, |prs|).grouped, Remaining(prs, metadata);
    var roots := Roots(remaining, OpenHeads(remaining), trunk, |remaining|);
    CommentsAmong(prs, metadata, |prs|);
    UnusedAmong(prs, prs, commented.used, |prs|);
    RootsAmong(prs, remaining, OpenHeads(remaining), trunk, |remaining|);
    ChainsAmong(prs, commented, roots, remaining, |roots|);
    var chained := Chained(prs, metadata, trunk);
    SinglesAmong(prs, chained.groups, chained.used, remaining, |remaining|);
  }

  // ----- who is left alone -----

  lemma {:induction false} RootIsListed(prs: seq<PrSnapshot>, heads: set<string>, trunk: string, n: nat, i: nat)
    requires i < n <= |prs| && IsRoot(prs[i], heads, trunk)
    ensures prs[i].number in Numbers(Roots(prs, heads, trunk, n))
  {
    if IsRoot(prs[n - 1], heads, trunk) { InsertKeepsNumbers(Roots(prs, heads, trunk, n - 1), prs[n - 1]); }
    if i < n - 1 { RootIsListed(prs, heads, trunk, n - 1, i); }
  }

  lemma {:induction false} RootsAreUsed(g: Grouped, roots: seq<PrSnapshot>, remaining: seq<PrSnapshot>, n: nat, i: nat)
    requires i < n <= |roots|
    ensures roots[i].number in ChainGroups(g, roots, remaining, n).used
  {
    hide Climb;
    var before := ChainGroups(g, roots, remaining, n - 1);
    ChainStepCounts(before, roots[n - 1], remaining, 0);
    if i < n - 1 {
      RootsAreUsed(g, roots, remaining, n - 1, i);
    } else if roots[i].number !in before.used {
      ClimbCounts(remaining, Walk([roots[i]], before.used + {roots[i].number}), 0);
    }
  }

  ghost predicate NoSingles(groups: seq<Group>) { forall k :: 0 <= k < |groups| ==> !groups[k].source.Single? }

  ghost predicate SinglesFree(groups: seq<Group>, used: set<int>) {
    forall k :: 0 <= k < |groups| && groups[k].source.Single? ==> groups[k].source.number !in used
  }

  lemma {:induction false} SinglesAreUnused(groups: seq<Group>, used: set<int>, remaining: seq<PrSnapshot>, n: nat)
    requires n <= |remaining| && NoSingles(groups)
    ensures SinglesFree(SingleGroups(groups, used, remaining, n), used)
  {
    if n > 0 { SinglesAreUnused(groups, used, remaining, n - 1); }
  }

  lemma {:induction false} ChainsAreNoSingles(g: Grouped, roots: seq<PrSnapshot>, remaining: seq<PrSnapshot>, n: nat)
    requires n <= |roots| && NoSingles(g.groups)
    ensures NoSingles(ChainGroups(g, roots, remaining, n).groups)
  {
    hide Climb;
    if n > 0 { ChainsAreNoSingles(g, roots, remaining, n - 1); }
  }

  lemma {:induction false} CommentsAreNoSingles(prs: seq<PrSnapshot>, metadata: map<int, Meta>, n: nat)
    requires n <= |prs|
    ensures NoSingles(MetaGroups(prs, metadata, n).grouped.groups)
  {
    if n > 0 { CommentsAreNoSingles(prs, metadata, n - 1); }
  }

  /** Only PRs on no chain from a root are left alone: a PR based on trunk, or on no open head
      outside the stack comments, never becomes a single. */
  lemma RootIsNeverSingle(prs: seq<PrSnapshot>, metadata: map<int, Meta>, trunk: string, i: nat)
    requires i < |Remaining(prs, metadata)|
    requires var remaining := Remaining(prs, metadata);
             || remaining[i].base == trunk
             || forall j :: 0 <= j < |remaining| && remaining[j].state == OPEN && remaining[j].headRef != "" ==>
                  remaining[j].headRef != remaining[i].base
    ensures var groups := GroupStackPrs(prs, metadata, trunk);
            forall k :: 0 <= k < |groups| ==> groups[k].source != Single(Remaining(prs, metadata)[i].number)
  {
    hide Roots, ChainGroups, SingleGroups, MetaGroups, Unused;
    var commented, remaining := MetaGroups(prs, metadata, |prs|).grouped, Remaining(prs, metadata);
    var heads := OpenHeads(remaining);
    var roots := Roots(remaining, heads, trunk, |remaining|);
    var chained := Chained(prs, metadata, trunk);
    assert IsRoot(remaining[i], heads, trunk);
    RootIsListed(remaining, heads, trunk, |remaining|, i);
    var r :| 0 <= r < |roots| && roots[r].number == remaining[i].number;
    RootsAreUsed(commented, roots, remaining, |roots|, r);
    CommentsAreNoSingles(prs, metadata, |prs|);
    ChainsAreNoSingles(commented, roots, remaining, |roots|);
    SinglesAreUnused(chained.groups, chained.used, remaining, |remaining|);
  }

  // ----- which child is climbed to -----

  /** The PR at `i` stands on the top's head and is in no stack yet. */
  ghost predicate IsFreeChild(remaining: seq<PrSnapshot>, used: set<int>, top: PrSnapshot, i: int) {
    0 <= i < |remaining| && remaining[i].base == top.headRef && remaining[i].number !in used
  }

  ghost predicate IsOnlyChild(remaining: seq<PrSnapshot>, used: set<int>, top: PrSnapshot, i: int) {
    && IsFreeChild(remaining, used, top, i)
    && forall k :: IsFreeChild(remaining, used, top, k) ==> k == i
  }

  lemma UnusedAppend(prs: seq<PrSnapshot>, pr: PrSnapshot, used: set<int>, n: nat)
    requires n <= |prs|
    ensures Unused(prs + [pr], used, n) == Unused(prs, used, n)
  {
  }

  /** Where the free children are, in order. */
  ghost function FreePlaces(remaining: seq<PrSnapshot>, used: set<int>, top: PrSnapshot, n: nat): (places: seq<int>)
    requires n <= |remaining|
    ensures forall k :: k in places <==> IsFreeChild(remaining, used, top, k) && k < n
    ensures NoRepeats(places)
  {
    if n == 0 then []
    else FreePlaces(remaining, used, top, n - 1)
         + if IsFreeChild(remaining, used, top, n - 1) then [n - 1] else []
  }

  lemma {:induction false} ChildrenAtFreePlaces(remaining: seq<PrSnapshot>, used: set<int>, top: PrSnapshot, n: nat)
    requires n <= |remaining|
    ensures var all, places := WithBase(remaining, top.headRef, n), FreePlaces(remaining, used, top, n);
            var children := Unused(all, used, |all|);
            |children| == |places| && forall j :: 0 <= j < |places| ==>
              0 <= places[j] < |remaining| && children[j] == remaining[places[j]]
  {
    if n > 0 {
      ChildrenAtFreePlaces(remaining, used, top, n - 1);
      var before, pr := WithBase(remaining, top.headRef, n - 1), remaining[n - 1];
      if pr.base == top.headRef {
        UnusedAppend(before, pr, used, |before|);
        assert (before + [pr])[|before|] == pr;
      }
    }
  }

  lemma OnePlace(places: seq<int>, i: int)
    requires NoRepeats(places) && i in places && forall x :: x in places ==> x == i
    ensures places == [i]
  {
    assert places[0] in places && places[|places| - 1] in places;
    assert places[0] == places[|places| - 1];
  }

  /** A walk goes on exactly where one free PR stands on its top, and to that one. */
  lemma ClimbsToOnlyChild(remaining: seq<PrSnapshot>, w: Walk, i: int)
    requires w.stack != []
    ensures var top := w.stack[|w.stack| - 1];
            if IsOnlyChild(remaining, w.used, top, i)
            then Climb(remaining, w)
                 == Climb(remaining, Walk(w.stack + [remaining[i]], w.used + {remaining[i].number}))
            else (forall k :: !IsOnlyChild(remaining, w.used, top, k)) ==> Climb(remaining, w) == w
  {
    var top := w.stack[|w.stack| - 1];
    var places := FreePlaces(remaining, w.used, top, |remaining|);
    ChildrenAtFreePlaces(remaining, w.used, top, |remaining|);
    hide WithBase, Unused, FreePlaces;
    if IsOnlyChild(remaining, w.used, top, i) {
      OnePlace(places, i);
      assert UnusedChildren(remaining, w.used, top) == [remaining[i]];
    } else if |places| == 1 {
      assert IsFreeChild(remaining, w.used, top, places[0]);
      assert forall k :: IsFreeChild(remaining, w.used, top, k) ==> k in places;
      assert IsOnlyChild(remaining, w.used, top, places[0]);
    }
  }

  // ----- what a stack comment groups -----

  /** The numbers of a comment that are among the given PRs, in the comment's order. */
  function Named(numbers: seq<int>, given: set<int>): seq<int> {
    if numbers == [] then []
    else (if numbers[0] in given then [numbers[0]] else []) + Named(numbers[1..], given)
  }

  function NumbersOf(prs: seq<PrSnapshot>): seq<int> { seq(|prs|, i requires 0 <= i < |prs| => prs[i].number) }

  lemma {:induction false} NamedAppend(numbers: seq<int>, x: int, given: set<int>)
    ensures Named(numbers + [x], given) == Named(numbers, given) + if x in given then [x] else []
  {
    if numbers != [] {
      assert (numbers + [x])[1..] == numbers[1..] + [x];
      NamedAppend(numbers[1..], x, given);
    }
  }

  lemma {:induction false} LastOfIsGiven(prs: seq<PrSnapshot>, n: nat)
    requires n <= |prs|
    ensures LastOf(prs, n).Keys == Numbers(prs[..n])
    ensures forall x :: x in LastOf(prs, n) ==> LastOf(prs, n)[x].number == x
  {
    if n > 0 {
      LastOfIsGiven(prs, n - 1);
      assert prs[..n] == prs[..n - 1] + [prs[n - 1]];
      NumbersAppend(prs[..n - 1], prs[n - 1]);
    } else {
      assert Numbers(prs[..0]) == {};
    }
  }

  lemma {:induction false} PresentAreNamed(byNumber: map<int, PrSnapshot>, numbers: seq<int>, n: nat)
    requires n <= |numbers| && forall x :: x in byNumber ==> byNumber[x].number == x
    ensures NumbersOf(Present(byNumber, numbers, n)) == Named(numbers[..n], byNumber.Keys)
  {
    if n > 0 {
      PresentAreNamed(byNumber, numbers, n - 1);
      assert numbers[..n] == numbers[..n - 1] + [numbers[n - 1]];
      NamedAppend(numbers[..n - 1], numbers[n - 1], byNumber.Keys);
    }
  }

  /** The group a comment makes: its PRs that are given, bottom to top as it lists them. */
  ghost predicate IsCommented(g: Group, meta: Meta, prs: seq<PrSnapshot>) {
    g.source == FromComment(meta.stackId) && g.prs != [] && NumbersOf(g.prs) == Named(meta.numbers, Numbers(prs))
  }

  lemma MetaStepGroups(s: MetaState, pr: PrSnapshot, prs: seq<PrSnapshot>, metadata: map<int, Meta>)
    ensures var after := MetaStep(s, pr, LastOf(prs, |prs|), metadata);
            if pr.number !in metadata || metadata[pr.number] in s.seen then after == s
            else
              && after.seen == s.seen + {metadata[pr.number]}
              && if Named(metadata[pr.number].numbers, Numbers(prs)) == [] then after.grouped.groups == s.grouped.groups
                 else after.grouped.groups != [] && after.grouped.groups[..|s.grouped.groups|] == s.grouped.groups
                      && |after.grouped.groups| == |s.grouped.groups| + 1
                      && IsCommented(after.grouped.groups[|s.grouped.groups|], metadata[pr.number], prs)
  {
    hide LastOf, Present;
    LastOfIsGiven(prs, |prs|);
    assert prs[..|prs|] == prs;
    if pr.number in metadata {
      var numbers := metadata[pr.number].numbers;
      PresentAreNamed(LastOf(prs, |prs|), numbers, |numbers|);
      assert numbers[..|numbers|] == numbers;
    }
  }

  ghost predicate IsCommentOf(prs: seq<PrSnapshot>, metadata: map<int, Meta>, n: nat, m: Meta)
    requires n <= |prs|
  {
    exists i :: 0 <= i < n && prs[i].number in metadata && metadata[prs[i].number] == m
  }

  lemma {:induction false} SeenComments(prs: seq<PrSnapshot>, metadata: map<int, Meta>, n: nat, m: Meta)
    requires n <= |prs|
    ensures m in MetaGroups(prs, metadata, n).seen <==> IsCommentOf(prs, metadata, n, m)
  {
    if n > 0 {
      SeenComments(prs, metadata, n - 1, m);
      MetaStepGroups(MetaGroups(prs, metadata, n - 1), prs[n - 1], prs, metadata);
      hide MetaStep, LastOf, Named, Numbers, IsCommented;
    }
  }

  /** Every comment of the first `n` PRs that names a given PR has its group, in order. */
  lemma {:induction false} CommentIsGrouped(prs: seq<PrSnapshot>, metadata: map<int, Meta>, n: nat, m: Meta)
    returns (k: nat)
    requires n <= |prs| && IsCommentOf(prs, metadata, n, m) && Named(m.numbers, Numbers(prs)) != []
    ensures k < |MetaGroups(prs, metadata, n).grouped.groups|
    ensures IsCommented(MetaGroups(prs, metadata, n).grouped.groups[k], m, prs)
  {
    hide MetaStep, LastOf, Named, Numbers, IsCommented;
    var s, after := MetaGroups(prs, metadata, n - 1), MetaGroups(prs, metadata, n);
    MetaStepGroups(s, prs[n - 1], prs, metadata);
    SeenComments(prs, metadata, n - 1, m);
    if IsCommentOf(prs, metadata, n - 1, m) {
      k := CommentIsGrouped(prs, metadata, n - 1, m);
      assert |s.grouped.groups| <= |after.grouped.groups|;
      assert after.grouped.groups[..|s.grouped.groups|][k] == s.grouped.groups[k];
    } else {
      k := |s.grouped.groups|;
    }
  }

  /** Every group made from a comment is one of a given PR's comment. */
  lemma {:induction false} GroupIsCommented(prs: seq<PrSnapshot>, metadata: map<int, Meta>, n: nat, k: nat)
    returns (m: Meta)
    requires n <= |prs| && k < |MetaGroups(prs, metadata, n).grouped.groups|
    ensures IsCommentOf(prs, metadata, n, m) && IsCommented(MetaGroups(prs, metadata, n).grouped.groups[k], m, prs)
  {
    hide MetaStep, LastOf, Named, Numbers, IsCommented;
    var s, after := MetaGroups(prs, metadata, n - 1), MetaGroups(prs, metadata, n);
    MetaStepGroups(s, prs[n - 1], prs, metadata);
    if k < |s.grouped.groups| {
      m := GroupIsCommented(prs, metadata, n - 1, k);
      assert |s.grouped.groups| <= |after.grouped.groups|;
      assert after.grouped.groups[..|s.grouped.groups|][k] == s.grouped.groups[k];
    } else {
      m := metadata[prs[n - 1].number];
    }
  }

  /** More groups, none of them made from a comment. */
  ghost predicate Extends(before: seq<Group>, after: seq<Group>) {
    && |before| <= |after| && after[..|before|] == before
    && forall k :: |before| <= k < |after| ==> !after[k].source.FromComment?
  }

  lemma {:induction false} ChainsExtend(g: Grouped, roots: seq<PrSnapshot>, remaining: seq<PrSnapshot>, n: nat)
    requires n <= |roots|
    ensures Extends(g.groups, ChainGroups(g, roots, remaining, n).groups)
  {
    hide Climb;
    if n > 0 { ChainsExtend(g, roots, remaining, n - 1); }
  }

  lemma {:induction false} SinglesExtend(groups: seq<Group>, used: set<int>, remaining: seq<PrSnapshot>, n: nat)
    requires n <= |remaining|
    ensures Extends(groups, SingleGroups(groups, used, remaining, n))
  {
    if n > 0 { SinglesExtend(groups, used, remaining, n - 1); }
  }

  lemma CommentsComeFirst(prs: seq<PrSnapshot>, metadata: map<int, Meta>, trunk: string)
    ensures Extends(MetaGroups(prs, metadata, |prs|).grouped.groups, GroupStackPrs(prs, metadata, trunk))
  {
    hide MetaGroups, Roots, ChainGroups, SingleGroups, Unused;
    var commented, remaining := MetaGroups(prs, metadata, |prs|).grouped, Remaining(prs, metadata);
    var roots := Roots(remaining, OpenHeads(remaining), trunk, |remaining|);
    var chained := Chained(prs, metadata, trunk);
    ChainsExtend(commented, roots, remaining, |roots|);
    SinglesExtend(chained.groups, chained.used, remaining, |remaining|);
    var groups := GroupStackPrs(prs, metadata, trunk);
    assert groups[..|commented.groups|] == groups[..|chained.groups|][..|commented.groups|];
    forall k | |commented.groups| <= k < |groups|
      ensures !groups[k].source.FromComment?
    {
      if k < |chained.groups| { assert groups[k] == groups[..|chained.groups|][k]; }
    }
  }

  /** Every comment of a given PR that names a given PR makes a group of the given PRs it names, bottom
      to top as it lists them, and no group is made from anything else a comment says. */
  lemma CommentsAreGroupedExactly(prs: seq<PrSnapshot>, metadata: map<int, Meta>, trunk: string)
    ensures forall m :: IsCommentOf(prs, metadata, |prs|, m) && Named(m.numbers, Numbers(prs)) != [] ==>
              exists k :: 0 <= k < |GroupStackPrs(prs, metadata, trunk)|
                          && IsCommented(GroupStackPrs(prs, metadata, trunk)[k], m, prs)
    ensures forall k :: 0 <= k < |GroupStackPrs(prs, metadata, trunk)|
                        && GroupStackPrs(prs, metadata, trunk)[k].source.FromComment? ==>
              exists m :: IsCommentOf(prs, metadata, |prs|, m)
                          && IsCommented(GroupStackPrs(prs, metadata, trunk)[k], m, prs)
  {
    var groups, commented := GroupStackPrs(prs, metadata, trunk), MetaGroups(prs, metadata, |prs|).grouped.groups;
    CommentsComeFirst(prs, metadata, trunk);
    hide GroupStackPrs, MetaGroups, IsCommented, IsCommentOf, Named, Numbers;
    forall m | IsCommentOf(prs, metadata, |prs|, m) && Named(m.numbers, Numbers(prs)) != []
      ensures exists k :: 0 <= k < |groups| && IsCommented(groups[k], m, prs)
    {
      var k := CommentIsGrouped(prs, metadata, |prs|, m);
      assert groups[..|commented|][k] == groups[k];
    }
    forall k | 0 <= k < |groups| && groups[k].source.FromComment?
      ensures exists m :: IsCommentOf(prs, metadata, |prs|, m) && IsCommented(groups[k], m, prs)
    {
      assert groups[..|commented|][k] == groups[k];
      var m := GroupIsCommented(prs, metadata, |prs|, k);
    }
  }

  // ----- where chains start -----

  /** Nothing of the remaining PRs is open on the head this one stands on, or it stands on trunk. */
  ghost predicate StandsAlone(remaining: seq<PrSnapshot>, pr: PrSnapshot, trunk: string) {
    pr.base == trunk || forall j :: 0 <= j < |remaining| && remaining[j].state == OPEN && remaining[j].headRef != "" ==>
                                      remaining[j].headRef != pr.base
  }

  ghost predicate Ascending(prs: seq<PrSnapshot>) {
    forall i, j :: 0 <= i < j < |prs| ==> prs[i].number <= prs[j].number
  }

  lemma {:induction false} InsertAscends(sorted: seq<PrSnapshot>, pr: PrSnapshot)
    requires Ascending(sorted)
    ensures Ascending(InsertByNumber(sorted, pr))
    ensures forall x :: x in InsertByNumber(sorted, pr) <==> x in sorted || x == pr
  {
    if sorted != [] && sorted[|sorted| - 1].number > pr.number {
      var init, last := sorted[..|sorted| - 1], sorted[|sorted| - 1];
      InsertAscends(init, pr);
      assert sorted == init + [last];
      assert forall x :: x in init ==> x.number <= last.number;
      var after := InsertByNumber(init, pr);
      assert forall i :: 0 <= i < |after| ==> after[i] in after;
    }
  }

  /** The chains start from exactly the remaining PRs that stand alone, the smallest number first. */
  lemma {:induction false} RootsStandAlone(remaining: seq<PrSnapshot>, trunk: string, n: nat)
    requires n <= |remaining|
    ensures var roots := Roots(remaining, OpenHeads(remaining), trunk, n);
            && Ascending(roots)
            && forall pr :: pr in roots <==> pr in remaining[..n] && StandsAlone(remaining, pr, trunk)
  {
    if n > 0 {
      RootsStandAlone(remaining, trunk, n - 1);
      var pr, before := remaining[n - 1], Roots(remaining, OpenHeads(remaining), trunk, n - 1);
      assert remaining[..n] == remaining[..n - 1] + [pr];
      assert IsRoot(pr, OpenHeads(remaining), trunk) <==> StandsAlone(remaining, pr, trunk);
      if IsRoot(pr, OpenHeads(remaining), trunk) { InsertAscends(before, pr); }
    }
  }
}
