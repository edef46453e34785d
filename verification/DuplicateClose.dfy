/** Which PRs are closed as landed or as duplicates, and which one of a group survives. */
module DuplicateClose {
  import opened Wrappers
  import opened LedgerModel
  import Text

  datatype Reason = Ancestor | EmptyDiff | PatchEquivalent | RebaseEquivalent | SameBranch | SameDiff

  datatype CandidatePr = CandidatePr(number: int, isOpen: bool, isDraft: bool, headRef: string, head: string)

  datatype GitFacts = GitFacts(isAncestor: bool, isEmptyDiff: bool, allCommitsEquivalent: bool,
                               isRebaseEquivalent: bool)

  /** `kept` is set only for a duplicate. */
  datatype CloseAction = CloseAction(pr: int, head: string, reason: Reason, kept: Option<int>)

  datatype DuplicateGroup = DuplicateGroup(reason: Reason, kept: int, closed: seq<int>)

  function ReasonText(r: Reason): string {
    match r
    case Ancestor => "landed:ancestor"
    case EmptyDiff => "landed:empty-diff"
    case PatchEquivalent => "landed:patch-equivalent"
    case RebaseEquivalent => "landed:rebase-equivalent"
    case SameBranch => "duplicate:same-branch"
    case SameDiff => "duplicate:same-diff"
  }

  const SUBMIT_KIND := OtherKind("pr-duplicate-close-submit")

  function LedgerKey(reason: Reason, kept: Option<int>): string {
    if kept.Some? then ReasonText(reason) + ":" + Text.Decimal(kept.value) else ReasonText(reason)
  }

  predicate AlreadySubmitted(rows: seq<Row>, a: CloseAction) {
    CountHits(rows, Exact(SUBMIT_KIND, a.pr, a.head, LedgerKey(a.reason, a.kept))) > 0
  }

  // ----- landed -----

  function ClassifyLanded(pr: CandidatePr, facts: Option<GitFacts>): Option<CloseAction> {
    if facts.None? then None
    else
      var f := facts.value;
      if f.isAncestor then Some(CloseAction(pr.number, pr.head, Ancestor, None))
      else if f.isEmptyDiff then Some(CloseAction(pr.number, pr.head, EmptyDiff, None))
      else if f.allCommitsEquivalent then Some(CloseAction(pr.number, pr.head, PatchEquivalent, None))
      else if f.isRebaseEquivalent then Some(CloseAction(pr.number, pr.head, RebaseEquivalent, None))
      else None
  }

  /** Git says that what the PR changes is already on trunk, in this way. */
  predicate Shows(f: GitFacts, reason: Reason) {
    match reason
    case Ancestor => f.isAncestor
    case EmptyDiff => f.isEmptyDiff
    case PatchEquivalent => f.allCommitsEquivalent
    case RebaseEquivalent => f.isRebaseEquivalent
    case _ => false
  }

  lemma LandedExactlyWhen(pr: CandidatePr, f: GitFacts)
    ensures ClassifyLanded(pr, Some(f)).Some? <==> exists reason :: Shows(f, reason)
    ensures ClassifyLanded(pr, Some(f)).Some? ==>
              var a := ClassifyLanded(pr, Some(f)).value;
              a.pr == pr.number && a.head == pr.head && a.kept.None? && Shows(f, a.reason)
  {
    if f.isAncestor { assert Shows(f, Ancestor); }
    if f.isEmptyDiff { assert Shows(f, EmptyDiff); }
    if f.allCommitsEquivalent { assert Shows(f, PatchEquivalent); }
    if f.isRebaseEquivalent { assert Shows(f, RebaseEquivalent); }
  }

  // ----- duplicates -----

  function InsertNumber(sorted: seq<int>, x: int): seq<int> {
    if sorted == [] || sorted[|sorted| - 1] <= x then sorted + [x]
    else InsertNumber(sorted[..|sorted| - 1], x) + [sorted[|sorted| - 1]]
  }

  function SortNumbers(s: seq<int>): seq<int> {
    if s == [] then [] else InsertNumber(SortNumbers(s[..|s| - 1]), s[|s| - 1])
  }

  /** The numbers tagged `tag` among the first `n` PRs, in order. */
  function Tagged(prs: seq<CandidatePr>, of: CandidatePr -> string, tag: string, n: nat): seq<int>
    requires n <= |prs|
  {
    if n == 0 then []
    else if of(prs[n - 1]) == tag then Tagged(prs, of, tag, n - 1) + [prs[n - 1].number]
    else Tagged(prs, of, tag, n - 1)
  }

  function TagsOf(prs: seq<CandidatePr>, of: CandidatePr -> string): set<string> {
    set i | 0 <= i < |prs| && of(prs[i]) != "" :: of(prs[i])
  }

  function GroupOf(reason: Reason, numbers: seq<int>): DuplicateGroup
    requires |numbers| >= 2
  {
    DuplicateGroup(reason, numbers[|numbers| - 1], numbers[..|numbers| - 1])
  }

  function TagGroups(prs: seq<CandidatePr>, of: CandidatePr -> string, reason: Reason, tags: seq<string>,
                     n: nat): seq<DuplicateGroup>
    requires n <= |tags|
  {
    if n == 0 then []
    else
      var before, numbers := TagGroups(prs, of, reason, tags, n - 1), SortNumbers(Tagged(prs, of, tags[n - 1], |prs|));
      if |numbers| < 2 then before else before + [GroupOf(reason, numbers)]
  }

  function GroupsBy(prs: seq<CandidatePr>, of: CandidatePr -> string, reason: Reason): seq<DuplicateGroup> {
    var tags := Text.Sorted(TagsOf(prs, of));
    TagGroups(prs, of, reason, tags, |tags|)
  }

  function MembersOf(g: DuplicateGroup): set<int> { {g.kept} + set i | 0 <= i < |g.closed| :: g.closed[i] }

  function Covered(groups: seq<DuplicateGroup>): set<int> {
    if groups == [] then {} else Covered(groups[..|groups| - 1]) + MembersOf(groups[|groups| - 1])
  }

  function BranchTag(pr: CandidatePr): string { pr.headRef }

  function PatchTag(patches: map<int, string>, covered: set<int>): CandidatePr -> string {
    (pr: CandidatePr) => if pr.number in covered || pr.number !in patches then "" else patches[pr.number]
  }

  function GroupDuplicates(prs: seq<CandidatePr>, patches: map<int, string>): seq<DuplicateGroup> {
    var branches := GroupsBy(prs, BranchTag, SameBranch);
    branches + GroupsBy(prs, PatchTag(patches, Covered(branches)), SameDiff)
  }

  /** The dictionary of one loop over the PRs. */
  method CollectByTag(prs: seq<CandidatePr>, of: CandidatePr -> string) returns (byTag: map<string, seq<int>>)
    ensures byTag.Keys == TagsOf(prs, of) && forall tag :: tag in byTag ==> byTag[tag] == Tagged(prs, of, tag, |prs|)
  {
    byTag := map[];
    for i := 0 to |prs|
      invariant byTag.Keys == TagsOf(prs[..i], of)
      invariant forall tag :: tag in byTag ==> byTag[tag] == Tagged(prs, of, tag, i)
      invariant forall tag :: tag != "" && tag !in byTag ==> Tagged(prs, of, tag, i) == []
    {
      var tag := of(prs[i]);
      TagsAppend(prs, of, i);
      if tag == "" { continue; }
      byTag := byTag[tag := (if tag in byTag then byTag[tag] else []) + [prs[i].number]];
    }
    assert prs[..|prs|] == prs;
  }

  /** The groups of one dictionary, in the order of its keys. */
  method GroupByTag(prs: seq<CandidatePr>, of: CandidatePr -> string, reason: Reason)
    returns (groups: seq<DuplicateGroup>, covered: set<int>)
    ensures groups == GroupsBy(prs, of, reason) && covered == Covered(groups)
  {
    var byTag := CollectByTag(prs, of);
    var tags := Text.Sorted(byTag.Keys);
    hide Tagged, SortNumbers, TagsOf;
    groups, covered := [], {};
    for i := 0 to |tags|
      invariant groups == TagGroups(prs, of, reason, tags, i) && covered == Covered(groups)
    {
      assert tags[i] in byTag.Keys;
      var numbers := SortNumbers(byTag[tags[i]]);
      if |numbers| < 2 { continue; }
      CoveredAppend(groups, reason, numbers);
      groups := groups + [GroupOf(reason, numbers)];
      covered := covered + set k | 0 <= k < |numbers| :: numbers[k];
    }
  }

  lemma CoveredAppend(groups: seq<DuplicateGroup>, reason: Reason, numbers: seq<int>)
    requires |numbers| >= 2
    ensures Covered(groups + [GroupOf(reason, numbers)]) == Covered(groups) + set k | 0 <= k < |numbers| :: numbers[k]
  {
    assert (groups + [GroupOf(reason, numbers)])[..|groups|] == groups;
    GroupMembers(reason, numbers);
  }

  lemma GroupMembers(reason: Reason, numbers: seq<int>)
    requires |numbers| >= 2
    ensures MembersOf(GroupOf(reason, numbers)) == set k | 0 <= k < |numbers| :: numbers[k]
  {
    var all, last := set k | 0 <= k < |numbers| :: numbers[k], |numbers| - 1;
    forall x | x in all
      ensures x in MembersOf(GroupOf(reason, numbers))
    {
      var k :| 0 <= k < |numbers| && numbers[k] == x;
      if k < last { assert GroupOf(reason, numbers).closed[k] == x; }
    }
    assert numbers[last] in all;
  }

  lemma TagsAppend(prs: seq<CandidatePr>, of: CandidatePr -> string, i: nat)
    requires i < |prs|
    ensures TagsOf(prs[..i + 1], of) == TagsOf(prs[..i], of) + if of(prs[i]) == "" then {} else {of(prs[i])}
  {
    var before, after := prs[..i], prs[..i + 1];
    assert after[i] == prs[i] && forall k :: 0 <= k < i ==> after[k] == before[k];
  }

  method GroupDuplicatePrs(prs: seq<CandidatePr>, patches: map<int, string>) returns (groups: seq<DuplicateGroup>)
    ensures groups == GroupDuplicates(prs, patches)
  {
    var branches, covered := GroupByTag(prs, BranchTag, SameBranch);
    var diffs, more := GroupByTag(prs, PatchTag(patches, covered), SameDiff);
    groups := branches + diffs;
  }

  // ----- the plan -----

  predicate IsEligible(pr: CandidatePr) { pr.isOpen && !pr.isDraft }

  function FactsOf(facts: map<int, GitFacts>, pr: CandidatePr): Option<GitFacts> {
    if pr.number in facts then Some(facts[pr.number]) else None
  }

  predicate IsLanded(pr: CandidatePr, facts: map<int, GitFacts>) {
    ClassifyLanded(pr, FactsOf(facts, pr)).Some?
  }

  function LandedActions(prs: seq<CandidatePr>, facts: map<int, GitFacts>, rows: seq<Row>, n: nat): seq<CloseAction>
    requires n <= |prs|
  {
    if n == 0 then []
    else
      var before, pr := LandedActions(prs, facts, rows, n - 1), prs[n - 1];
      var action := ClassifyLanded(pr, FactsOf(facts, pr));
      if !IsEligible(pr) || action.None? || AlreadySubmitted(rows, action.value) then before
      else before + [action.value]
  }

  function LandedNumbers(prs: seq<CandidatePr>, facts: map<int, GitFacts>): set<int> {
    set i | 0 <= i < |prs| && IsEligible(prs[i]) && IsLanded(prs[i], facts) :: prs[i].number
  }

  function Remaining(prs: seq<CandidatePr>, landed: set<int>, n: nat): seq<CandidatePr>
    requires n <= |prs|
  {
    if n == 0 then []
    else if IsEligible(prs[n - 1]) && prs[n - 1].number !in landed then Remaining(prs, landed, n - 1) + [prs[n - 1]]
    else Remaining(prs, landed, n - 1)
  }

  function LastOf(prs: seq<CandidatePr>, n: nat): map<int, CandidatePr>
    requires n <= |prs|
  {
    if n == 0 then map[] else LastOf(prs, n - 1)[prs[n - 1].number := prs[n - 1]]
  }

  function ClosedActions(byNumber: map<int, CandidatePr>, g: DuplicateGroup, rows: seq<Row>, n: nat): seq<CloseAction>
    requires n <= |g.closed|
  {
    if n == 0 then []
    else
      var before, number := ClosedActions(byNumber, g, rows, n - 1), g.closed[n - 1];
      if number !in byNumber then before
      else
        var action := CloseAction(number, byNumber[number].head, g.reason, Some(g.kept));
        if AlreadySubmitted(rows, action) then before else before + [action]
  }

  function DuplicateActions(byNumber: map<int, CandidatePr>, groups: seq<DuplicateGroup>, rows: seq<Row>,
                            n: nat): seq<CloseAction>
    requires n <= |groups|
  {
    if n == 0 then []
    else DuplicateActions(byNumber, groups, rows, n - 1)
         + ClosedActions(byNumber, groups[n - 1], rows, |groups[n - 1].closed|)
  }

  function PlanClosings(prs: seq<CandidatePr>, facts: map<int, GitFacts>, patches: map<int, string>,
                        rows: seq<Row>): seq<CloseAction> {
    var remaining := Remaining(prs, LandedNumbers(prs, facts), |prs|);
    var groups := GroupDuplicates(remaining, patches);
    LandedActions(prs, facts, rows, |prs|) + DuplicateActions(LastOf(remaining, |remaining|), groups, rows, |groups|)
  }

  method PlanLanded(prs: seq<CandidatePr>, facts: map<int, GitFacts>, ledger: Ledger)
    returns (actions: seq<CloseAction>, landed: set<int>)
    ensures actions == LandedActions(prs, facts, ledger.rows, |prs|) && landed == LandedNumbers(prs, facts)
  {
    hide LandedNumbers, ClassifyLanded, LedgerKey;
    assert LandedNumbers(prs[..0], facts) == {} by { NoneLanded(prs[..0], facts); }
    actions, landed := [], {};
    for i := 0 to |prs|
      invariant actions == LandedActions(prs, facts, ledger.rows, i) && landed == LandedNumbers(prs[..i], facts)
    {
      var pr := prs[i];
      LandedAppend(prs, facts, i);
      if !IsEligible(pr) { continue; }
      var action := ClassifyLanded(pr, FactsOf(facts, pr));
      if action.None? { continue; }
      landed := landed + {pr.number};
      var count := ledger.Count(SUBMIT_KIND, action.value.pr, action.value.head,
                                LedgerKey(action.value.reason, action.value.kept));
      if count > 0 { continue; }
      actions := actions + [action.value];
    }
    assert prs[..|prs|] == prs;
  }

  lemma NoneLanded(prs: seq<CandidatePr>, facts: map<int, GitFacts>)
    requires prs == []
    ensures LandedNumbers(prs, facts) == {}
  {
  }

  method CloseGroup(byNumber: map<int, CandidatePr>, g: DuplicateGroup, ledger: Ledger)
    returns (actions: seq<CloseAction>)
    ensures actions == ClosedActions(byNumber, g, ledger.rows, |g.closed|)
  {
    actions := [];
    for j := 0 to |g.closed|
      invariant actions == ClosedActions(byNumber, g, ledger.rows, j)
    {
      if g.closed[j] !in byNumber { continue; }
      var action := CloseAction(g.closed[j], byNumber[g.closed[j]].head, g.reason, Some(g.kept));
      var count := ledger.Count(SUBMIT_KIND, action.pr, action.head, LedgerKey(action.reason, action.kept));
      if count > 0 { continue; }
      actions := actions + [action];
    }
  }

  method PlanCloseActions(prs: seq<CandidatePr>, facts: map<int, GitFacts>, patches: map<int, string>, ledger: Ledger)
    returns (actions: seq<CloseAction>)
    ensures actions == PlanClosings(prs, facts, patches, ledger.rows)
  {
    hide ClosedActions, GroupDuplicates, LandedNumbers;
    var landed: set<int>;
    actions, landed := PlanLanded(prs, facts, ledger);
    var remaining := Remaining(prs, landed, |prs|);
    var byNumber := LastOf(remaining, |remaining|);
    var groups := GroupDuplicatePrs(remaining, patches);
    ghost var first := actions;
    for i := 0 to |groups|
      invariant actions == first + DuplicateActions(byNumber, groups, ledger.rows, i)
    {
      var closings := CloseGroup(byNumber, groups[i], ledger);
      actions := actions + closings;
    }
  }

  lemma LandedAppend(prs: seq<CandidatePr>, facts: map<int, GitFacts>, i: nat)
    requires i < |prs|
    ensures LandedNumbers(prs[..i + 1], facts) == LandedNumbers(prs[..i], facts)
            + if IsEligible(prs[i]) && IsLanded(prs[i], facts) then {prs[i].number} else {}
  {
    var before, after := prs[..i], prs[..i + 1];
    assert after[i] == prs[i] && forall k :: 0 <= k < i ==> after[k] == before[k];
  }

  // ----- what a group is -----

  /** No two PRs share a number. */
  ghost predicate Distinct(prs: seq<CandidatePr>) {
    forall i, j :: 0 <= i < j < |prs| ==> prs[i].number != prs[j].number
  }

  ghost predicate AtMost(s: seq<int>, top: int) { forall i :: 0 <= i < |s| ==> s[i] <= top }

  ghost predicate Ordered(s: seq<int>) { s == [] || (Ordered(s[..|s| - 1]) && AtMost(s[..|s| - 1], s[|s| - 1])) }

  lemma OrderedAppend(s: seq<int>, x: int)
    ensures Ordered(s + [x]) <==> Ordered(s) && AtMost(s, x)
  {
    assert (s + [x])[..|s|] == s;
  }

  lemma {:induction false} InsertKeepsOrder(sorted: seq<int>, x: int, top: int)
    requires Ordered(sorted)
    ensures Ordered(InsertNumber(sorted, x))
    ensures AtMost(sorted, top) && x <= top ==> AtMost(InsertNumber(sorted, x), top)
  {
    if sorted == [] || sorted[|sorted| - 1] <= x {
      OrderedAppend(sorted, x);
    } else {
      var init, last := sorted[..|sorted| - 1], sorted[|sorted| - 1];
      InsertKeepsOrder(init, x, last);
      InsertKeepsOrder(init, x, top);
      OrderedAppend(InsertNumber(init, x), last);
    }
  }

  lemma {:induction false} InsertKeepsNumbers(sorted: seq<int>, x: int)
    ensures multiset(InsertNumber(sorted, x)) == multiset(sorted) + multiset{x}
  {
    if sorted != [] && sorted[|sorted| - 1] > x {
      InsertKeepsNumbers(sorted[..|sorted| - 1], x);
      assert sorted == sorted[..|sorted| - 1] + [sorted[|sorted| - 1]];
    }
  }

  lemma {:induction false} SortOrders(s: seq<int>)
    ensures Ordered(SortNumbers(s))
  {
    if s != [] {
      SortOrders(s[..|s| - 1]);
      InsertKeepsOrder(SortNumbers(s[..|s| - 1]), s[|s| - 1], 0);
    }
  }

  lemma {:induction false} SortKeepsNumbers(s: seq<int>)
    ensures multiset(SortNumbers(s)) == multiset(s)
  {
    if s != [] {
      var init, last := s[..|s| - 1], s[|s| - 1];
      SortKeepsNumbers(init);
      InsertKeepsNumbers(SortNumbers(init), last);
      assert s == init + [last];
    }
  }

  lemma LastIsLargest(s: seq<int>, x: int)
    requires Ordered(s) && s != [] && multiset(s)[x] <= 1 && x in s[..|s| - 1]
    ensures x < s[|s| - 1]
  {
    var init, last := s[..|s| - 1], s[|s| - 1];
    assert s == init + [last];
    assert multiset(s)[x] == multiset(init)[x] + multiset([last])[x];
  }

  /** The PR with this number has this tag. */
  ghost predicate HasTag(prs: seq<CandidatePr>, of: CandidatePr -> string, tag: string, x: int, n: nat)
    requires n <= |prs|
  {
    exists i :: 0 <= i < n && prs[i].number == x && of(prs[i]) == tag
  }

  lemma {:induction false} TaggedMembers(prs: seq<CandidatePr>, of: CandidatePr -> string, tag: string, n: nat, x: int)
    requires n <= |prs|
    ensures x in Tagged(prs, of, tag, n) <==> HasTag(prs, of, tag, x, n)
    ensures Distinct(prs) ==> multiset(Tagged(prs, of, tag, n))[x] <= 1
  {
    if n > 0 {
      TaggedMembers(prs, of, tag, n - 1, x);
      if HasTag(prs, of, tag, x, n) && !HasTag(prs, of, tag, x, n - 1) { assert prs[n - 1].number == x; }
      if HasTag(prs, of, tag, x, n - 1) {
        var i :| 0 <= i < n - 1 && prs[i].number == x && of(prs[i]) == tag;
        assert HasTag(prs, of, tag, x, n);
      }
    }
  }

  function NumbersOfTag(prs: seq<CandidatePr>, of: CandidatePr -> string, tag: string): seq<int> {
    SortNumbers(Tagged(prs, of, tag, |prs|))
  }

  /** The sorted numbers of a tag: all of them, the largest last. */
  lemma TagNumbers(prs: seq<CandidatePr>, of: CandidatePr -> string, tag: string, x: int)
    requires Distinct(prs)
    ensures var numbers := NumbersOfTag(prs, of, tag);
            && (x in numbers <==> HasTag(prs, of, tag, x, |prs|))
            && (numbers != [] && x in numbers[..|numbers| - 1] ==> x < numbers[|numbers| - 1])
  {
    hide Ordered, SortNumbers, Tagged, HasTag, Distinct;
    var tagged, numbers := Tagged(prs, of, tag, |prs|), NumbersOfTag(prs, of, tag);
    SortOrders(tagged);
    SortKeepsNumbers(tagged);
    TaggedMembers(prs, of, tag, |prs|, x);
    assert x in numbers <==> x in multiset(numbers);
    assert x in tagged <==> x in multiset(tagged);
    if numbers != [] && x in numbers[..|numbers| - 1] { LastIsLargest(numbers, x); }
  }

  /** How many groups a number is a member of. */
  function GroupCount(groups: seq<DuplicateGroup>, x: int): nat {
    if groups == [] then 0 else GroupCount(groups[..|groups| - 1], x)
                                + if x in MembersOf(groups[|groups| - 1]) then 1 else 0
  }

  /** Wherever a number is closed, a larger one is kept. */
  ghost predicate KeptAbove(groups: seq<DuplicateGroup>, x: int) {
    forall k :: 0 <= k < |groups| && x in groups[k].closed ==> x < groups[k].kept
  }

  lemma GroupCountAppend(groups: seq<DuplicateGroup>, g: DuplicateGroup, x: int)
    ensures GroupCount(groups + [g], x) == GroupCount(groups, x) + if x in MembersOf(g) then 1 else 0
  {
    assert (groups + [g])[..|groups|] == groups;
  }

  lemma {:induction false} CoveredIsCounted(groups: seq<DuplicateGroup>, x: int)
    ensures x in Covered(groups) <==> GroupCount(groups, x) > 0
  {
    if groups != [] { CoveredIsCounted(groups[..|groups| - 1], x); }
  }

  lemma NumberHasOneTag(prs: seq<CandidatePr>, of: CandidatePr -> string, a: string, b: string, x: int)
    requires Distinct(prs) && HasTag(prs, of, a, x, |prs|) && HasTag(prs, of, b, x, |prs|)
    ensures a == b
  {
    var i :| 0 <= i < |prs| && prs[i].number == x && of(prs[i]) == a;
    var j :| 0 <= j < |prs| && prs[j].number == x && of(prs[j]) == b;
    assert i == j;
  }

  ghost predicate HasOneOf(prs: seq<CandidatePr>, of: CandidatePr -> string, tags: seq<string>, n: nat, x: int)
    requires n <= |tags|
  {
    exists j :: 0 <= j < n && HasTag(prs, of, tags[j], x, |prs|)
  }

  lemma OneGroup(prs: seq<CandidatePr>, of: CandidatePr -> string, reason: Reason, tag: string, x: int)
    requires Distinct(prs) && |NumbersOfTag(prs, of, tag)| >= 2
    ensures var g := GroupOf(reason, NumbersOfTag(prs, of, tag));
            && (x in MembersOf(g) <==> HasTag(prs, of, tag, x, |prs|))
            && (x in g.closed ==> x < g.kept)
  {
    hide NumbersOfTag, HasTag, Distinct;
    var numbers := NumbersOfTag(prs, of, tag);
    TagNumbers(prs, of, tag, x);
    GroupMembers(reason, numbers);
    assert x in numbers <==> x in set k | 0 <= k < |numbers| :: numbers[k];
  }

  lemma LaterTagIsNew(prs: seq<CandidatePr>, of: CandidatePr -> string, tags: seq<string>, n: nat, x: int)
    requires 0 < n <= |tags| && Distinct(prs) && Text.Ascending(tags) && HasTag(prs, of, tags[n - 1], x, |prs|)
    ensures !HasOneOf(prs, of, tags, n - 1, x)
  {
    hide HasTag, Distinct;
    if j :| 0 <= j < n - 1 && HasTag(prs, of, tags[j], x, |prs|) {
      NumberHasOneTag(prs, of, tags[j], tags[n - 1], x);
      Text.BeforeIsTotal(tags[j], tags[n - 1]);
    }
  }

  lemma OneMoreTag(prs: seq<CandidatePr>, of: CandidatePr -> string, tags: seq<string>, n: nat, x: int)
    requires 0 < n <= |tags|
    ensures HasOneOf(prs, of, tags, n, x) <==>
            HasOneOf(prs, of, tags, n - 1, x) || HasTag(prs, of, tags[n - 1], x, |prs|)
  {
    hide HasTag;
  }

  lemma KeptAboveAppend(groups: seq<DuplicateGroup>, g: DuplicateGroup, x: int)
    ensures KeptAbove(groups + [g], x) <==> KeptAbove(groups, x) && (x in g.closed ==> x < g.kept)
  {
    var after := groups + [g];
    assert after[|groups|] == g && forall k :: 0 <= k < |groups| ==> after[k] == groups[k];
  }

  lemma TagGroupsStep(prs: seq<CandidatePr>, of: CandidatePr -> string, reason: Reason, tags: seq<string>, n: nat)
    requires 0 < n <= |tags|
    ensures TagGroups(prs, of, reason, tags, n) ==
            var before, numbers := TagGroups(prs, of, reason, tags, n - 1), NumbersOfTag(prs, of, tags[n - 1]);
            if |numbers| < 2 then before else before + [GroupOf(reason, numbers)]
  {
    hide Tagged, SortNumbers;
  }

  lemma {:induction false} TagGroupsAreSound(prs: seq<CandidatePr>, of: CandidatePr -> string, reason: Reason,
                                             tags: seq<string>, n: nat, x: int)
    requires n <= |tags| && Distinct(prs) && Text.Ascending(tags)
    ensures var groups := TagGroups(prs, of, reason, tags, n);
            && GroupCount(groups, x) <= 1 && KeptAbove(groups, x)
            && (GroupCount(groups, x) > 0 ==> HasOneOf(prs, of, tags, n, x))
  {
    if n > 0 {
      TagGroupsAreSound(prs, of, reason, tags, n - 1, x);
      TagGroupsStep(prs, of, reason, tags, n);
      hide Tagged, SortNumbers, HasTag, Distinct, GroupCount, MembersOf, HasOneOf, KeptAbove, NumbersOfTag, TagGroups;
      OneMoreTag(prs, of, tags, n, x);
      var before, numbers := TagGroups(prs, of, reason, tags, n - 1), NumbersOfTag(prs, of, tags[n - 1]);
      if |numbers| >= 2 {
        GroupCountAppend(before, GroupOf(reason, numbers), x);
        OneGroup(prs, of, reason, tags[n - 1], x);
        KeptAboveAppend(before, GroupOf(reason, numbers), x);
        if HasTag(prs, of, tags[n - 1], x, |prs|) { LaterTagIsNew(prs, of, tags, n, x); }
      }
    }
  }

  lemma GroupsByAreSound(prs: seq<CandidatePr>, of: CandidatePr -> string, reason: Reason, x: int)
    requires Distinct(prs)
    ensures var groups := GroupsBy(prs, of, reason);
            && GroupCount(groups, x) <= 1 && KeptAbove(groups, x)
            && (GroupCount(groups, x) > 0 ==> exists tag :: tag != "" && HasTag(prs, of, tag, x, |prs|))
  {
    var tags := Text.Sorted(TagsOf(prs, of));
    TagGroupsAreSound(prs, of, reason, tags, |tags|, x);
    if GroupCount(GroupsBy(prs, of, reason), x) > 0 {
      var j :| 0 <= j < |tags| && HasTag(prs, of, tags[j], x, |prs|);
      assert tags[j] in TagsOf(prs, of);
    }
  }

  lemma {:induction false} GroupCountBoth(a: seq<DuplicateGroup>, b: seq<DuplicateGroup>, x: int)
    ensures GroupCount(a + b, x) == GroupCount(a, x) + GroupCount(b, x)
  {
    if b == [] {
      assert a + b == a;
    } else {
      GroupCountBoth(a, b[..|b| - 1], x);
      assert (a + b)[..|a + b| - 1] == a + b[..|b| - 1];
    }
  }

  /** Duplicate groups are pairwise disjoint, and every kept number is larger than those it closes. */
  lemma GroupsAreDisjoint(prs: seq<CandidatePr>, patches: map<int, string>, x: int)
    requires Distinct(prs)
    ensures GroupCount(GroupDuplicates(prs, patches), x) <= 1 && KeptAbove(GroupDuplicates(prs, patches), x)
  {
    var branches := GroupsBy(prs, BranchTag, SameBranch);
    var of := PatchTag(patches, Covered(branches));
    GroupsByAreSound(prs, BranchTag, SameBranch, x);
    GroupsByAreSound(prs, of, SameDiff, x);
    GroupCountBoth(branches, GroupsBy(prs, of, SameDiff), x);
    CoveredIsCounted(branches, x);
  }

  /** Who is grouped: in a group by tag are exactly the PRs whose tag another PR shares. */
  lemma GroupedExactlyWhenShared(prs: seq<CandidatePr>, of: CandidatePr -> string, reason: Reason, i: nat)
    requires Distinct(prs) && i < |prs|
    ensures GroupCount(GroupsBy(prs, of, reason), prs[i].number) > 0 <==>
            of(prs[i]) != "" && IsShared(prs, of, i)
  {
    var tags, x := Text.Sorted(TagsOf(prs, of)), prs[i].number;
    assert HasTag(prs, of, of(prs[i]), x, |prs|);
    if of(prs[i]) == "" {
      GroupsByAreSound(prs, of, reason, x);
      if tag :| tag != "" && HasTag(prs, of, tag, x, |prs|) { NumberHasOneTag(prs, of, tag, of(prs[i]), x); }
    } else {
      assert of(prs[i]) in tags;
      var t :| 0 <= t < |tags| && tags[t] == of(prs[i]);
      CountUpToTag(prs, of, reason, tags, |tags|, t, x);
      SharedMeansTwo(prs, of, i);
    }
  }

  lemma {:induction false} CountUpToTag(prs: seq<CandidatePr>, of: CandidatePr -> string, reason: Reason,
                                        tags: seq<string>, n: nat, t: nat, x: int)
    requires t < n <= |tags| && Distinct(prs) && Text.Ascending(tags) && HasTag(prs, of, tags[t], x, |prs|)
    ensures GroupCount(TagGroups(prs, of, reason, tags, n), x) > 0 <==> |NumbersOfTag(prs, of, tags[t])| >= 2
  {
    hide Tagged, SortNumbers, HasTag, Distinct, GroupCount, MembersOf;
    var before, numbers := TagGroups(prs, of, reason, tags, n - 1), NumbersOfTag(prs, of, tags[n - 1]);
    if |numbers| >= 2 {
      GroupCountAppend(before, GroupOf(reason, numbers), x);
      OneGroup(prs, of, reason, tags[n - 1], x);
    }
    if t < n - 1 {
      CountUpToTag(prs, of, reason, tags, n - 1, t, x);
      if HasTag(prs, of, tags[n - 1], x, |prs|) {
        NumberHasOneTag(prs, of, tags[t], tags[n - 1], x);
        Text.BeforeIsTotal(tags[t], tags[n - 1]);
      }
    } else {
      TagGroupsAreSound(prs, of, reason, tags, n - 1, x);
      if HasOneOf(prs, of, tags, n - 1, x) {
        var j :| 0 <= j < n - 1 && HasTag(prs, of, tags[j], x, |prs|);
        NumberHasOneTag(prs, of, tags[j], tags[t], x);
        Text.BeforeIsTotal(tags[j], tags[t]);
      }
    }
  }

  ghost predicate IsShared(prs: seq<CandidatePr>, of: CandidatePr -> string, i: nat)
    requires i < |prs|
  {
    exists j :: 0 <= j < |prs| && j != i && of(prs[j]) == of(prs[i])
  }

  lemma TwoMeansShared(prs: seq<CandidatePr>, of: CandidatePr -> string, i: nat)
    requires Distinct(prs) && i < |prs| && |NumbersOfTag(prs, of, of(prs[i]))| >= 2
    ensures IsShared(prs, of, i)
  {
    hide NumbersOfTag;
    var numbers := NumbersOfTag(prs, of, of(prs[i]));
    var other := if numbers[0] == prs[i].number then numbers[|numbers| - 1] else numbers[0];
    assert numbers[0] in numbers[..|numbers| - 1];
    TagNumbers(prs, of, of(prs[i]), numbers[0]);
    TagNumbers(prs, of, of(prs[i]), other);
    var j :| 0 <= j < |prs| && prs[j].number == other && of(prs[j]) == of(prs[i]);
    assert j != i;
  }

  lemma SharedMeansTwo(prs: seq<CandidatePr>, of: CandidatePr -> string, i: nat)
    requires Distinct(prs) && i < |prs|
    ensures |NumbersOfTag(prs, of, of(prs[i]))| >= 2 <==> IsShared(prs, of, i)
  {
    hide NumbersOfTag;
    var tag := of(prs[i]);
    var numbers := NumbersOfTag(prs, of, tag);
    if |numbers| >= 2 { TwoMeansShared(prs, of, i); }
    if j :| 0 <= j < |prs| && j != i && of(prs[j]) == tag {
      TagNumbers(prs, of, tag, prs[i].number);
      TagNumbers(prs, of, tag, prs[j].number);
      assert HasTag(prs, of, tag, prs[i].number, |prs|) && HasTag(prs, of, tag, prs[j].number, |prs|);
      assert prs[i].number != prs[j].number;
    }
  }

  // ----- the survivor -----

  lemma {:induction false} RemainingIsDistinct(prs: seq<CandidatePr>, landed: set<int>, n: nat)
    requires n <= |prs| && Distinct(prs)
    ensures Distinct(Remaining(prs, landed, n))
    ensures forall k :: 0 <= k < |Remaining(prs, landed, n)| ==>
              && Remaining(prs, landed, n)[k].number !in landed && IsEligible(Remaining(prs, landed, n)[k])
              && exists i :: 0 <= i < n && prs[i] == Remaining(prs, landed, n)[k]
  {
    if n > 0 {
      RemainingIsDistinct(prs, landed, n - 1);
      var before, after := Remaining(prs, landed, n - 1), Remaining(prs, landed, n);
      forall k | 0 <= k < |before|
        ensures before[k].number != prs[n - 1].number && exists i :: 0 <= i < n && prs[i] == before[k]
      {
        var i :| 0 <= i < n - 1 && prs[i] == before[k];
      }
      assert forall k :: 0 <= k < |before| ==> after[k] == before[k];
      if |after| > |before| { assert after[|before|] == prs[n - 1]; }
    }
  }

  lemma {:induction false} LandedActionsLand(prs: seq<CandidatePr>, facts: map<int, GitFacts>, rows: seq<Row>, n: nat)
    requires n <= |prs|
    ensures forall k :: 0 <= k < |LandedActions(prs, facts, rows, n)| ==>
              LandedActions(prs, facts, rows, n)[k].kept.None?
                && LandedActions(prs, facts, rows, n)[k].pr in LandedNumbers(prs, facts)
  {
    if n > 0 {
      LandedActionsLand(prs, facts, rows, n - 1);
      assert IsEligible(prs[n - 1]) && IsLanded(prs[n - 1], facts) ==> prs[n - 1].number in LandedNumbers(prs, facts);
    }
  }

  /** A duplicate action closes one of a group's closed PRs in favour of its kept one. */
  ghost predicate FromGroup(groups: seq<DuplicateGroup>, a: CloseAction, k: int) {
    0 <= k < |groups| && a.pr in groups[k].closed && a.kept == Some(groups[k].kept)
  }

  lemma {:induction false} ClosedActionsClose(byNumber: map<int, CandidatePr>, g: DuplicateGroup, rows: seq<Row>,
                                              n: nat)
    requires n <= |g.closed|
    ensures forall k :: 0 <= k < |ClosedActions(byNumber, g, rows, n)| ==>
              ClosedActions(byNumber, g, rows, n)[k].pr in g.closed
                && ClosedActions(byNumber, g, rows, n)[k].kept == Some(g.kept)
  {
    if n > 0 { ClosedActionsClose(byNumber, g, rows, n - 1); }
  }

  lemma {:induction false} DuplicateActionsClose(byNumber: map<int, CandidatePr>, groups: seq<DuplicateGroup>,
                                                 rows: seq<Row>, n: nat, i: nat) returns (k: nat)
    requires n <= |groups| && i < |DuplicateActions(byNumber, groups, rows, n)|
    ensures FromGroup(groups, DuplicateActions(byNumber, groups, rows, n)[i], k)
  {
    var before := DuplicateActions(byNumber, groups, rows, n - 1);
    if i < |before| {
      k := DuplicateActionsClose(byNumber, groups, rows, n - 1, i);
    } else {
      ClosedActionsClose(byNumber, groups[n - 1], rows, |groups[n - 1].closed|);
      k := n - 1;
    }
  }

  lemma {:induction false} CountedTwice(groups: seq<DuplicateGroup>, j: nat, k: nat, x: int)
    requires j < k < |groups| && x in MembersOf(groups[j]) && x in MembersOf(groups[k])
    ensures GroupCount(groups, x) >= 2
  {
    var init := groups[..|groups| - 1];
    if k < |groups| - 1 {
      CountedTwice(init, j, k, x);
    } else {
      CountedOnce(init, j, x);
    }
  }

  lemma {:induction false} CountedOnce(groups: seq<DuplicateGroup>, j: nat, x: int)
    requires j < |groups| && x in MembersOf(groups[j])
    ensures GroupCount(groups, x) >= 1
  {
    if j < |groups| - 1 { CountedOnce(groups[..|groups| - 1], j, x); }
  }

  lemma MemberOf(g: DuplicateGroup, x: int)
    ensures x == g.kept || x in g.closed ==> x in MembersOf(g)
  {
  }

  /** A number kept by one group is closed by none. */
  lemma KeptIsNotClosed(prs: seq<CandidatePr>, patches: map<int, string>, j: nat, k: nat, x: int)
    requires Distinct(prs) && j < |GroupDuplicates(prs, patches)| && k < |GroupDuplicates(prs, patches)|
    requires GroupDuplicates(prs, patches)[j].kept == x
    ensures x !in GroupDuplicates(prs, patches)[k].closed
  {
    hide GroupDuplicates, MembersOf, GroupCount;
    var groups := GroupDuplicates(prs, patches);
    GroupsAreDisjoint(prs, patches, x);
    MemberOf(groups[j], x);
    MemberOf(groups[k], x);
    if x in groups[k].closed {
      if j < k { CountedTwice(groups, j, k, x); } else if k < j { CountedTwice(groups, k, j, x); }
    }
  }

  lemma {:induction false} CountedSomewhere(groups: seq<DuplicateGroup>, x: int) returns (k: nat)
    requires GroupCount(groups, x) > 0
    ensures k < |groups| && x in MembersOf(groups[k])
  {
    if x in MembersOf(groups[|groups| - 1]) {
      k := |groups| - 1;
    } else {
      k := CountedSomewhere(groups[..|groups| - 1], x);
    }
  }

  lemma MembersAreRemaining(prs: seq<CandidatePr>, patches: map<int, string>, k: nat, x: int)
    requires Distinct(prs) && k < |GroupDuplicates(prs, patches)| && x in MembersOf(GroupDuplicates(prs, patches)[k])
    ensures exists i :: 0 <= i < |prs| && prs[i].number == x
  {
    hide GroupCount, MembersOf;
    var branches := GroupsBy(prs, BranchTag, SameBranch);
    var of := PatchTag(patches, Covered(branches));
    CountedOnce(GroupDuplicates(prs, patches), k, x);
    GroupCountBoth(branches, GroupsBy(prs, of, SameDiff), x);
    GroupsByAreSound(prs, BranchTag, SameBranch, x);
    GroupsByAreSound(prs, of, SameDiff, x);
    if GroupCount(branches, x) > 0 {
      var tag :| tag != "" && HasTag(prs, BranchTag, tag, x, |prs|);
    } else {
      var tag :| tag != "" && HasTag(prs, of, tag, x, |prs|);
    }
  }

  /** Closing duplicates never loses the survivor: the kept PR of a closed one has a larger
      number, is open, no draft and not landed, and no action of the same plan closes it. */
  lemma SurvivorIsSafe(prs: seq<CandidatePr>, facts: map<int, GitFacts>, patches: map<int, string>, rows: seq<Row>,
                       i: nat, j: nat)
    requires Distinct(prs)
    requires i < |PlanClosings(prs, facts, patches, rows)| && j < |PlanClosings(prs, facts, patches, rows)|
    requires PlanClosings(prs, facts, patches, rows)[i].kept.Some?
    ensures var plan := PlanClosings(prs, facts, patches, rows);
            var kept := plan[i].kept.value;
            && plan[i].pr < kept && plan[j].pr != kept && kept !in LandedNumbers(prs, facts)
            && exists k :: 0 <= k < |prs| && prs[k].number == kept && IsEligible(prs[k])
  {
    hide GroupDuplicates, LandedNumbers, Remaining, IsEligible, LandedActions, DuplicateActions, MembersOf, LastOf;
    var landed := LandedNumbers(prs, facts);
    var remaining := Remaining(prs, landed, |prs|);
    var groups, first := GroupDuplicates(remaining, patches), LandedActions(prs, facts, rows, |prs|);
    var plan := PlanClosings(prs, facts, patches, rows);
    RemainingIsDistinct(prs, landed, |prs|);
    LandedActionsLand(prs, facts, rows, |prs|);
    var a := DuplicateActionsClose(LastOf(remaining, |remaining|), groups, rows, |groups|, i - |first|);
    var kept := groups[a].kept;
    GroupsAreDisjoint(remaining, patches, plan[i].pr);
    MemberOf(groups[a], kept);
    MembersAreRemaining(remaining, patches, a, kept);
    var r :| 0 <= r < |remaining| && remaining[r].number == kept;
    if j >= |first| {
      var b := DuplicateActionsClose(LastOf(remaining, |remaining|), groups, rows, |groups|, j - |first|);
      KeptIsNotClosed(remaining, patches, a, b, kept);
    }
  }

  // ----- landed PRs -----

  lemma {:induction false} LandedActionsOf(prs: seq<CandidatePr>, facts: map<int, GitFacts>, rows: seq<Row>, n: nat,
                                           i: nat, a: CloseAction)
    requires n <= |prs| && i < |prs| && Distinct(prs) && a.pr == prs[i].number
    ensures a in LandedActions(prs, facts, rows, n) <==>
            i < n && IsEligible(prs[i]) && ClassifyLanded(prs[i], FactsOf(facts, prs[i])) == Some(a)
              && !AlreadySubmitted(rows, a)
  {
    hide AlreadySubmitted;
    if n > 0 {
      LandedActionsOf(prs, facts, rows, n - 1, i, a);
      assert n - 1 != i ==> prs[n - 1].number != prs[i].number;
    }
  }

  /** A landed PR has left the duplicates: no action closes it in favour of another. */
  lemma LandedIsNoDuplicate(prs: seq<CandidatePr>, facts: map<int, GitFacts>, patches: map<int, string>, rows: seq<Row>,
                            k: nat)
    requires Distinct(prs) && k < |PlanClosings(prs, facts, patches, rows)|
    requires PlanClosings(prs, facts, patches, rows)[k].pr in LandedNumbers(prs, facts)
    ensures PlanClosings(prs, facts, patches, rows)[k] in LandedActions(prs, facts, rows, |prs|)
  {
    hide GroupDuplicates, LandedNumbers, Remaining, LandedActions, DuplicateActions, MembersOf, LastOf, IsEligible;
    var remaining := Remaining(prs, LandedNumbers(prs, facts), |prs|);
    var groups, first := GroupDuplicates(remaining, patches), LandedActions(prs, facts, rows, |prs|);
    if k >= |first| {
      var x := PlanClosings(prs, facts, patches, rows)[k].pr;
      RemainingIsDistinct(prs, LandedNumbers(prs, facts), |prs|);
      var g := DuplicateActionsClose(LastOf(remaining, |remaining|), groups, rows, |groups|, k - |first|);
      MemberOf(groups[g], x);
      MembersAreRemaining(remaining, patches, g, x);
      assert false;
    }
  }

  /** The plan closes a PR as landed exactly when it is open, no draft, git shows it landed in some
      way, and that closing was not submitted before; it names a way git shows, and neither closes
      such a PR as a duplicate nor keeps it in favour of one. */
  lemma LandedIsClosedExactlyWhen(prs: seq<CandidatePr>, facts: map<int, GitFacts>, patches: map<int, string>,
                                  rows: seq<Row>, i: nat)
    requires Distinct(prs) && i < |prs| && IsEligible(prs[i]) && prs[i].number in facts
             && exists reason :: Shows(facts[prs[i].number], reason)
    ensures var pr, plan := prs[i], PlanClosings(prs, facts, patches, rows);
            && (forall k :: 0 <= k < |plan| && plan[k].pr == pr.number ==>
                  plan[k].head == pr.head && plan[k].kept.None? && Shows(facts[pr.number], plan[k].reason))
            && (forall k :: 0 <= k < |plan| ==> plan[k].kept != Some(pr.number))
            && ((exists k :: 0 <= k < |plan| && plan[k].pr == pr.number) <==>
                !AlreadySubmitted(rows, ClassifyLanded(pr, FactsOf(facts, pr)).value))
  {
    var pr, plan := prs[i], PlanClosings(prs, facts, patches, rows);
    LandedExactlyWhen(pr, facts[pr.number]);
    var a := ClassifyLanded(pr, FactsOf(facts, pr)).value;
    assert pr.number in LandedNumbers(prs, facts);
    LandedActionsOf(prs, facts, rows, |prs|, i, a);
    hide PlanClosings, LandedActions, LandedNumbers, AlreadySubmitted, ClassifyLanded, Shows;
    forall k | 0 <= k < |plan| && plan[k].pr == pr.number
      ensures plan[k] == a && !AlreadySubmitted(rows, a)
    {
      LandedIsNoDuplicate(prs, facts, patches, rows, k);
      LandedActionsOf(prs, facts, rows, |prs|, i, plan[k]);
    }
    forall k | 0 <= k < |plan|
      ensures plan[k].kept != Some(pr.number)
    {
      if plan[k].kept.Some? { SurvivorIsSafe(prs, facts, patches, rows, k, k); }
    }
    if !AlreadySubmitted(rows, a) { LandedFirst(prs, facts, patches, rows, a); }
  }

  lemma LandedFirst(prs: seq<CandidatePr>, facts: map<int, GitFacts>, patches: map<int, string>, rows: seq<Row>,
                    a: CloseAction)
    requires a in LandedActions(prs, facts, rows, |prs|)
    ensures exists k :: 0 <= k < |PlanClosings(prs, facts, patches, rows)|
              && PlanClosings(prs, facts, patches, rows)[k] == a
  {
    hide LandedActions, DuplicateActions, GroupDuplicates, LastOf;
    var first := LandedActions(prs, facts, rows, |prs|);
    var k :| 0 <= k < |first| && first[k] == a;
    assert PlanClosings(prs, facts, patches, rows)[k] == a;
  }

  /** ... and a PR git does not show landed is never closed as landed. */
  lemma OnlyLandedIsClosedAsLanded(prs: seq<CandidatePr>, facts: map<int, GitFacts>, patches: map<int, string>,
                                   rows: seq<Row>, k: nat)
    requires k < |PlanClosings(prs, facts, patches, rows)| && PlanClosings(prs, facts, patches, rows)[k].kept.None?
    ensures var a := PlanClosings(prs, facts, patches, rows)[k];
            exists i :: 0 <= i < |prs| && prs[i].number == a.pr && IsEligible(prs[i]) && a.pr in facts
              && Shows(facts[a.pr], a.reason)
  {
    hide GroupDuplicates, LandedNumbers, Remaining, LandedActions, DuplicateActions, LastOf, Shows, IsEligible;
    var remaining := Remaining(prs, LandedNumbers(prs, facts), |prs|);
    var groups, first := GroupDuplicates(remaining, patches), LandedActions(prs, facts, rows, |prs|);
    if k >= |first| {
      var g := DuplicateActionsClose(LastOf(remaining, |remaining|), groups, rows, |groups|, k - |first|);
    }
    var i := LandedActionComesFrom(prs, facts, rows, |prs|, k);
  }

  lemma {:induction false} LandedActionComesFrom(prs: seq<CandidatePr>, facts: map<int, GitFacts>, rows: seq<Row>,
                                                 n: nat, k: nat) returns (i: nat)
    requires n <= |prs| && k < |LandedActions(prs, facts, rows, n)|
    ensures var a := LandedActions(prs, facts, rows, n)[k];
            i < n && prs[i].number == a.pr && IsEligible(prs[i]) && a.pr in facts && Shows(facts[a.pr], a.reason)
  {
    hide AlreadySubmitted, IsEligible, ClassifyLanded;
    if k < |LandedActions(prs, facts, rows, n - 1)| {
      i := LandedActionComesFrom(prs, facts, rows, n - 1, k);
    } else {
      i := n - 1;
      NoFactsNotLanded(prs[i]);
      if prs[i].number in facts { LandedExactlyWhen(prs[i], facts[prs[i].number]); }
    }
  }

  lemma NoFactsNotLanded(pr: CandidatePr)
    ensures ClassifyLanded(pr, None).None?
  {
  }

  // ----- every duplicate is closed -----

  lemma {:induction false} GroupOfTag(prs: seq<CandidatePr>, of: CandidatePr -> string, reason: Reason,
                                      tags: seq<string>, n: nat, t: nat) returns (k: nat)
    requires t < n <= |tags| && |NumbersOfTag(prs, of, tags[t])| >= 2
    ensures k < |TagGroups(prs, of, reason, tags, n)|
    ensures TagGroups(prs, of, reason, tags, n)[k] == GroupOf(reason, NumbersOfTag(prs, of, tags[t]))
  {
    if t == n - 1 {
      k := |TagGroups(prs, of, reason, tags, n - 1)|;
    } else {
      k := GroupOfTag(prs, of, reason, tags, n - 1, t);
    }
  }

  lemma InOrder(s: seq<int>, x: int, y: int)
    requires Ordered(s) && x in s && y in s && x < y
    ensures x in s[..|s| - 1]
  {
    var init, last := s[..|s| - 1], s[|s| - 1];
    assert s == init + [last];
    assert forall k :: 0 <= k < |init| ==> init[k] <= last;
  }

  /** Two PRs of one branch: the smaller is closed in that branch's group. */
  lemma SmallerIsClosed(prs: seq<CandidatePr>, of: CandidatePr -> string, reason: Reason, i: nat, j: nat)
    returns (k: nat)
    requires Distinct(prs) && i < |prs| && j < |prs| && of(prs[i]) == of(prs[j]) != "" && prs[i].number < prs[j].number
    ensures k < |GroupsBy(prs, of, reason)| && prs[i].number in GroupsBy(prs, of, reason)[k].closed
    ensures GroupsBy(prs, of, reason)[k].reason == reason
  {
    var tags, tag := Text.Sorted(TagsOf(prs, of)), of(prs[i]);
    assert tag in TagsOf(prs, of);
    var t :| 0 <= t < |tags| && tags[t] == tag;
    var numbers := NumbersOfTag(prs, of, tag);
    TagNumbers(prs, of, tag, prs[i].number);
    TagNumbers(prs, of, tag, prs[j].number);
    assert HasTag(prs, of, tag, prs[i].number, |prs|) && HasTag(prs, of, tag, prs[j].number, |prs|);
    SortOrders(Tagged(prs, of, tag, |prs|));
    InOrder(numbers, prs[i].number, prs[j].number);
    k := GroupOfTag(prs, of, reason, tags, |tags|, t);
  }

  lemma {:induction false} ClosedActionIsPlanned(byNumber: map<int, CandidatePr>, g: DuplicateGroup, rows: seq<Row>,
                                                 n: nat, m: nat)
    requires m < n <= |g.closed| && g.closed[m] in byNumber
    requires !AlreadySubmitted(rows, CloseAction(g.closed[m], byNumber[g.closed[m]].head, g.reason, Some(g.kept)))
    ensures CloseAction(g.closed[m], byNumber[g.closed[m]].head, g.reason, Some(g.kept))
            in ClosedActions(byNumber, g, rows, n)
  {
    hide AlreadySubmitted;
    if m < n - 1 { ClosedActionIsPlanned(byNumber, g, rows, n - 1, m); }
  }

  lemma {:induction false} GroupActionsArePlanned(byNumber: map<int, CandidatePr>, groups: seq<DuplicateGroup>,
                                                  rows: seq<Row>, n: nat, k: nat, a: CloseAction)
    requires k < n <= |groups| && a in ClosedActions(byNumber, groups[k], rows, |groups[k].closed|)
    ensures a in DuplicateActions(byNumber, groups, rows, n)
  {
    hide ClosedActions;
    if k < n - 1 { GroupActionsArePlanned(byNumber, groups, rows, n - 1, k, a); }
  }

  lemma {:induction false} LastOfHas(prs: seq<CandidatePr>, n: nat, i: nat)
    requires i < n <= |prs| && Distinct(prs)
    ensures prs[i].number in LastOf(prs, n) && LastOf(prs, n)[prs[i].number] == prs[i]
  {
    if i < n - 1 { LastOfHas(prs, n - 1, i); }
  }

  /** What a group closes is planned, unless that very closing was submitted before. */
  lemma GroupedIsClosed(prs: seq<CandidatePr>, facts: map<int, GitFacts>, patches: map<int, string>, rows: seq<Row>,
                        i: nat, k: nat) returns (a: CloseAction)
    requires Distinct(prs)
    requires var remaining := Remaining(prs, LandedNumbers(prs, facts), |prs|);
             var groups := GroupDuplicates(remaining, patches);
             i < |remaining| && k < |groups| && remaining[i].number in groups[k].closed
    ensures var remaining := Remaining(prs, LandedNumbers(prs, facts), |prs|);
            var g := GroupDuplicates(remaining, patches)[k];
            && a == CloseAction(remaining[i].number, remaining[i].head, g.reason, Some(g.kept))
            && (AlreadySubmitted(rows, a) || a in PlanClosings(prs, facts, patches, rows))
  {
    hide LandedNumbers, Remaining, AlreadySubmitted, GroupDuplicates, LandedActions, ClosedActions, DuplicateActions,
         LastOf, IsEligible;
    var remaining := Remaining(prs, LandedNumbers(prs, facts), |prs|);
    RemainingIsDistinct(prs, LandedNumbers(prs, facts), |prs|);
    var groups, byNumber := GroupDuplicates(remaining, patches), LastOf(remaining, |remaining|);
    var g := groups[k];
    LastOfHas(remaining, |remaining|, i);
    a := CloseAction(remaining[i].number, remaining[i].head, g.reason, Some(g.kept));
    if !AlreadySubmitted(rows, a) {
      var m :| 0 <= m < |g.closed| && g.closed[m] == remaining[i].number;
      ClosedActionIsPlanned(byNumber, g, rows, |g.closed|, m);
      GroupActionsArePlanned(byNumber, groups, rows, |groups|, k, a);
    }
  }

  /** Every open PR whose branch a larger open PR shares, both not landed, is closed by the plan
      in favour of the kept one, unless that very closing was submitted before. */
  lemma BranchDuplicateIsClosed(prs: seq<CandidatePr>, facts: map<int, GitFacts>, patches: map<int, string>,
                                rows: seq<Row>, i: nat, j: nat) returns (a: CloseAction)
    requires Distinct(prs)
    requires var remaining := Remaining(prs, LandedNumbers(prs, facts), |prs|);
             && i < |remaining| && j < |remaining| && remaining[i].headRef == remaining[j].headRef != ""
                && remaining[i].number < remaining[j].number
    ensures var pr := Remaining(prs, LandedNumbers(prs, facts), |prs|)[i];
            && a.pr == pr.number && a.head == pr.head && a.reason == SameBranch && a.kept.Some?
            && (AlreadySubmitted(rows, a) || a in PlanClosings(prs, facts, patches, rows))
  {
    hide LandedNumbers, Remaining, AlreadySubmitted, TagsOf, TagGroups, PlanClosings, IsEligible;
    var remaining := Remaining(prs, LandedNumbers(prs, facts), |prs|);
    RemainingIsDistinct(prs, LandedNumbers(prs, facts), |prs|);
    var k := SmallerIsClosed(remaining, BranchTag, SameBranch, i, j);
    assert GroupDuplicates(remaining, patches)[k] == GroupsBy(remaining, BranchTag, SameBranch)[k];
    a := GroupedIsClosed(prs, facts, patches, rows, i, k);
  }

  /** A PR none of the others shares its branch with. */
  ghost predicate HasOwnBranch(prs: seq<CandidatePr>, i: nat)
    requires i < |prs|
  {
    prs[i].headRef == "" || !IsShared(prs, BranchTag, i)
  }

  lemma OwnBranchIsUncovered(prs: seq<CandidatePr>, i: nat)
    requires Distinct(prs) && i < |prs| && HasOwnBranch(prs, i)
    ensures prs[i].number !in Covered(GroupsBy(prs, BranchTag, SameBranch))
  {
    GroupedExactlyWhenShared(prs, BranchTag, SameBranch, i);
    CoveredIsCounted(GroupsBy(prs, BranchTag, SameBranch), prs[i].number);
  }

  /** Every open PR whose patch a larger open PR shares, both not landed and with branches of their
      own, is closed by the plan in favour of the kept one, unless submitted before. */
  lemma PatchDuplicateIsClosed(prs: seq<CandidatePr>, facts: map<int, GitFacts>, patches: map<int, string>,
                               rows: seq<Row>, i: nat, j: nat) returns (a: CloseAction)
    requires Distinct(prs)
    requires var remaining := Remaining(prs, LandedNumbers(prs, facts), |prs|);
             && i < |remaining| && j < |remaining| && HasOwnBranch(remaining, i) && HasOwnBranch(remaining, j)
             && remaining[i].number in patches && remaining[j].number in patches
             && patches[remaining[i].number] == patches[remaining[j].number] != ""
                && remaining[i].number < remaining[j].number
    ensures var pr := Remaining(prs, LandedNumbers(prs, facts), |prs|)[i];
            && a.pr == pr.number && a.head == pr.head && a.reason == SameDiff && a.kept.Some?
            && (AlreadySubmitted(rows, a) || a in PlanClosings(prs, facts, patches, rows))
  {
    hide LandedNumbers, Remaining, AlreadySubmitted, TagsOf, TagGroups, PlanClosings, IsEligible, Covered, IsShared;
    var remaining := Remaining(prs, LandedNumbers(prs, facts), |prs|);
    RemainingIsDistinct(prs, LandedNumbers(prs, facts), |prs|);
    OwnBranchIsUncovered(remaining, i);
    OwnBranchIsUncovered(remaining, j);
    var branches := GroupsBy(remaining, BranchTag, SameBranch);
    var of := PatchTag(patches, Covered(branches));
    var k := SmallerIsClosed(remaining, of, SameDiff, i, j);
    assert GroupDuplicates(remaining, patches)[|branches| + k] == GroupsBy(remaining, of, SameDiff)[k];
    a := GroupedIsClosed(prs, facts, patches, rows, i, |branches| + k);
  }

  // ----- over many runs -----

  /** Some plan of some run closes `x` in favour of `y`. */
  ghost predicate Closes(plans: seq<seq<CloseAction>>, x: int, y: int) {
    exists p, i :: 0 <= p < |plans| && 0 <= i < |plans[p]| && plans[p][i].pr == x && plans[p][i].kept == Some(y)
  }

  /** Every plan was made for distinct PRs. */
  ghost predicate Planned(plan: seq<CloseAction>) {
    exists prs, facts, patches, rows :: Distinct(prs) && plan == PlanClosings(prs, facts, patches, rows)
  }

  lemma ClosingGoesUp(plans: seq<seq<CloseAction>>, x: int, y: int)
    requires (forall p :: 0 <= p < |plans| ==> Planned(plans[p])) && Closes(plans, x, y)
    ensures x < y
  {
    hide PlanClosings, Distinct;
    var p, i :| 0 <= p < |plans| && 0 <= i < |plans[p]| && plans[p][i].pr == x && plans[p][i].kept == Some(y);
    var prs, facts, patches, rows :| Distinct(prs) && plans[p] == PlanClosings(prs, facts, patches, rows);
    SurvivorIsSafe(prs, facts, patches, rows, i, i);
  }

  /** Following survivors over any runs never comes back: the closed-to-kept relation is acyclic. */
  lemma {:induction false} ClosingIsAcyclic(plans: seq<seq<CloseAction>>, chain: seq<int>)
    requires (forall p :: 0 <= p < |plans| ==> Planned(plans[p])) && |chain| >= 2
    requires forall i :: 0 < i < |chain| ==> Closes(plans, chain[i - 1], chain[i])
    ensures chain[0] < chain[|chain| - 1]
  {
    hide Closes, Planned;
    var last := |chain| - 1;
    ClosingGoesUp(plans, chain[last - 1], chain[last]);
    if last > 1 { ClosingIsAcyclic(plans, chain[..last]); }
  }
}
