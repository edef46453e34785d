/** The whole closing plan, said on the PRs, git's facts, the patches and the ledger's rows. */
module ClosingFacts {
  import opened Wrappers
  import opened LedgerModel
  import opened DuplicateClose

  // ----- one key for each closing -----

  /** The name a submitted closing has in the ledger. */
  ghost predicate Names(key: string, a: CloseAction) {
    var what := match a.reason
                case Ancestor => "landed:ancestor"
                case EmptyDiff => "landed:empty-diff"
                case PatchEquivalent => "landed:patch-equivalent"
                case RebaseEquivalent => "landed:rebase-equivalent"
                case SameBranch => "duplicate:same-branch"
                case SameDiff => "duplicate:same-diff";
    key == match a.kept case None => what case Some(kept) => what + ":" + Text.Decimal(kept)
  }

  /** This very closing, of this head, was submitted before. */
  ghost predicate WasSubmitted(rows: seq<Row>, a: CloseAction) {
    exists i :: 0 <= i < |rows| && rows[i].kind == OtherKind("pr-duplicate-close-submit") && rows[i].pr == a.pr
                && rows[i].head == a.head && Names(rows[i].key, a)
  }

  lemma SubmittedExactlyWhen(rows: seq<Row>, a: CloseAction)
    ensures AlreadySubmitted(rows, a) <==> WasSubmitted(rows, a)
  {
    var key := LedgerKey(a.reason, a.kept);
    CountIsPositiveIffHit(rows, Exact(SUBMIT_KIND, a.pr, a.head, key));
    assert forall k :: Names(k, a) <==> k == key;
  }

  /** The letters of a key that tell the reasons apart. */
  lemma ReasonShows(key: string, a: CloseAction)
    requires Names(key, a)
    ensures |key| >= 15
    ensures key[0] == 'd' <==> a.reason.SameBranch? || a.reason.SameDiff?
    ensures key[7] == match a.reason
                      case Ancestor => 'a'
                      case EmptyDiff => 'e'
                      case PatchEquivalent => 'p'
                      case RebaseEquivalent => 'r'
                      case _ => 't'
    ensures a.reason.SameBranch? ==> |key| > 15 && key[15] == 'b'
    ensures a.reason.SameDiff? ==> |key| > 15 && key[15] == 'd'
  {
  }

  /** Two closings have one name only when they are for the same reason and keep the same PR. */
  lemma NamesTellApart(key: string, a: CloseAction, b: CloseAction)
    requires Names(key, a) && Names(key, b)
    ensures a.reason == b.reason && a.kept == b.kept
  {
    ReasonShows(key, a);
    ReasonShows(key, b);
    if a.kept.Some? && b.kept.Some? {
      var what := ReasonText(a.reason) + ":";
      assert key[|what|..] == Text.Decimal(a.kept.value) && key[|what|..] == Text.Decimal(b.kept.value);
      Text.DecimalTellsApart(a.kept.value, b.kept.value);
    }
  }

  // ----- who is left -----

  ghost predicate IsOnTrunk(facts: map<int, GitFacts>, p: CandidatePr) {
    p.number in facts
    && var f := facts[p.number];
       f.isAncestor || f.isEmptyDiff || f.allCommitsEquivalent || f.isRebaseEquivalent
  }

  /** An open PR, no draft, that git does not show landed. */
  ghost predicate IsLeft(prs: seq<CandidatePr>, facts: map<int, GitFacts>, p: CandidatePr) {
    p in prs && p.isOpen && !p.isDraft && !IsOnTrunk(facts, p)
  }

  function Left(prs: seq<CandidatePr>, facts: map<int, GitFacts>): seq<CandidatePr> {
    Remaining(prs, LandedNumbers(prs, facts), |prs|)
  }

  lemma {:induction false} RemainingMembers(prs: seq<CandidatePr>, landed: set<int>, n: nat, p: CandidatePr)
    requires n <= |prs|
    ensures p in Remaining(prs, landed, n) <==> p in prs[..n] && p.isOpen && !p.isDraft && p.number !in landed
  {
    if n > 0 {
      RemainingMembers(prs, landed, n - 1, p);
      assert prs[..n] == prs[..n - 1] + [prs[n - 1]];
    }
  }

  lemma LeftMembers(prs: seq<CandidatePr>, facts: map<int, GitFacts>, p: CandidatePr)
    requires Distinct(prs)
    ensures p in Left(prs, facts) <==> IsLeft(prs, facts, p)
  {
    RemainingMembers(prs, LandedNumbers(prs, facts), |prs|, p);
    assert prs[..|prs|] == prs;
    if p in prs {
      var i :| 0 <= i < |prs| && prs[i] == p;
      if p.number in LandedNumbers(prs, facts) {
        var j :| 0 <= j < |prs| && IsEligible(prs[j]) && IsLanded(prs[j], facts) && prs[j].number == p.number;
        assert i == j;
      }
    }
  }

  lemma LeftIsDistinct(prs: seq<CandidatePr>, facts: map<int, GitFacts>)
    requires Distinct(prs)
    ensures Distinct(Left(prs, facts))
  {
    RemainingIsDistinct(prs, LandedNumbers(prs, facts), |prs|);
  }

  lemma SameNumberSamePr(prs: seq<CandidatePr>, p: CandidatePr, q: CandidatePr)
    requires Distinct(prs) && p in prs && q in prs && p.number == q.number
    ensures p == q
  {
    var i :| 0 <= i < |prs| && prs[i] == p;
    var j :| 0 <= j < |prs| && prs[j] == q;
    assert i == j;
  }

  // ----- who is closed for whom -----

  /** `q` is the largest of the PRs left that share the tag of `p`. */
  ghost predicate IsTop(left: seq<CandidatePr>, of: CandidatePr -> string, p: CandidatePr, q: CandidatePr) {
    && q in left && of(p) == of(q) != "" && p.number < q.number
    && forall r :: r in left && of(r) == of(p) ==> r.number <= q.number
  }

  ghost predicate ClosesFor(groups: seq<DuplicateGroup>, k: int, x: int, kept: int) {
    0 <= k < |groups| && x in groups[k].closed && groups[k].kept == kept
  }

  lemma {:induction false} GroupHasTag(prs: seq<CandidatePr>, of: CandidatePr -> string, reason: Reason,
                                       tags: seq<string>, n: nat, k: nat) returns (t: nat)
    requires n <= |tags| && k < |TagGroups(prs, of, reason, tags, n)|
    ensures t < n && |NumbersOfTag(prs, of, tags[t])| >= 2
    ensures TagGroups(prs, of, reason, tags, n)[k] == GroupOf(reason, NumbersOfTag(prs, of, tags[t]))
  {
    hide Tagged, SortNumbers;
    if k < |TagGroups(prs, of, reason, tags, n - 1)| {
      t := GroupHasTag(prs, of, reason, tags, n - 1, k);
    } else {
      t := n - 1;
    }
  }

  lemma TaggedIn(left: seq<CandidatePr>, of: CandidatePr -> string, tag: string, p: CandidatePr)
    requires Distinct(left) && p in left
    ensures HasTag(left, of, tag, p.number, |left|) <==> of(p) == tag
  {
    var i :| 0 <= i < |left| && left[i] == p;
    if HasTag(left, of, tag, p.number, |left|) {
      var j :| 0 <= j < |left| && left[j].number == p.number && of(left[j]) == tag;
      assert i == j;
    }
  }

  /** A group that closes `p` keeps the top of its tag, and gives its own reason. */
  lemma GroupKeepsTop(left: seq<CandidatePr>, of: CandidatePr -> string, reason: Reason, k: nat, p: CandidatePr)
    returns (q: CandidatePr)
    requires Distinct(left) && p in left && k < |GroupsBy(left, of, reason)|
    requires p.number in GroupsBy(left, of, reason)[k].closed
    ensures IsTop(left, of, p, q) && GroupsBy(left, of, reason)[k].kept == q.number
    ensures GroupsBy(left, of, reason)[k].reason == reason
  {
    hide TagGroups, NumbersOfTag, HasTag, Distinct, TagsOf;
    var tags := Text.Sorted(TagsOf(left, of));
    var t := GroupHasTag(left, of, reason, tags, |tags|, k);
    var tag, numbers := tags[t], NumbersOfTag(left, of, tags[t]);
    var last := |numbers| - 1;
    TagIsNotEmpty(left, of, tag);
    TagNumbers(left, of, tag, p.number);
    TagNumbers(left, of, tag, numbers[last]);
    TaggedIn(left, of, tag, p);
    assert p.number in numbers && numbers[last] in numbers;
    q := HolderOf(left, of, tag, numbers[last]);
    forall r | r in left && of(r) == of(p)
      ensures r.number <= q.number
    {
      TaggedIn(left, of, tag, r);
      TagNumbers(left, of, tag, r.number);
      assert numbers == numbers[..last] + [numbers[last]];
    }
  }

  lemma TagIsNotEmpty(left: seq<CandidatePr>, of: CandidatePr -> string, tag: string)
    requires tag in TagsOf(left, of)
    ensures tag != ""
  {
  }

  lemma HolderOf(left: seq<CandidatePr>, of: CandidatePr -> string, tag: string, x: int) returns (q: CandidatePr)
    requires HasTag(left, of, tag, x, |left|)
    ensures q in left && q.number == x && of(q) == tag
  {
    var i :| 0 <= i < |left| && left[i].number == x && of(left[i]) == tag;
    q := left[i];
  }

  lemma TopsAreOne(left: seq<CandidatePr>, of: CandidatePr -> string, p: CandidatePr, q: CandidatePr, r: CandidatePr)
    requires IsTop(left, of, p, q) && IsTop(left, of, p, r)
    ensures q.number == r.number
  {
  }

  /** Who is closed: `p`, in favour of `kept`, exactly when `kept` is the top of its tag. */
  lemma ClosedExactlyBelowTop(left: seq<CandidatePr>, of: CandidatePr -> string, reason: Reason, p: CandidatePr,
                              kept: int)
    requires Distinct(left) && p in left
    ensures (exists k :: ClosesFor(GroupsBy(left, of, reason), k, p.number, kept)) <==>
            exists q :: IsTop(left, of, p, q) && q.number == kept
    ensures forall k :: ClosesFor(GroupsBy(left, of, reason), k, p.number, kept) ==>
              GroupsBy(left, of, reason)[k].reason == reason
  {
    hide GroupsBy, Distinct, IsTop;
    forall k | ClosesFor(GroupsBy(left, of, reason), k, p.number, kept)
      ensures GroupsBy(left, of, reason)[k].reason == reason
      ensures exists q :: IsTop(left, of, p, q) && q.number == kept
    {
      var q := GroupKeepsTop(left, of, reason, k, p);
    }
    if q :| IsTop(left, of, p, q) && q.number == kept {
      var k := TopCloses(left, of, reason, p, q);
    }
  }

  lemma TopCloses(left: seq<CandidatePr>, of: CandidatePr -> string, reason: Reason, p: CandidatePr, q: CandidatePr)
    returns (k: nat)
    requires Distinct(left) && p in left && IsTop(left, of, p, q)
    ensures ClosesFor(GroupsBy(left, of, reason), k, p.number, q.number)
  {
    hide GroupsBy, Distinct;
    var i :| 0 <= i < |left| && left[i] == p;
    var j :| 0 <= j < |left| && left[j] == q;
    k := SmallerIsClosed(left, of, reason, i, j);
    var r := GroupKeepsTop(left, of, reason, k, p);
    TopsAreOne(left, of, p, q, r);
  }

  // ----- branches and patches -----

  ghost predicate OneBranch(p: CandidatePr, q: CandidatePr) { p.headRef == q.headRef != "" }

  /** No other PR that is left has the branch of `p`. */
  ghost predicate HasBranchAlone(prs: seq<CandidatePr>, facts: map<int, GitFacts>, p: CandidatePr) {
    forall r :: IsLeft(prs, facts, r) && OneBranch(p, r) ==> r == p
  }

  ghost predicate OnePatch(prs: seq<CandidatePr>, facts: map<int, GitFacts>, patches: map<int, string>, p: CandidatePr,
                           q: CandidatePr)
  {
    && HasBranchAlone(prs, facts, p) && HasBranchAlone(prs, facts, q)
    && p.number in patches && q.number in patches && patches[p.number] == patches[q.number] != ""
  }

  /** `q` is the largest PR left on the branch of `p`. */
  ghost predicate IsBranchTop(prs: seq<CandidatePr>, facts: map<int, GitFacts>, p: CandidatePr, q: CandidatePr) {
    && IsLeft(prs, facts, q) && OneBranch(p, q) && p.number < q.number
    && forall r :: IsLeft(prs, facts, r) && OneBranch(p, r) ==> r.number <= q.number
  }

  /** `q` is the largest PR left with the patch of `p`, among those with a branch of their own. */
  ghost predicate IsPatchTop(prs: seq<CandidatePr>, facts: map<int, GitFacts>, patches: map<int, string>,
                             p: CandidatePr, q: CandidatePr)
  {
    && IsLeft(prs, facts, q) && OnePatch(prs, facts, patches, p, q) && p.number < q.number
    && forall r :: IsLeft(prs, facts, r) && OnePatch(prs, facts, patches, p, r) ==> r.number <= q.number
  }

  lemma BranchTops(prs: seq<CandidatePr>, facts: map<int, GitFacts>, p: CandidatePr, q: CandidatePr)
    requires Distinct(prs)
    ensures IsTop(Left(prs, facts), BranchTag, p, q) <==> IsBranchTop(prs, facts, p, q)
  {
    hide Left, Distinct, IsLeft;
    forall r ensures r in Left(prs, facts) <==> IsLeft(prs, facts, r) { LeftMembers(prs, facts, r); }
  }

  lemma SharedWithOther(left: seq<CandidatePr>, i: nat) returns (r: CandidatePr)
    requires Distinct(left) && i < |left| && left[i].headRef != "" && IsShared(left, BranchTag, i)
    ensures r in left && r != left[i] && OneBranch(left[i], r)
  {
    var j :| 0 <= j < |left| && j != i && BranchTag(left[j]) == BranchTag(left[i]);
    r := left[j];
  }

  lemma CoveredExactlyWhen(prs: seq<CandidatePr>, facts: map<int, GitFacts>, p: CandidatePr)
    requires Distinct(prs) && IsLeft(prs, facts, p)
    ensures p.number in Covered(GroupsBy(Left(prs, facts), BranchTag, SameBranch)) <==>
            !HasBranchAlone(prs, facts, p)
  {
    hide LandedNumbers, Remaining, IsEligible, GroupsBy, Covered, GroupCount, IsLeft;
    var left := Left(prs, facts);
    RemainingIsDistinct(prs, LandedNumbers(prs, facts), |prs|);
    forall r ensures r in left <==> IsLeft(prs, facts, r) { LeftMembers(prs, facts, r); }
    var i :| 0 <= i < |left| && left[i] == p;
    GroupedExactlyWhenShared(left, BranchTag, SameBranch, i);
    CoveredIsCounted(GroupsBy(left, BranchTag, SameBranch), p.number);
    if p.headRef != "" && IsShared(left, BranchTag, i) { var other := SharedWithOther(left, i); }
    if !HasBranchAlone(prs, facts, p) {
      var r :| IsLeft(prs, facts, r) && OneBranch(p, r) && r != p;
      var j :| 0 <= j < |left| && left[j] == r;
      assert j != i && BranchTag(left[j]) == BranchTag(left[i]);
    }
  }

  lemma PatchTops(prs: seq<CandidatePr>, facts: map<int, GitFacts>, patches: map<int, string>, p: CandidatePr,
                  q: CandidatePr)
    requires Distinct(prs) && IsLeft(prs, facts, p)
    ensures var of := PatchTag(patches, Covered(GroupsBy(Left(prs, facts), BranchTag, SameBranch)));
            IsTop(Left(prs, facts), of, p, q) <==> IsPatchTop(prs, facts, patches, p, q)
  {
    hide Left, Distinct, IsLeft, HasBranchAlone, Covered, GroupsBy;
    var left, covered := Left(prs, facts), Covered(GroupsBy(Left(prs, facts), BranchTag, SameBranch));
    forall r
      ensures r in left <==> IsLeft(prs, facts, r)
      ensures IsLeft(prs, facts, r) ==> (r.number in covered <==> !HasBranchAlone(prs, facts, r))
    {
      LeftMembers(prs, facts, r);
      if IsLeft(prs, facts, r) { CoveredExactlyWhen(prs, facts, r); }
    }
    var of := PatchTag(patches, covered);
    forall r | IsLeft(prs, facts, r)
      ensures of(p) == of(r) != "" <==> OnePatch(prs, facts, patches, p, r)
    {
    }
  }

  // ----- the plan -----

  /** Git shows `p` landed, and `a` closes it for the first way in the source's order. */
  ghost predicate IsLanding(facts: map<int, GitFacts>, p: CandidatePr, a: CloseAction) {
    && p.number in facts && a.kept.None?
    && var f := facts[p.number];
       match a.reason
       case Ancestor => f.isAncestor
       case EmptyDiff => f.isEmptyDiff && !f.isAncestor
       case PatchEquivalent => f.allCommitsEquivalent && !f.isEmptyDiff && !f.isAncestor
       case RebaseEquivalent => f.isRebaseEquivalent && !f.allCommitsEquivalent && !f.isEmptyDiff && !f.isAncestor
       case _ => false
  }

  /** `a` closes `p`, which has not landed, in favour of the top of its branch, or of its patch. */
  ghost predicate IsDuplicate(prs: seq<CandidatePr>, facts: map<int, GitFacts>, patches: map<int, string>,
                              p: CandidatePr, a: CloseAction)
  {
    && !IsOnTrunk(facts, p) && a.kept.Some?
    && match a.reason
       case SameBranch => exists q :: IsBranchTop(prs, facts, p, q) && q.number == a.kept.value
       case SameDiff => exists q :: IsPatchTop(prs, facts, patches, p, q) && q.number == a.kept.value
       case _ => false
  }

  lemma {:induction false} ClosedMembers(byNumber: map<int, CandidatePr>, g: DuplicateGroup, rows: seq<Row>, n: nat,
                                         a: CloseAction)
    requires n <= |g.closed|
    ensures a in ClosedActions(byNumber, g, rows, n) <==>
            && a.pr in g.closed[..n] && a.pr in byNumber && !AlreadySubmitted(rows, a)
            && a == CloseAction(a.pr, byNumber[a.pr].head, g.reason, Some(g.kept))
  {
    hide AlreadySubmitted;
    if n > 0 {
      ClosedMembers(byNumber, g, rows, n - 1, a);
      assert g.closed[..n] == g.closed[..n - 1] + [g.closed[n - 1]];
    }
  }

  lemma {:induction false} DuplicateMembers(byNumber: map<int, CandidatePr>, groups: seq<DuplicateGroup>,
                                            rows: seq<Row>, n: nat, a: CloseAction)
    requires n <= |groups|
    ensures a in DuplicateActions(byNumber, groups, rows, n) <==>
            exists k :: 0 <= k < n && a in ClosedActions(byNumber, groups[k], rows, |groups[k].closed|)
  {
    hide ClosedActions;
    if n > 0 {
      DuplicateMembers(byNumber, groups, rows, n - 1, a);
    }
  }

  ghost predicate FromSome(groups: seq<DuplicateGroup>, a: CloseAction) {
    a.kept.Some? && exists k :: ClosesFor(groups, k, a.pr, a.kept.value) && groups[k].reason == a.reason
  }

  lemma PlannedForGroup(left: seq<CandidatePr>, groups: seq<DuplicateGroup>, rows: seq<Row>, p: CandidatePr,
                        a: CloseAction)
    requires Distinct(left) && p in left && a.pr == p.number
    ensures a in DuplicateActions(LastOf(left, |left|), groups, rows, |groups|) <==>
            a.head == p.head && !AlreadySubmitted(rows, a) && FromSome(groups, a)
  {
    hide AlreadySubmitted, ClosedActions, DuplicateActions, LastOf, Distinct;
    var byNumber := LastOf(left, |left|);
    var i :| 0 <= i < |left| && left[i] == p;
    LastOfHas(left, |left|, i);
    DuplicateMembers(byNumber, groups, rows, |groups|, a);
    forall k | 0 <= k < |groups|
      ensures a in ClosedActions(byNumber, groups[k], rows, |groups[k].closed|) <==>
              a.head == p.head && !AlreadySubmitted(rows, a) && a.kept.Some?
                && ClosesFor(groups, k, a.pr, a.kept.value) && groups[k].reason == a.reason
    {
      ClosedMembers(byNumber, groups[k], rows, |groups[k].closed|, a);
      assert groups[k].closed[..|groups[k].closed|] == groups[k].closed;
    }
  }

  lemma FromEither(left: seq<CandidatePr>, patches: map<int, string>, a: CloseAction)
    ensures var branches := GroupsBy(left, BranchTag, SameBranch);
            FromSome(GroupDuplicates(left, patches), a) <==>
            FromSome(branches, a) || FromSome(GroupsBy(left, PatchTag(patches, Covered(branches)), SameDiff), a)
  {
    hide GroupsBy, Covered;
    var branches := GroupsBy(left, BranchTag, SameBranch);
    var diffs := GroupsBy(left, PatchTag(patches, Covered(branches)), SameDiff);
    var groups := GroupDuplicates(left, patches);
    if a.kept.Some? {
      if k :| ClosesFor(diffs, k, a.pr, a.kept.value) && diffs[k].reason == a.reason {
        assert ClosesFor(groups, k + |branches|, a.pr, a.kept.value);
      }
      if k :| ClosesFor(branches, k, a.pr, a.kept.value) && branches[k].reason == a.reason {
        assert ClosesFor(groups, k, a.pr, a.kept.value);
      }
      if k :| ClosesFor(groups, k, a.pr, a.kept.value) && groups[k].reason == a.reason {
        assert k < |branches| ==> ClosesFor(branches, k, a.pr, a.kept.value);
        assert k >= |branches| ==> ClosesFor(diffs, k - |branches|, a.pr, a.kept.value);
      }
    }
  }

  /** The exact plan: it holds `a` if and only if `a` closes an open PR, no draft, at its head, for
      the first way git shows it landed or for the largest PR left that shares its branch or, where
      both have a branch of their own, its patch, and that very closing was not submitted before. */
  lemma PlannedExactlyWhen(prs: seq<CandidatePr>, facts: map<int, GitFacts>, patches: map<int, string>, rows: seq<Row>,
                           p: CandidatePr, a: CloseAction)
    requires Distinct(prs) && p in prs && a.pr == p.number
    ensures a in PlanClosings(prs, facts, patches, rows) <==>
            && p.isOpen && !p.isDraft && a.head == p.head && !WasSubmitted(rows, a)
            && (IsLanding(facts, p, a) || IsDuplicate(prs, facts, patches, p, a))
  {
    SubmittedExactlyWhen(rows, a);
    LandedExactly(prs, facts, rows, p, a);
    var left := Left(prs, facts);
    LeftMembers(prs, facts, p);
    hide WasSubmitted, AlreadySubmitted, LandedActions, DuplicateActions, Left, GroupDuplicates, LastOf, Distinct;
    if p in left {
      DuplicateExactly(prs, facts, patches, rows, p, a);
    } else {
      forall q | q in left
        ensures q.number != a.pr
      {
        LeftMembers(prs, facts, q);
        if q.number == p.number { SameNumberSamePr(prs, p, q); }
      }
      NotLeftIsNoDuplicate(prs, facts, patches, rows, a);
    }
    PlanParts(prs, facts, patches, rows);
  }

  lemma PlanParts(prs: seq<CandidatePr>, facts: map<int, GitFacts>, patches: map<int, string>, rows: seq<Row>)
    ensures var left := Left(prs, facts);
            var groups := GroupDuplicates(left, patches);
            PlanClosings(prs, facts, patches, rows) == LandedActions(prs, facts, rows, |prs|)
              + DuplicateActions(LastOf(left, |left|), groups, rows, |groups|)
  {
  }

  lemma LandedExactly(prs: seq<CandidatePr>, facts: map<int, GitFacts>, rows: seq<Row>, p: CandidatePr, a: CloseAction)
    requires Distinct(prs) && p in prs && a.pr == p.number
    ensures a in LandedActions(prs, facts, rows, |prs|) <==>
            p.isOpen && !p.isDraft && a.head == p.head && !AlreadySubmitted(rows, a) && IsLanding(facts, p, a)
  {
    hide AlreadySubmitted, LandedActions;
    var i :| 0 <= i < |prs| && prs[i] == p;
    LandedActionsOf(prs, facts, rows, |prs|, i, a);
  }

  lemma FromTagExactly(left: seq<CandidatePr>, of: CandidatePr -> string, reason: Reason, p: CandidatePr,
                       a: CloseAction)
    requires Distinct(left) && p in left && a.pr == p.number
    ensures FromSome(GroupsBy(left, of, reason), a) <==>
            a.kept.Some? && a.reason == reason && exists q :: IsTop(left, of, p, q) && q.number == a.kept.value
  {
    hide GroupsBy, Distinct, IsTop, ClosesFor;
    if a.kept.Some? { ClosedExactlyBelowTop(left, of, reason, p, a.kept.value); }
  }

  lemma IsDuplicateExactlyWhen(prs: seq<CandidatePr>, facts: map<int, GitFacts>, patches: map<int, string>,
                               p: CandidatePr, a: CloseAction)
    requires Distinct(prs) && IsLeft(prs, facts, p) && a.pr == p.number
    ensures FromSome(GroupDuplicates(Left(prs, facts), patches), a) <==> IsDuplicate(prs, facts, patches, p, a)
  {
    LeftIsDistinct(prs, facts);
    LeftMembers(prs, facts, p);
    hide Left, GroupDuplicates, Distinct, GroupsBy, Covered, IsTop, IsBranchTop, IsPatchTop, FromSome;
    var left := Left(prs, facts);
    var branches := GroupsBy(left, BranchTag, SameBranch);
    var of := PatchTag(patches, Covered(branches));
    FromEither(left, patches, a);
    FromTagExactly(left, BranchTag, SameBranch, p, a);
    FromTagExactly(left, of, SameDiff, p, a);
    forall q
      ensures IsTop(left, BranchTag, p, q) <==> IsBranchTop(prs, facts, p, q)
      ensures IsTop(left, of, p, q) <==> IsPatchTop(prs, facts, patches, p, q)
    {
      BranchTops(prs, facts, p, q);
      PatchTops(prs, facts, patches, p, q);
    }
  }

  lemma DuplicateExactly(prs: seq<CandidatePr>, facts: map<int, GitFacts>, patches: map<int, string>, rows: seq<Row>,
                         p: CandidatePr, a: CloseAction)
    requires Distinct(prs) && IsLeft(prs, facts, p) && a.pr == p.number
    ensures var left := Left(prs, facts);
            var groups := GroupDuplicates(left, patches);
            a in DuplicateActions(LastOf(left, |left|), groups, rows, |groups|) <==>
            a.head == p.head && !AlreadySubmitted(rows, a) && IsDuplicate(prs, facts, patches, p, a)
  {
    LeftIsDistinct(prs, facts);
    LeftMembers(prs, facts, p);
    hide AlreadySubmitted, DuplicateActions, Left, GroupDuplicates, LastOf, Distinct, IsDuplicate, FromSome;
    PlannedForGroup(Left(prs, facts), GroupDuplicates(Left(prs, facts), patches), rows, p, a);
    IsDuplicateExactlyWhen(prs, facts, patches, p, a);
  }

  lemma NotLeftIsNoDuplicate(prs: seq<CandidatePr>, facts: map<int, GitFacts>, patches: map<int, string>,
                             rows: seq<Row>, a: CloseAction)
    requires Distinct(prs) && forall p :: p in Left(prs, facts) ==> p.number != a.pr
    ensures var left := Left(prs, facts);
            var groups := GroupDuplicates(left, patches);
            a !in DuplicateActions(LastOf(left, |left|), groups, rows, |groups|)
  {
    RemainingIsDistinct(prs, LandedNumbers(prs, facts), |prs|);
    hide LandedNumbers, Remaining, GroupDuplicates, DuplicateActions, LastOf, MembersOf;
    var left := Left(prs, facts);
    var groups, byNumber := GroupDuplicates(left, patches), LastOf(left, |left|);
    var actions := DuplicateActions(byNumber, groups, rows, |groups|);
    if i :| 0 <= i < |actions| && actions[i] == a {
      var k := DuplicateActionsClose(byNumber, groups, rows, |groups|, i);
      MemberOf(groups[k], a.pr);
      MembersAreRemaining(left, patches, k, a.pr);
      var j :| 0 <= j < |left| && left[j].number == a.pr;
      assert left[j] in left;
    }
  }
}
