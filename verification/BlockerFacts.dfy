/** What the facts of a stack say, field by field: what blocks a PR and in which order, which PR is
    the bottom, and which failing checks the ledger excuses. */
module BlockerFacts {
  import opened Wrappers
  import opened LedgerModel
  import opened StackFactsModel

  // ----- what blocks a PR -----

  /** Somebody besides bots and the owner wrote in the thread, or nobody is known to have. */
  predicate IsHumans(t: ReviewThread) {
    t.authors == {} || exists a :: a in t.authors
                                   && a !in {"coderabbitai", "coderabbitai[bot]", "cursor", "cursor[bot]", "EdbertChan"}
  }

  ghost predicate BlocksAsThread(pr: PrSnapshot, t: ReviewThread, b: Blocker) {
    && !t.isResolved && b.key == t.id && b.pr == pr.number && b.detail == ThreadOpen(b.kind, t.id)
    && b.kind == (if IsHumans(t) then HumanThread else if t.isOutdated then OutdatedBotThread else BotThread)
  }

  /** A check blocks while it fails or is unfinished, and where it is required on a PR on trunk and
      GitHub does not report it, unless only the merge queue runs it. */
  ghost predicate BlocksAsCheck(pr: PrSnapshot, required: set<string>, trunk: string, b: Blocker) {
    && (if required == {} then b.key in pr.checks else b.key in required) && b.pr == pr.number
    && if b.key in pr.checks then
         match pr.checks[b.key].state
         case Failing => b.kind == FailedCheck && b.detail == CheckFailed(b.key)
         case PendingCheck => b.kind == PendingCheckBlocker && b.detail == CheckNotGreen(b.key, PendingCheck)
         case UnknownCheck => b.kind == PendingCheckBlocker && b.detail == CheckNotGreen(b.key, UnknownCheck)
         case _ => false
       else
         && required != {} && pr.base == trunk && !("required-fast / " <= b.key)
         && b.kind == MissingCheck && b.detail == MissingRequired(b.key)
  }

  /** What blocks a PR, before anything is excused. */
  ghost predicate Blocks(pr: PrSnapshot, required: set<string>, trunk: string, b: Blocker) {
    if pr.state == MERGED then b == Blocker("merged", MergedBlocker, pr.number, StateIs(MERGED))
    else if pr.state != OPEN then b == Blocker("closed", Closed, pr.number, StateIs(pr.state))
    else if pr.isDraft then b == Blocker("draft", Draft, pr.number, IsDraft)
    else
      || (MergeHold in pr.labels && b == Blocker("merge-hold", MergeHoldBlocker, pr.number, HoldLabel))
      || (exists i :: 0 <= i < |pr.threads| && BlocksAsThread(pr, pr.threads[i], b))
      || ((pr.dirty || pr.mergeable == CONFLICTING) && b == Blocker("conflict", Conflict, pr.number, GitHubConflict))
      || BlocksAsCheck(pr, required, trunk, b)
  }

  lemma ThreadKindByAuthors(t: ReviewThread)
    ensures ThreadKind(t) == if IsHumans(t) then HumanThread else if t.isOutdated then OutdatedBotThread else BotThread
  {
    var others := t.authors - BOT_OR_SELF_AUTHORS;
    if others != {} {
      var a :| a in others;
    } else {
      assert forall a :: a in t.authors ==> a !in others;
    }
  }

  lemma {:induction false} ThreadsBlock(pr: PrSnapshot, n: nat, b: Blocker)
    requires n <= |pr.threads|
    ensures b in ThreadBlockers(pr, n) <==> exists i :: 0 <= i < n && BlocksAsThread(pr, pr.threads[i], b)
  {
    if n > 0 {
      ThreadsBlock(pr, n - 1, b);
      ThreadKindByAuthors(pr.threads[n - 1]);
      hide ThreadKind, IsHumans;
    }
  }

  lemma CheckBlocks(pr: PrSnapshot, required: set<string>, trunk: string, name: string, b: Blocker)
    requires name in RelevantChecks(pr, required)
    ensures CheckBlocker(pr, name, required != {}, trunk) == Some(b) <==>
            b.key == name && BlocksAsCheck(pr, required, trunk, b)
  {
  }

  lemma ChecksBlock(pr: PrSnapshot, required: set<string>, trunk: string, b: Blocker)
    ensures var names := CheckNames(pr, required);
            b in CheckBlockers(pr, names, |names|, required != {}, trunk) <==> BlocksAsCheck(pr, required, trunk, b)
  {
    var names := CheckNames(pr, required);
    assert forall n :: n in names <==> n in RelevantChecks(pr, required);
    assert names[..|names|] == names;
    hide CheckNames, RelevantChecks, CheckBlocker;
    MissingIsNeverQueueOnly(pr, names, |names|, required != {}, trunk);
    if b in CheckBlockers(pr, names, |names|, required != {}, trunk) {
      CheckBlocks(pr, required, trunk, b.key, b);
    }
    if BlocksAsCheck(pr, required, trunk, b) {
      IsRelevant(pr, required, trunk, b);
      var k :| 0 <= k < |names| && names[k] == b.key;
      CheckBlocks(pr, required, trunk, b.key, b);
    }
  }

  lemma IsRelevant(pr: PrSnapshot, required: set<string>, trunk: string, b: Blocker)
    requires BlocksAsCheck(pr, required, trunk, b)
    ensures b.key in RelevantChecks(pr, required)
  {
  }

  /** The blockers `classify_pr` lists are exactly those. */
  lemma ClassifiedExactlyWhen(pr: PrSnapshot, required: set<string>, trunk: string, b: Blocker)
    ensures b in Classify(pr, required, trunk) <==> Blocks(pr, required, trunk, b)
  {
    hide CheckNames, BlocksAsCheck, BlocksAsThread;
    ThreadsBlock(pr, |pr.threads|, b);
    ChecksBlock(pr, required, trunk, b);
  }

  // ----- what is excused -----

  /** A failing check the ledger suppresses, or a missing one that Mergify's event for this very head
      reports as passed. */
  ghost predicate IsExcused(pr: PrSnapshot, suppressed: seq<string>, b: Blocker) {
    || (b.kind == FailedCheck && b.key in suppressed)
    || (b.kind == MissingCheck && pr.latest.Some? && pr.latest.value.headSha == pr.head
        && b.key in pr.latest.value.conditions && pr.latest.value.conditions[b.key])
  }

  lemma {:induction false} EffectiveMembers(pr: PrSnapshot, blockers: seq<Blocker>, n: nat, suppressed: seq<string>,
                                            b: Blocker)
    requires n <= |blockers| && forall i :: 0 <= i < |blockers| && blockers[i].kind == MissingCheck ==>
                                  !("required-fast / " <= blockers[i].key)
    ensures b in Effective(pr, blockers, n, suppressed) <==> b in blockers[..n] && !IsExcused(pr, suppressed, b)
  {
    if n > 0 {
      EffectiveMembers(pr, blockers, n - 1, suppressed, b);
      assert blockers[..n] == blockers[..n - 1] + [blockers[n - 1]];
    }
  }

  lemma MissingIsOrdinary(pr: PrSnapshot, required: set<string>, trunk: string, b: Blocker)
    requires Blocks(pr, required, trunk, b) && b.kind == MissingCheck
    ensures !("required-fast / " <= b.key)
  {
  }

  /** What blocks a PR in the end: what the snapshot says, less what is excused. */
  lemma EffectiveExactlyWhen(pr: PrSnapshot, required: set<string>, trunk: string, suppressed: seq<string>, b: Blocker)
    ensures b in EffectiveBlockers(pr, required, trunk, suppressed) <==>
            Blocks(pr, required, trunk, b) && !IsExcused(pr, suppressed, b)
  {
    var raw := Classify(pr, required, trunk);
    ClassifiedExactlyWhen(pr, required, trunk, b);
    hide Classify, Blocks, IsExcused;
    forall i | 0 <= i < |raw| && raw[i].kind == MissingCheck
      ensures !("required-fast / " <= raw[i].key)
    {
      ClassifiedExactlyWhen(pr, required, trunk, raw[i]);
      MissingIsOrdinary(pr, required, trunk, raw[i]);
    }
    EffectiveMembers(pr, raw, |raw|, suppressed, b);
    assert raw[..|raw|] == raw;
  }

  // ----- the order of blockers -----

  /** Holds before threads before the conflict before checks. */
  function Rank(k: BlockerKind): nat {
    match k
    case HumanThread => 1
    case BotThread => 1
    case OutdatedBotThread => 1
    case Conflict => 2
    case MissingCheck => 3
    case FailedCheck => 3
    case PendingCheckBlocker => 3
    case _ => 0
  }

  ghost predicate InOrder(blockers: seq<Blocker>) {
    forall i, j :: 0 <= i < j < |blockers| ==>
      && Rank(blockers[i].kind) <= Rank(blockers[j].kind)
      && (Rank(blockers[i].kind) == 3 ==> Text.Before(blockers[i].key, blockers[j].key))
  }

  lemma {:induction false} ThreadRanks(pr: PrSnapshot, n: nat)
    requires n <= |pr.threads|
    ensures forall i :: 0 <= i < |ThreadBlockers(pr, n)| ==> Rank(ThreadBlockers(pr, n)[i].kind) == 1
  {
    if n > 0 { ThreadRanks(pr, n - 1); }
  }

  lemma {:induction false} ChecksInOrder(pr: PrSnapshot, names: seq<string>, n: nat, configured: bool, trunk: string)
    requires n <= |names| && forall i, j :: 0 <= i < j < |names| ==> Text.Before(names[i], names[j])
    ensures var c := CheckBlockers(pr, names, n, configured, trunk);
            && InOrder(c) && (forall i :: 0 <= i < |c| ==> Rank(c[i].kind) == 3 && c[i].key in names[..n])
  {
    if n > 0 {
      ChecksInOrder(pr, names, n - 1, configured, trunk);
      assert names[..n] == names[..n - 1] + [names[n - 1]];
    }
  }

  ghost predicate RankedWithin(blockers: seq<Blocker>, low: nat, high: nat) {
    forall i :: 0 <= i < |blockers| ==> low <= Rank(blockers[i].kind) <= high
  }

  lemma OrderedParts(a: seq<Blocker>, b: seq<Blocker>, high: nat)
    requires InOrder(a) && InOrder(b) && 0 < high && RankedWithin(a, 0, high - 1) && RankedWithin(b, high, high)
    ensures InOrder(a + b) && RankedWithin(a + b, 0, high)
  {
  }

  /** The blockers of a PR are listed holds first, then threads as GitHub lists them, then the conflict,
      then the checks by name. */
  lemma ClassifiedInOrder(pr: PrSnapshot, required: set<string>, trunk: string)
    ensures InOrder(Classify(pr, required, trunk))
  {
    if pr.state == OPEN && !pr.isDraft {
      var names := CheckNames(pr, required);
      assert forall i, j :: 0 <= i < j < |names| ==> Text.Before(names[i], names[j]);
      hide CheckNames, HasConflict, InOrder, RankedWithin, CheckBlockers, ThreadBlockers;
      var hold := if MergeHold in pr.labels then [Blocker("merge-hold", MergeHoldBlocker, pr.number, HoldLabel)]
      else [];
      var conflict := if HasConflict(pr) then [Blocker("conflict", Conflict, pr.number, GitHubConflict)] else [];
      var checks := CheckBlockers(pr, names, |names|, required != {}, trunk);
      assert Classify(pr, required, trunk) == hold + ThreadBlockers(pr, |pr.threads|) + conflict + checks;
      ThreadsAreRanked(pr);
      ChecksAreRanked(pr, names, required != {}, trunk);
      FewInOrder(hold, 0);
      FewInOrder(conflict, 2);
      hide Classify;
      OrderedParts(hold, ThreadBlockers(pr, |pr.threads|), 1);
      OrderedParts(hold + ThreadBlockers(pr, |pr.threads|), conflict, 2);
      OrderedParts(hold + ThreadBlockers(pr, |pr.threads|) + conflict, checks, 3);
    }
  }

  lemma FewInOrder(blockers: seq<Blocker>, rank: nat)
    requires |blockers| <= 1 && (blockers != [] ==> Rank(blockers[0].kind) == rank)
    ensures InOrder(blockers) && RankedWithin(blockers, rank, rank)
  {
  }

  lemma ThreadsAreRanked(pr: PrSnapshot)
    ensures InOrder(ThreadBlockers(pr, |pr.threads|)) && RankedWithin(ThreadBlockers(pr, |pr.threads|), 1, 1)
  {
    ThreadRanks(pr, |pr.threads|);
  }

  lemma ChecksAreRanked(pr: PrSnapshot, names: seq<string>, configured: bool, trunk: string)
    requires forall i, j :: 0 <= i < j < |names| ==> Text.Before(names[i], names[j])
    ensures var c := CheckBlockers(pr, names, |names|, configured, trunk);
            InOrder(c) && RankedWithin(c, 3, 3)
  {
    ChecksInOrder(pr, names, |names|, configured, trunk);
    hide InOrder;
  }

  // ----- what a human has to decide -----

  /** No repair of the blocker can work, or somebody asked for a manual split instead. */
  ghost predicate NeedsHuman(rows: seq<Row>, pr: PrSnapshot, b: Blocker) {
    match b.kind
    case FailedCheck => DeclaredInvalid(rows, pr, b.key) || exists i :: IsFirstSplit(pr, b.key, i)
    case BotThread => DeclaredInvalid(rows, pr, b.key)
    case Conflict => DeclaredInvalid(rows, pr, "conflict")
                     || DeclaredInvalid(rows, pr, "conflict:" + Text.Decimal(pr.number))
    case _ => false
  }

  /** A row that declares a repair of the blocker invalid: under its own key, a conflict also under the
      older one. */
  ghost predicate DeclaresFor(r: Row, pr: PrSnapshot, b: Blocker) {
    && r.kind == RepairInvalid && r.pr == pr.number && r.head == pr.head
    && if b.kind == Conflict then r.key == "conflict" || r.key == "conflict:" + Text.Decimal(pr.number)
       else r.key == b.key
  }

  /** Error lines without the blank ones. */
  function WithoutBlanks(lines: seq<string>): seq<string> {
    if lines == [] then []
    else WithoutBlanks(lines[..|lines| - 1]) + if lines[|lines| - 1] == "" then [] else [lines[|lines| - 1]]
  }

  lemma {:induction false} BlanksInFront(line: string, lines: seq<string>)
    ensures WithoutBlanks([line] + lines) == (if line == "" then [] else [line]) + WithoutBlanks(lines)
  {
    if lines == [] {
      assert [line] + lines == [line];
    } else {
      BlanksInFront(line, lines[..|lines| - 1]);
      assert ([line] + lines)[..|lines|] == [line] + lines[..|lines| - 1];
    }
  }

  lemma {:induction false} NonEmptyIsWithoutBlanks(lines: seq<string>)
    ensures NonEmpty(lines) == WithoutBlanks(lines)
  {
    if lines != [] {
      NonEmptyIsWithoutBlanks(lines[1..]);
      BlanksInFront(lines[0], lines[1..]);
      assert lines == [lines[0]] + lines[1..];
    }
  }

  lemma InvalidRowIsNewest(rows: seq<Row>, pr: PrSnapshot, b: Blocker) returns (at: int)
    requires LatestInvalidRow(rows, pr, b).Some?
    ensures 0 <= at < |rows| && rows[at] == LatestInvalidRow(rows, pr, b).value && DeclaresFor(rows[at], pr, b)
    ensures forall k :: 0 <= k < |rows| && DeclaresFor(rows[k], pr, b) ==> rows[k].epoch <= rows[at].epoch
    ensures forall k :: 0 <= k < |rows| && DeclaresFor(rows[k], pr, b) && rows[k].epoch == rows[at].epoch ==>
              k <= at || (b.kind == Conflict && rows[k].key == "conflict" != rows[at].key)
  {
    var own := LatestPosition(rows, Exact(RepairInvalid, pr.number, pr.head, b.key));
    var conflict := LatestPosition(rows, Exact(RepairInvalid, pr.number, pr.head, "conflict"));
    var older := LatestPosition(rows, Exact(RepairInvalid, pr.number, pr.head, LegacyConflictKey(pr.number)));
    at := if b.kind != Conflict then own
    else if LatestInvalidRow(rows, pr, b) == InvalidRow(rows, pr, LegacyConflictKey(pr.number)) then older
    else conflict;
    hide Latest;
  }

  /** What the human is told about a repair that cannot work: the error lines of the newest row that
      says so, or where it has none, what blocked the PR. Of rows equally new the last one counts, and
      one under the older conflict key before the others. */
  lemma InvalidSaysWhy(rows: seq<Row>, pr: PrSnapshot, b: Blocker) returns (at: int)
    requires b.kind in {FailedCheck, BotThread, Conflict} && exists k :: 0 <= k < |rows| && DeclaresFor(rows[k], pr, b)
    ensures 0 <= at < |rows| && DeclaresFor(rows[at], pr, b)
    ensures forall k :: 0 <= k < |rows| && DeclaresFor(rows[k], pr, b) ==> rows[k].epoch <= rows[at].epoch
    ensures forall k :: 0 <= k < |rows| && DeclaresFor(rows[k], pr, b) && rows[k].epoch == rows[at].epoch ==>
              k <= at || (b.kind == Conflict && rows[k].key == "conflict" != rows[at].key)
    ensures var errors := if rows[at].meta.errors.Some? then rows[at].meta.errors.value else [];
            Resolved(rows, pr, b).detail ==
            if exists line :: line in errors && line != "" then Lines(WithoutBlanks(errors)) else b.detail
  {
    var k :| 0 <= k < |rows| && DeclaresFor(rows[k], pr, b);
    LatestByFields(rows, RepairInvalid, pr.number, pr.head, rows[k].key);
    assert InvalidRow(rows, pr, rows[k].key).Some?;
    at := InvalidRowIsNewest(rows, pr, b);
    var errors := if rows[at].meta.errors.Some? then rows[at].meta.errors.value else [];
    NonEmptyIsWithoutBlanks(errors);
    BlankExactlyWhen(errors);
    hide Latest, LatestInvalidRow, DeclaresFor, NonEmpty, WithoutBlanks;
  }

  lemma {:induction false} BlankExactlyWhen(lines: seq<string>)
    ensures WithoutBlanks(lines) != [] <==> exists line :: line in lines && line != ""
  {
    if lines != [] {
      var init, last := lines[..|lines| - 1], lines[|lines| - 1];
      BlankExactlyWhen(init);
      assert lines == init + [last];
      if line :| line in init && line != "" { assert line in lines; }
      if last != "" { assert last in lines; }
      if line :| line in lines && line != "" { assert line in init || line == last; }
    }
  }

  ghost predicate BlocksNow(pr: PrSnapshot, required: set<string>, trunk: string, suppressed: seq<string>, b: Blocker) {
    Blocks(pr, required, trunk, b) && !IsExcused(pr, suppressed, b)
  }

  lemma BlocksAsItself(pr: PrSnapshot, required: set<string>, trunk: string, b: Blocker)
    requires Blocks(pr, required, trunk, b)
    ensures b.kind != HumanDecision
  {
  }

  /** Mergify's dequeue of this head names a check whose repair was declared invalid, and no blocker
      has that check's name. */
  ghost predicate QueueNeedsHuman(rows: seq<Row>, pr: PrSnapshot, required: set<string>, trunk: string,
                                  suppressed: seq<string>, name: string) {
    && pr.latest.Some? && pr.latest.value.state == DequeuedState && pr.latest.value.headSha == pr.head
    && name in pr.latest.value.failingChecks && name !in suppressed && DeclaredInvalid(rows, pr, name)
    && forall b :: BlocksNow(pr, required, trunk, suppressed, b) ==> b.key != name
  }

  lemma {:induction false} KeysAreListed(blockers: seq<Blocker>, n: nat, key: string)
    requires n <= |blockers|
    ensures key in KeysOf(blockers, n) <==> exists i :: 0 <= i < n && blockers[i].key == key
  {
    if n > 0 { KeysAreListed(blockers, n - 1, key); }
  }

  lemma {:induction false} QueueInvalidMembers(rows: seq<Row>, pr: PrSnapshot, names: seq<string>, n: nat,
                                               suppressed: seq<string>, known: set<string>)
    requires n <= |names|
    ensures QueueInvalid(rows, pr, names, n, suppressed, known) != [] <==>
            exists i :: 0 <= i < n && names[i] !in suppressed && InvalidRow(rows, pr, names[i]).Some?
                        && names[i] !in known
    ensures forall i :: 0 <= i < |QueueInvalid(rows, pr, names, n, suppressed, known)| ==>
              QueueInvalid(rows, pr, names, n, suppressed, known)[i].kind == HumanDecision
  {
    if n > 0 {
      QueueInvalidMembers(rows, pr, names, n - 1, suppressed, known);
      hide InvalidRow;
    }
  }

  lemma OwnKeys(rows: seq<Row>, pr: PrSnapshot, required: set<string>, trunk: string, suppressed: seq<string>,
                key: string)
    ensures var own := ResolveAll(rows, pr, EffectiveBlockers(pr, required, trunk, suppressed));
            key in KeysOf(own, |own|) <==> exists b :: BlocksNow(pr, required, trunk, suppressed, b) && b.key == key
  {
    var effective := EffectiveBlockers(pr, required, trunk, suppressed);
    var own := ResolveAll(rows, pr, effective);
    KeysAreListed(own, |own|, key);
    hide KeysOf, EffectiveBlockers, Resolved;
    forall i | 0 <= i < |own|
      ensures own[i].key == effective[i].key && BlocksNow(pr, required, trunk, suppressed, effective[i])
    {
      EffectiveExactlyWhen(pr, required, trunk, suppressed, effective[i]);
      BlocksAsItself(pr, required, trunk, effective[i]);
      ResolvedExactlyWhen(rows, pr, effective[i]);
    }
    if b :| BlocksNow(pr, required, trunk, suppressed, b) && b.key == key {
      EffectiveExactlyWhen(pr, required, trunk, suppressed, b);
      var i :| 0 <= i < |effective| && effective[i] == b;
      assert own[i].key == key;
    }
  }

  lemma OwnDisputes(rows: seq<Row>, pr: PrSnapshot, required: set<string>, trunk: string, suppressed: seq<string>)
    ensures var own := ResolveAll(rows, pr, EffectiveBlockers(pr, required, trunk, suppressed));
            (exists i :: 0 <= i < |own| && own[i].kind == HumanDecision) <==>
            exists b :: BlocksNow(pr, required, trunk, suppressed, b) && NeedsHuman(rows, pr, b)
  {
    var effective := EffectiveBlockers(pr, required, trunk, suppressed);
    var own := ResolveAll(rows, pr, effective);
    hide EffectiveBlockers, Resolved, Blocks, IsExcused, DeclaredInvalid;
    forall i | 0 <= i < |own|
      ensures BlocksNow(pr, required, trunk, suppressed, effective[i])
      ensures own[i].kind == HumanDecision <==> NeedsHuman(rows, pr, effective[i])
    {
      EffectiveExactlyWhen(pr, required, trunk, suppressed, effective[i]);
      BlocksAsItself(pr, required, trunk, effective[i]);
      ResolvedExactlyWhen(rows, pr, effective[i]);
    }
    if b :| BlocksNow(pr, required, trunk, suppressed, b) && NeedsHuman(rows, pr, b) {
      EffectiveExactlyWhen(pr, required, trunk, suppressed, b);
      var i :| 0 <= i < |effective| && effective[i] == b;
      assert own[i].kind == HumanDecision;
    }
  }

  /** A human has to decide about a PR, and the planner leaves it alone, exactly when a blocker of it
      cannot be repaired, or a check only the queue reports cannot. */
  lemma DisputedExactlyWhen(rows: seq<Row>, pr: PrSnapshot, required: set<string>, trunk: string,
                            suppressed: seq<string>)
    ensures var blockers := BlockersOf(rows, pr, required, trunk, suppressed);
            (exists j :: 0 <= j < |blockers| && blockers[j].kind == HumanDecision) <==>
            || (exists b :: BlocksNow(pr, required, trunk, suppressed, b) && NeedsHuman(rows, pr, b))
            || (exists name :: QueueNeedsHuman(rows, pr, required, trunk, suppressed, name))
  {
    var blockers := BlockersOf(rows, pr, required, trunk, suppressed);
    var own := ResolveAll(rows, pr, EffectiveBlockers(pr, required, trunk, suppressed));
    OwnDisputes(rows, pr, required, trunk, suppressed);
    hide EffectiveBlockers, Resolved, Blocks, IsExcused, DeclaredInvalid, NeedsHuman, BlocksNow;
    assert forall i :: 0 <= i < |own| ==> blockers[i] == own[i];
    if DequeuedAtHead(pr) {
      var names := pr.latest.value.failingChecks;
      var more := QueueInvalid(rows, pr, names, |names|, suppressed, KeysOf(own, |own|));
      QueueInvalidMembers(rows, pr, names, |names|, suppressed, KeysOf(own, |own|));
      assert blockers == own + more && forall i :: 0 <= i < |more| ==> blockers[|own| + i] == more[i];
      hide QueueInvalid, InvalidRow, KeysOf;
      forall i | 0 <= i < |names|
        ensures QueueNeedsHuman(rows, pr, required, trunk, suppressed, names[i]) <==>
                names[i] !in suppressed && InvalidRow(rows, pr, names[i]).Some? && names[i] !in KeysOf(own, |own|)
      {
        InvalidIsDeclared(rows, pr, names[i]);
        OwnKeys(rows, pr, required, trunk, suppressed, names[i]);
      }
      if name :| QueueNeedsHuman(rows, pr, required, trunk, suppressed, name) {
        var i :| 0 <= i < |names| && names[i] == name;
        assert QueueNeedsHuman(rows, pr, required, trunk, suppressed, names[i]);
        assert more != [] && blockers[|own|] == more[0];
      }
    }
  }

  // ----- the bottom, and who else owns its base -----

  ghost predicate IsBottomAt(prs: seq<PrSnapshot>, trunk: string, i: int) {
    && 0 <= i < |prs| && prs[i].state == OPEN && prs[i].base == trunk
    && forall k :: 0 <= k < i ==> !(prs[k].state == OPEN && prs[k].base == trunk)
  }

  lemma {:induction false} BottomIsFirstOnTrunk(prs: seq<PrSnapshot>, trunk: string)
    ensures CurrentBottomPr(prs, trunk).None? <==>
            forall i :: 0 <= i < |prs| ==> !(prs[i].state == OPEN && prs[i].base == trunk)
    ensures forall i :: IsBottomAt(prs, trunk, i) ==> CurrentBottomPr(prs, trunk) == Some(prs[i])
  {
    if prs != [] {
      BottomIsFirstOnTrunk(prs[1..], trunk);
      assert forall i :: 0 < i < |prs| ==> prs[i] == prs[1..][i - 1];
      if !(prs[0].state == OPEN && prs[0].base == trunk) {
        assert forall i :: IsBottomAt(prs, trunk, i) ==> IsBottomAt(prs[1..], trunk, i - 1);
      }
    }
  }

  /** A stack has a bottom exactly when one of its PRs is open on trunk, and it is the first such.
      Without one it waits on whoever outside the stack is open on the base of its root. */
  lemma TopologyExactlyWhen(prs: seq<PrSnapshot>, trunk: string, openByHead: map<string, set<int>>)
    requires prs != []
    ensures var t := ClassifyTopology(prs, trunk, openByHead);
            && t.root == prs[0]
            && (t.kind == CurrentBottom <==> exists i :: 0 <= i < |prs| && prs[i].state == OPEN && prs[i].base == trunk)
            && (forall i :: IsBottomAt(prs, trunk, i) ==> t.bottom == Some(prs[i]))
            && (t.kind == ExternalOpenBase <==> t.kind != CurrentBottom && exists x :: OwnsBase(prs, openByHead, x))
            && (t.kind != CurrentBottom ==> t.bottom.None? && forall x :: x in t.owners <==>
                                                                OwnsBase(prs, openByHead, x))
  {
    BottomIsFirstOnTrunk(prs, trunk);
    var t := ClassifyTopology(prs, trunk, openByHead);
    hide CurrentBottomPr, IsBottomAt;
    if t.kind != CurrentBottom {
      var owners := (if prs[0].base in openByHead then openByHead[prs[0].base] else {}) - Numbers(prs);
      assert t.owners == owners && (t.kind == ExternalOpenBase <==> owners != {});
      assert forall x :: x in owners <==> OwnsBase(prs, openByHead, x);
      if prs[0].base in openByHead && !(exists x :: OwnsBase(prs, openByHead, x)) {
        forall x | x in openByHead[prs[0].base]
          ensures x in Numbers(prs)
        {
          assert !OwnsBase(prs, openByHead, x);
        }
        assert openByHead[prs[0].base] <= Numbers(prs);
      }
    }
  }

  /** A PR outside the stack is open on the branch the stack's root is based on. */
  ghost predicate OwnsBase(prs: seq<PrSnapshot>, openByHead: map<string, set<int>>, x: int)
    requires prs != []
  {
    && prs[0].base in openByHead && x in openByHead[prs[0].base]
    && forall i :: 0 <= i < |prs| ==> prs[i].number != x
  }

  // ----- what the ledger excuses -----

  /** A queue-only check was found not to fail: Mergify dequeued this head for it by the admin-bypass
      rule, the newest no-op on the head names it, and no requeue has used that up. */
  lemma NoopExactlyWhen(rows: seq<Row>, pr: PrSnapshot, check: string)
    ensures QueueOnlyNoopCheck(rows, Some(pr)) == Some(check) <==>
            && pr.latest.Some? && pr.latest.value.state == DequeuedState && pr.latest.value.headSha == pr.head
            && pr.latest.value.adminBypassRule && "required-fast / " <= check && check in pr.latest.value.failingChecks
            && (exists at :: IsNewestWhere(rows, (r: Row) => r.kind == QueueOnlyNoop && r.pr == pr.number
                                                            && r.head == pr.head, at) && rows[at].key == check)
            && (forall k :: 0 <= k < |rows| ==> !(rows[k].kind == QueueOnlyRequeue && rows[k].pr == pr.number
                                                 && rows[k].head == pr.head && rows[k].key == check))
  {
    LatestByFields(rows, QueueOnlyNoop, pr.number, pr.head, check);
    LatestByFields(rows, QueueOnlyRequeue, pr.number, pr.head, check);
    var row := Latest(rows, ForHead(QueueOnlyNoop, pr.number, pr.head));
    forall at | IsNewestWhere(rows, (r: Row) => r.kind == QueueOnlyNoop && r.pr == pr.number && r.head == pr.head, at)
      ensures row == Some(rows[at])
    {
      NewestIsUnique(rows, pr, at);
    }
    hide Latest;
  }

  lemma NewestIsUnique(rows: seq<Row>, pr: PrSnapshot, at: int)
    requires IsNewestWhere(rows, (r: Row) => r.kind == QueueOnlyNoop && r.pr == pr.number && r.head == pr.head, at)
    ensures Latest(rows, ForHead(QueueOnlyNoop, pr.number, pr.head)) == Some(rows[at])
  {
    var q := ForHead(QueueOnlyNoop, pr.number, pr.head);
    var best := LatestPosition(rows, q);
    assert Hits(q, rows[at]);
  }

  /** The failing checks the ledger suppresses, and only on the bottom: that of a prerequisite whose
      follow-up is due, the queue-only no-op, and a required "PR Body" found not to need repair. */
  lemma SuppressedExactlyWhen(rows: seq<Row>, prs: seq<PrSnapshot>, required: set<string>, openPrs: set<int>,
                              openByHead: map<string, set<int>>, trunk: string, staleBase: map<int, bool>,
                              pr: PrSnapshot, name: string)
    requires prs != []
    ensures var f := BuildFacts(prs, required, rows, openPrs, openByHead, trunk, staleBase);
            name in SuppressedFor(f.suppressed, pr) <==>
            && f.bottom.Some? && f.bottom.value.number == pr.number
            && (|| (f.prereq.Some? && f.prereq.value.needsFollowup && name == f.prereq.value.checkName)
                || f.queueOnlyNoop == Some(name)
                || (name == "PR Body" && "PR Body" in required
                    && exists k :: 0 <= k < |rows| && rows[k].kind == RepairNoop && rows[k].key == "PR Body"
                                   && rows[k].pr == pr.number && rows[k].head == f.bottom.value.head))
  {
    var f := BuildFacts(prs, required, rows, openPrs, openByHead, trunk, staleBase);
    assert f.suppressed == SuppressionMap(rows, f.bottom, required, f.prereq, f.queueOnlyNoop);
    if f.bottom.Some? {
      NoopIsNamed(rows, f.bottom.value);
      SuppressedNames(rows, f.bottom.value, required, f.prereq, f.queueOnlyNoop, name);
    }
    hide BuildFacts, BottomSuppressions;
  }

  lemma SuppressedNames(rows: seq<Row>, bottom: PrSnapshot, required: set<string>, prereq: Option<PrereqStatus>,
                        noop: Option<string>, name: string)
    requires noop != Some("")
    ensures name in BottomSuppressions(rows, bottom, required, prereq, noop) <==>
            || (prereq.Some? && prereq.value.needsFollowup && name == prereq.value.checkName)
            || noop == Some(name)
            || (name == "PR Body" && "PR Body" in required
                && exists k :: 0 <= k < |rows| && rows[k].kind == RepairNoop && rows[k].key == "PR Body"
                               && rows[k].pr == bottom.number && rows[k].head == bottom.head)
  {
    LatestByFields(rows, RepairNoop, bottom.number, bottom.head, "PR Body");
    hide Latest;
  }

  lemma NoopIsNamed(rows: seq<Row>, pr: PrSnapshot)
    ensures QueueOnlyNoopCheck(rows, Some(pr)) != Some("")
  {
  }

  /** The prerequisite of a bottom is the one its head's newest row names; it is open as long as that
      PR is, and its follow-up due as long as no requeue for its check is recorded. */
  lemma PrereqExactlyWhen(rows: seq<Row>, pr: PrSnapshot, openPrs: set<int>)
    ensures var p := PrereqOf(rows, Some(pr), openPrs);
            && (p.None? <==> forall k :: 0 <= k < |rows| ==>
                  !(rows[k].kind == PrereqCreated && rows[k].pr == pr.number && rows[k].head == pr.head))
            && (p.Some? ==>
                  && (exists at :: IsNewestWhere(rows, (r: Row) => r.kind == PrereqCreated && r.pr == pr.number
                                                                  && r.head == pr.head, at)
                                   && p.value.checkName == rows[at].key && p.value.prNumber == rows[at].meta.prNumber
                                   && p.value.branch == rows[at].meta.branch)
                  && (p.value.isOpen <==> p.value.prNumber in openPrs)
                  && (p.value.needsFollowup <==> p.value.checkName != "" && forall k :: 0 <= k < |rows| ==>
                        !(rows[k].kind == PrereqRequeue && rows[k].pr == pr.number && rows[k].head == pr.head
                          && rows[k].key == p.value.checkName)))
  {
    LatestByFields(rows, PrereqCreated, pr.number, pr.head, "");
    var row := Latest(rows, ForHead(PrereqCreated, pr.number, pr.head));
    if row.Some? { LatestByFields(rows, PrereqRequeue, pr.number, pr.head, row.value.key); }
    hide Latest;
  }

  /** The uppers still to be accepted: open, not the bottom, and without the label. */
  lemma AcceptanceExactlyWhen(prs: seq<PrSnapshot>, bottom: Option<PrSnapshot>)
    ensures HasUnacceptedUpper(prs, bottom) <==>
            bottom.Some? && exists pr :: pr in prs && pr.state == OPEN && pr.number != bottom.value.number
                                         && AdminBypass !in pr.labels
  {
    if bottom.Some? {
      if pr :| pr in prs && pr.state == OPEN && pr.number != bottom.value.number && AdminBypass !in pr.labels {
        var i :| 0 <= i < |prs| && prs[i] == pr;
        assert UnacceptedUpper(prs[i], bottom.value);
      }
    }
  }
}
