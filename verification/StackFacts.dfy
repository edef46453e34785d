/** The facts one planning call starts from: the blockers of every PR of a stack, its
    bottom, and what the ledger suppresses or turns into a human decision. */
module StackFactsModel {
  import opened Wrappers
  import opened LedgerModel
  import Text

  // ----- snapshots (fields some decision reads) -----

  datatype PrState = OPEN | MERGED | OtherState(name: string)
  datatype Label = MergeHold | AdminBypass | Queued | Dequeued | OtherLabel(name: string)
  datatype CheckState = Green | Failing | PendingCheck | UnknownCheck | SkippedCheck | CancelledCheck | NeutralCheck
  datatype Mergeable = MERGEABLE | CONFLICTING | MergeableUnknown
  datatype QueueState = QueuedState | MergingState | WaitingState | DequeuedState | UnknownState

  datatype CheckContext = CheckContext(state: CheckState, detailsUrl: string, completedAt: Option<int>)

  datatype ReviewThread = ReviewThread(id: string, isResolved: bool, authors: set<string>, isOutdated: bool)

  /** `conditions` is `dict(condition_states)`, true for "success"; `waitsOnConflict` says that
      some `waiting_for` item mentions a conflict; `queuedAt` is the parsed epoch. */
  datatype QueueEvent = QueueEvent(
    commentId: string,
    state: QueueState,
    adminBypassRule: bool,
    queuedAt: Option<int>,
    headSha: string,
    waitsOnConflict: bool,
    failingChecks: seq<string>,
    failingCheckUrls: seq<(string, seq<string>)>,
    conditions: map<string, bool>)

  /** `splitStop` is the text after the stop prefix when it carries a manual-split marker. */
  datatype StopComment = StopComment(splitStop: Option<string>, updatedAt: Option<int>)

  datatype PrSnapshot = PrSnapshot(
    number: int,
    state: PrState,
    isDraft: bool,
    base: string,
    headRef: string,
    head: string,
    dirty: bool,
    mergeable: Mergeable,
    labels: set<Label>,
    checks: map<string, CheckContext>,
    threads: seq<ReviewThread>,
    latest: Option<QueueEvent>,
    stopComments: seq<StopComment>)

  // ----- blockers -----

  datatype BlockerKind =
    | MergedBlocker | Closed | Draft | MergeHoldBlocker
    | HumanThread | OutdatedBotThread | BotThread
    | Conflict | MissingCheck | FailedCheck | PendingCheckBlocker
    | HumanDecision

  /** The wording of a blocker or action, kept symbolic. */
  datatype Detail =
    | StateIs(state: PrState) | IsDraft | HoldLabel
    | ThreadOpen(kind: BlockerKind, id: string)
    | GitHubConflict
    | MissingRequired(name: string) | CheckFailed(name: string) | CheckNotGreen(name: string, observed: CheckState)
    | QueueCheckFailed(name: string)
    | Lines(lines: seq<string>)
    | BehindMaster
    | CapReached(what: Detail, head: string)
    | Note(text: string)

  datatype Blocker = Blocker(key: string, kind: BlockerKind, pr: int, detail: Detail)

  const BOT_OR_SELF_AUTHORS: set<string> := {"coderabbitai", "coderabbitai[bot]", "cursor", "cursor[bot]", "EdbertChan"}

  const QUEUE_ONLY_PREFIX := "required-fast / "

  predicate IsQueueOnly(name: string) { QUEUE_ONLY_PREFIX <= name }

  predicate HasConflict(pr: PrSnapshot) { pr.dirty || pr.mergeable == CONFLICTING }

  function ThreadKind(t: ReviewThread): BlockerKind {
    if t.authors == {} || t.authors - BOT_OR_SELF_AUTHORS != {} then HumanThread
    else if t.isOutdated then OutdatedBotThread
    else BotThread
  }

  function ThreadBlockers(pr: PrSnapshot, n: nat): seq<Blocker>
    requires n <= |pr.threads|
  {
    if n == 0 then []
    else
      var before, t := ThreadBlockers(pr, n - 1), pr.threads[n - 1];
      if t.isResolved then before
      else before + [Blocker(t.id, ThreadKind(t), pr.number, ThreadOpen(ThreadKind(t), t.id))]
  }

  /** The blocker one check name adds, if any. */
  function CheckBlocker(pr: PrSnapshot, name: string, configured: bool, trunk: string): Option<Blocker> {
    if name !in pr.checks then
      if configured && pr.base == trunk && !IsQueueOnly(name)
      then Some(Blocker(name, MissingCheck, pr.number, MissingRequired(name)))
      else None
    else
      match pr.checks[name].state
      case Failing => Some(Blocker(name, FailedCheck, pr.number, CheckFailed(name)))
      case PendingCheck => Some(Blocker(name, PendingCheckBlocker, pr.number, CheckNotGreen(name, PendingCheck)))
      case UnknownCheck => Some(Blocker(name, PendingCheckBlocker, pr.number, CheckNotGreen(name, UnknownCheck)))
      case _ => None
  }

  function CheckBlockers(pr: PrSnapshot, names: seq<string>, n: nat, configured: bool, trunk: string): seq<Blocker>
    requires n <= |names|
  {
    if n == 0 then []
    else
      var before := CheckBlockers(pr, names, n - 1, configured, trunk);
      var b := CheckBlocker(pr, names[n - 1], configured, trunk);
      if b.Some? then before + [b.value] else before
  }

  function RelevantChecks(pr: PrSnapshot, required: set<string>): set<string> {
    if required != {} then required else pr.checks.Keys
  }

  function CheckNames(pr: PrSnapshot, required: set<string>): seq<string> {
    Text.Sorted(RelevantChecks(pr, required))
  }

  function Classify(pr: PrSnapshot, required: set<string>, trunk: string): seq<Blocker> {
    if pr.state == MERGED then [Blocker("merged", MergedBlocker, pr.number, StateIs(MERGED))]
    else if pr.state != OPEN then [Blocker("closed", Closed, pr.number, StateIs(pr.state))]
    else if pr.isDraft then [Blocker("draft", Draft, pr.number, IsDraft)]
    else
      (if MergeHold in pr.labels then [Blocker("merge-hold", MergeHoldBlocker, pr.number, HoldLabel)] else [])
      + ThreadBlockers(pr, |pr.threads|)
      + (if HasConflict(pr) then [Blocker("conflict", Conflict, pr.number, GitHubConflict)] else [])
      + var names := CheckNames(pr, required); CheckBlockers(pr, names, |names|, required != {}, trunk)
  }

  method AddThreadBlockers(pr: PrSnapshot, given: seq<Blocker>) returns (blockers: seq<Blocker>)
    ensures blockers == given + ThreadBlockers(pr, |pr.threads|)
  {
    blockers := given;
    for i := 0 to |pr.threads|
      invariant blockers == given + ThreadBlockers(pr, i)
    {
      var t := pr.threads[i];
      if t.isResolved { continue; }
      blockers := blockers + [Blocker(t.id, ThreadKind(t), pr.number, ThreadOpen(ThreadKind(t), t.id))];
    }
  }

  method AddCheckBlockers(pr: PrSnapshot, names: seq<string>, configured: bool, trunk: string, given: seq<Blocker>)
    returns (blockers: seq<Blocker>)
    ensures blockers == given + CheckBlockers(pr, names, |names|, configured, trunk)
  {
    blockers := given;
    for i := 0 to |names|
      invariant blockers == given + CheckBlockers(pr, names, i, configured, trunk)
    {
      var b := CheckBlocker(pr, names[i], configured, trunk);
      if b.Some? { blockers := blockers + [b.value]; }
    }
  }

  method ClassifyPr(pr: PrSnapshot, required: set<string>, trunk: string) returns (blockers: seq<Blocker>)
    ensures blockers == Classify(pr, required, trunk)
  {
    if pr.state == MERGED { return [Blocker("merged", MergedBlocker, pr.number, StateIs(MERGED))]; }
    if pr.state != OPEN { return [Blocker("closed", Closed, pr.number, StateIs(pr.state))]; }
    if pr.isDraft { return [Blocker("draft", Draft, pr.number, IsDraft)]; }
    var hold := if MergeHold in pr.labels then [Blocker("merge-hold", MergeHoldBlocker, pr.number, HoldLabel)] else [];
    blockers := AddThreadBlockers(pr, hold);
    var conflict := if HasConflict(pr) then [Blocker("conflict", Conflict, pr.number, GitHubConflict)] else [];
    blockers := AddCheckBlockers(pr, CheckNames(pr, required), required != {}, trunk, blockers + conflict);
  }

  // ----- effective blockers -----

  /** A missing check Mergify's own event for this head excuses. */
  predicate Excused(pr: PrSnapshot, b: Blocker) {
    && b.kind == MissingCheck
    && pr.latest.Some? && pr.latest.value.headSha == pr.head
    && var e := pr.latest.value;
       || (b.key in e.conditions && e.conditions[b.key])
       || (e.state == DequeuedState && IsQueueOnly(b.key) && b.key in e.failingChecks)
  }

  predicate Suppressed(b: Blocker, suppressed: seq<string>) {
    b.kind == FailedCheck && b.key in suppressed
  }

  function Effective(pr: PrSnapshot, blockers: seq<Blocker>, n: nat, suppressed: seq<string>): seq<Blocker>
    requires n <= |blockers|
  {
    if n == 0 then []
    else
      var before, b := Effective(pr, blockers, n - 1, suppressed), blockers[n - 1];
      if Suppressed(b, suppressed) || Excused(pr, b) then before else before + [b]
  }

  function EffectiveBlockers(pr: PrSnapshot, required: set<string>, trunk: string,
                             suppressed: seq<string>): seq<Blocker> {
    var raw := Classify(pr, required, trunk);
    Effective(pr, raw, |raw|, suppressed)
  }

  // ----- ledger and comments turn a blocker into a human decision -----

  function NonEmpty(lines: seq<string>): seq<string> {
    if lines == [] then []
    else if lines[0] == "" then NonEmpty(lines[1..])
    else [lines[0]] + NonEmpty(lines[1..])
  }

  function RebaseKey(pr: int): string { "rebase-onto-master:" + Text.Decimal(pr) }

  function LegacyConflictKey(pr: int): string { "conflict:" + Text.Decimal(pr) }

  function InvalidRow(rows: seq<Row>, pr: PrSnapshot, key: string): Option<Row> {
    Latest(rows, Exact(RepairInvalid, pr.number, pr.head, key))
  }

  function LatestInvalidRow(rows: seq<Row>, pr: PrSnapshot, b: Blocker): Option<Row> {
    if b.kind == Conflict then
      var first, second := InvalidRow(rows, pr, "conflict"), InvalidRow(rows, pr, LegacyConflictKey(pr.number));
      if first.None? then second
      else if second.Some? && second.value.epoch >= first.value.epoch then second
      else first
    else InvalidRow(rows, pr, b.key)
  }

  function RepairInvalidBlocker(rows: seq<Row>, pr: PrSnapshot, b: Blocker): Option<Blocker> {
    if !(b.kind == FailedCheck || b.kind == BotThread || b.kind == Conflict) then None
    else
      var row := LatestInvalidRow(rows, pr, b);
      if row.None? then None
      else
        var lines := if row.value.meta.errors.Some? then NonEmpty(row.value.meta.errors.value) else [];
        Some(Blocker(b.key, HumanDecision, pr.number, if lines != [] then Lines(lines) else b.detail))
  }

  function SplitStop(comments: seq<StopComment>, completedAt: Option<int>): Option<string> {
    if comments == [] then None
    else if comments[0].splitStop.Some?
         && !(completedAt.Some? && comments[0].updatedAt.Some? && comments[0].updatedAt.value < completedAt.value)
    then comments[0].splitStop
    else SplitStop(comments[1..], completedAt)
  }

  function SplitStopBlocker(pr: PrSnapshot, b: Blocker): Option<Blocker> {
    if b.kind != FailedCheck then None
    else
      var stop := SplitStop(pr.stopComments, if b.key in pr.checks then pr.checks[b.key].completedAt else None);
      if stop.None? then None else Some(Blocker(b.key, HumanDecision, pr.number, Lines([stop.value])))
  }

  function Resolved(rows: seq<Row>, pr: PrSnapshot, b: Blocker): Blocker {
    var invalid := RepairInvalidBlocker(rows, pr, b);
    if invalid.Some? then invalid.value
    else
      var stop := SplitStopBlocker(pr, b);
      if stop.Some? then stop.value else b
  }

  function ResolveAll(rows: seq<Row>, pr: PrSnapshot, blockers: seq<Blocker>): (r: seq<Blocker>)
    ensures |r| == |blockers| && forall i :: 0 <= i < |r| ==> r[i] == Resolved(rows, pr, blockers[i])
  {
    seq(|blockers|, i requires 0 <= i < |blockers| => Resolved(rows, pr, blockers[i]))
  }

  predicate DequeuedAtHead(pr: PrSnapshot) {
    pr.latest.Some? && pr.latest.value.state == DequeuedState && pr.latest.value.headSha == pr.head
  }

  /** The failing checks of a dequeue that a repair declared invalid, less those `known` by key. */
  function QueueInvalid(rows: seq<Row>, pr: PrSnapshot, names: seq<string>, n: nat, suppressed: seq<string>,
                        known: set<string>): seq<Blocker>
    requires n <= |names|
  {
    if n == 0 then []
    else
      var before, name := QueueInvalid(rows, pr, names, n - 1, suppressed, known), names[n - 1];
      if name in suppressed then before
      else
        var b := RepairInvalidBlocker(rows, pr, Blocker(name, FailedCheck, pr.number, QueueCheckFailed(name)));
        if b.Some? && b.value.key !in known then before + [b.value] else before
  }

  function KeysOf(blockers: seq<Blocker>, n: nat): set<string>
    requires n <= |blockers|
  {
    if n == 0 then {} else KeysOf(blockers, n - 1) + {blockers[n - 1].key}
  }

  function BlockersOf(rows: seq<Row>, pr: PrSnapshot, required: set<string>, trunk: string,
                      suppressed: seq<string>): seq<Blocker> {
    var own := ResolveAll(rows, pr, EffectiveBlockers(pr, required, trunk, suppressed));
    var known := KeysOf(own, |own|);
    if DequeuedAtHead(pr) then
      var names := pr.latest.value.failingChecks;
      own + QueueInvalid(rows, pr, names, |names|, suppressed, known)
    else own
  }

  // ----- the stack -----

  datatype TopologyKind = CurrentBottom | ExternalOpenBase | StaleUnownedBase

  datatype Topology = Topology(kind: TopologyKind, root: PrSnapshot, bottom: Option<PrSnapshot>, owners: set<int>)

  datatype PrereqStatus = PrereqStatus(checkName: string, prNumber: int, branch: string, isOpen: bool,
                                       needsFollowup: bool)

  datatype StackFacts = StackFacts(
    prs: seq<PrSnapshot>,
    required: set<string>,
    trunk: string,
    topology: Topology,
    bottom: Option<PrSnapshot>,
    upperNeedsAcceptance: bool,
    prereq: Option<PrereqStatus>,
    queueOnlyNoop: Option<string>,
    suppressed: map<int, seq<string>>,
    blockers: map<int, seq<Blocker>>,
    allBlockers: seq<Blocker>,
    staleBase: map<int, bool>)

  function CurrentBottomPr(prs: seq<PrSnapshot>, trunk: string): (bottom: Option<PrSnapshot>)
    ensures bottom.Some? ==> bottom.value in prs && bottom.value.state == OPEN && bottom.value.base == trunk
  {
    if prs == [] then None
    else if prs[0].state == OPEN && prs[0].base == trunk then Some(prs[0])
    else CurrentBottomPr(prs[1..], trunk)
  }

  function Numbers(prs: seq<PrSnapshot>): set<int> {
    set i | 0 <= i < |prs| :: prs[i].number
  }

  function ClassifyTopology(prs: seq<PrSnapshot>, trunk: string, openByHead: map<string, set<int>>): Topology
    requires prs != []
  {
    var root, bottom := prs[0], CurrentBottomPr(prs, trunk);
    if bottom.Some? then Topology(CurrentBottom, root, bottom, {})
    else
      var owners := (if root.base in openByHead then openByHead[root.base] else {}) - Numbers(prs);
      if owners != {} then Topology(ExternalOpenBase, root, None, owners)
      else Topology(StaleUnownedBase, root, None, {})
  }

  predicate UnacceptedUpper(pr: PrSnapshot, bottom: PrSnapshot) {
    pr.state == OPEN && pr.number != bottom.number && AdminBypass !in pr.labels
  }

  predicate HasUnacceptedUpper(prs: seq<PrSnapshot>, bottom: Option<PrSnapshot>) {
    bottom.Some? && exists i :: 0 <= i < |prs| && UnacceptedUpper(prs[i], bottom.value)
  }

  function PrereqOf(rows: seq<Row>, bottom: Option<PrSnapshot>, openPrs: set<int>): Option<PrereqStatus> {
    if bottom.None? then None
    else
      var pr := bottom.value;
      var row := Latest(rows, ForHead(PrereqCreated, pr.number, pr.head));
      if row.None? then None
      else
        var check, number := row.value.key, row.value.meta.prNumber;
        Some(PrereqStatus(check, number, row.value.meta.branch, number in openPrs,
                          check != "" && Latest(rows, Exact(PrereqRequeue, pr.number, pr.head, check)).None?))
  }

  function QueueOnlyNoopCheck(rows: seq<Row>, bottom: Option<PrSnapshot>): Option<string> {
    if bottom.None? || !DequeuedAtHead(bottom.value) || !bottom.value.latest.value.adminBypassRule then None
    else
      var pr := bottom.value;
      var row := Latest(rows, ForHead(QueueOnlyNoop, pr.number, pr.head));
      if row.None? then None
      else
        var check := row.value.key;
        if check == "" || !IsQueueOnly(check) || check !in pr.latest.value.failingChecks
           || Latest(rows, Exact(QueueOnlyRequeue, pr.number, pr.head, check)).Some?
        then None
        else Some(check)
  }

  function BottomSuppressions(rows: seq<Row>, bottom: PrSnapshot, required: set<string>, prereq: Option<PrereqStatus>,
                              noop: Option<string>): seq<string> {
    (if prereq.Some? && prereq.value.needsFollowup then [prereq.value.checkName] else [])
    + (if noop.Some? && noop.value != "" then [noop.value] else [])
    + (if "PR Body" in required && Latest(rows, Exact(RepairNoop, bottom.number, bottom.head, "PR Body")).Some?
       then ["PR Body"] else [])
  }

  function SuppressionMap(rows: seq<Row>, bottom: Option<PrSnapshot>, required: set<string>,
                          prereq: Option<PrereqStatus>, noop: Option<string>): map<int, seq<string>> {
    if bottom.None? then map[]
    else
      var names := BottomSuppressions(rows, bottom.value, required, prereq, noop);
      if names == [] then map[] else map[bottom.value.number := names]
  }

  function SuppressedFor(suppressed: map<int, seq<string>>, pr: PrSnapshot): seq<string> {
    if pr.number in suppressed then suppressed[pr.number] else []
  }

  function BlockerLists(rows: seq<Row>, prs: seq<PrSnapshot>, required: set<string>, trunk: string,
                        suppressed: map<int, seq<string>>): (lists: seq<seq<Blocker>>)
    ensures |lists| == |prs|
  {
    seq(|prs|, i requires 0 <= i < |prs| => BlockersOf(rows, prs[i], required, trunk,
                                                       SuppressedFor(suppressed, prs[i])))
  }

  /** `blockers_by_pr`: the lists of the first `n` PRs, by number; a later PR wins. */
  function ByNumber(prs: seq<PrSnapshot>, lists: seq<seq<Blocker>>, n: nat): (m: map<int, seq<Blocker>>)
    requires n <= |prs| == |lists|
    ensures forall i :: 0 <= i < n ==> prs[i].number in m
    ensures m.Keys <= Numbers(prs)
  {
    if n == 0 then map[] else ByNumber(prs, lists, n - 1)[prs[n - 1].number := lists[n - 1]]
  }

  function Flatten(prs: seq<PrSnapshot>, n: nat, blockers: map<int, seq<Blocker>>): seq<Blocker>
    requires n <= |prs| && forall i :: 0 <= i < |prs| ==> prs[i].number in blockers
  {
    if n == 0 then [] else Flatten(prs, n - 1, blockers) + blockers[prs[n - 1].number]
  }

  function BuildFacts(prs: seq<PrSnapshot>, required: set<string>, rows: seq<Row>, openPrs: set<int>,
                      openByHead: map<string, set<int>>, trunk: string, staleBase: map<int, bool>): StackFacts
    requires prs != []
  {
    var topology := ClassifyTopology(prs, trunk, openByHead);
    var bottom := topology.bottom;
    var prereq, noop := PrereqOf(rows, bottom, openPrs), QueueOnlyNoopCheck(rows, bottom);
    var suppressed := SuppressionMap(rows, bottom, required, prereq, noop);
    var blockers := ByNumber(prs, BlockerLists(rows, prs, required, trunk, suppressed), |prs|);
    StackFacts(prs, required, trunk, topology, bottom, HasUnacceptedUpper(prs, bottom), prereq, noop,
               suppressed, blockers, Flatten(prs, |prs|, blockers), staleBase)
  }

  /** No two PRs of the stack share a number. */
  predicate Distinct(prs: seq<PrSnapshot>) {
    forall i, j :: 0 <= i < j < |prs| ==> prs[i].number != prs[j].number
  }

  ghost predicate TopologyInvariant(t: Topology) {
    && (t.kind == CurrentBottom <==> t.bottom.Some?)
    && (t.kind == ExternalOpenBase <==> t.owners != {})
    && (t.kind == StaleUnownedBase <==> t.bottom.None? && t.owners == {})
  }

  ghost predicate LedgerFactsInvariant(f: StackFacts) {
    && (f.suppressed != map[] ==> f.bottom.Some? && f.suppressed.Keys == {f.bottom.value.number})
    && (f.prereq.Some? ==> f.bottom.Some?)
    && (f.queueOnlyNoop.Some? ==>
          f.bottom.Some? && DequeuedAtHead(f.bottom.value) && f.bottom.value.latest.value.adminBypassRule
          && f.queueOnlyNoop.value in f.bottom.value.latest.value.failingChecks)
  }

  /** What `_assert_stack_facts_invariants` asserts. */
  ghost predicate FactsInvariant(f: StackFacts) {
    && f.prs != []
    && Distinct(f.prs)
    && f.blockers.Keys == Numbers(f.prs)
    && (forall i :: 0 <= i < |f.prs| ==> f.prs[i].number in f.blockers)
    && f.allBlockers == Flatten(f.prs, |f.prs|, f.blockers)
    && f.bottom == f.topology.bottom
    && TopologyInvariant(f.topology)
    && LedgerFactsInvariant(f)
  }

  lemma LedgerFactsHold(f: StackFacts, rows: seq<Row>, openPrs: set<int>)
    requires f.prereq == PrereqOf(rows, f.bottom, openPrs) && f.queueOnlyNoop == QueueOnlyNoopCheck(rows, f.bottom)
    requires f.suppressed == SuppressionMap(rows, f.bottom, f.required, f.prereq, f.queueOnlyNoop)
    ensures LedgerFactsInvariant(f)
  {
  }

  /** The asserted invariants hold by construction exactly for a stack of distinct PRs. */
  lemma FactsInvariantHolds(prs: seq<PrSnapshot>, required: set<string>, rows: seq<Row>, openPrs: set<int>,
                            openByHead: map<string, set<int>>, trunk: string, staleBase: map<int, bool>)
    requires prs != []
    ensures FactsInvariant(BuildFacts(prs, required, rows, openPrs, openByHead, trunk, staleBase)) <==> Distinct(prs)
  {
    var f := BuildFacts(prs, required, rows, openPrs, openByHead, trunk, staleBase);
    assert LedgerFactsInvariant(f) by { LedgerFactsHold(f, rows, openPrs); }
    assert f.blockers.Keys == Numbers(f.prs);
    hide LedgerFactsInvariant, PrereqOf, QueueOnlyNoopCheck, SuppressionMap, BlockerLists;
  }

  method BuildSuppressions(ledger: Ledger, bottom: Option<PrSnapshot>, required: set<string>,
                           prereq: Option<PrereqStatus>, noop: Option<string>)
    returns (suppressed: map<int, seq<string>>)
    ensures suppressed == SuppressionMap(ledger.rows, bottom, required, prereq, noop)
  {
    suppressed := map[];
    if bottom.None? { return; }
    var b := bottom.value;
    ghost var names: seq<string> := [];
    if prereq.Some? && prereq.value.needsFollowup {
      names := names + [prereq.value.checkName];
      suppressed := suppressed[b.number := SuppressedFor(suppressed, b) + [prereq.value.checkName]];
    }
    if noop.Some? && noop.value != "" {
      names := names + [noop.value];
      suppressed := suppressed[b.number := SuppressedFor(suppressed, b) + [noop.value]];
    }
    if "PR Body" in required && Latest(ledger.rows, Exact(RepairNoop, b.number, b.head, "PR Body")).Some? {
      names := names + ["PR Body"];
      suppressed := suppressed[b.number := SuppressedFor(suppressed, b) + ["PR Body"]];
    }
    assert names == BottomSuppressions(ledger.rows, b, required, prereq, noop);
    assert suppressed == if names == [] then map[] else map[b.number := names];
  }

  method BuildBlockers(ledger: Ledger, prs: seq<PrSnapshot>, required: set<string>, trunk: string,
                       suppressed: map<int, seq<string>>)
    returns (blockers: map<int, seq<Blocker>>, all: seq<Blocker>)
    ensures blockers == ByNumber(prs, BlockerLists(ledger.rows, prs, required, trunk, suppressed), |prs|)
    ensures all == Flatten(prs, |prs|, blockers)
  {
    ghost var lists := BlockerLists(ledger.rows, prs, required, trunk, suppressed);
    blockers := map[];
    for i := 0 to |prs|
      invariant blockers == ByNumber(prs, lists, i)
    {
      var own := BlockersOf(ledger.rows, prs[i], required, trunk, SuppressedFor(suppressed, prs[i]));
      assert own == lists[i];
      blockers := blockers[prs[i].number := own];
    }
    all := [];
    for i := 0 to |prs|
      invariant all == Flatten(prs, i, blockers)
    {
      all := all + blockers[prs[i].number];
    }
  }

  method BuildStackFacts(prs: seq<PrSnapshot>, required: set<string>, ledger: Ledger, openPrs: set<int>,
                         openByHead: map<string, set<int>>, trunk: string, staleBase: map<int, bool>)
    returns (facts: StackFacts)
    requires prs != []
    ensures facts == BuildFacts(prs, required, ledger.rows, openPrs, openByHead, trunk, staleBase)
  {
    var topology := ClassifyTopology(prs, trunk, openByHead);
    var bottom := topology.bottom;
    var prereq, noop := PrereqOf(ledger.rows, bottom, openPrs), QueueOnlyNoopCheck(ledger.rows, bottom);
    var suppressed := BuildSuppressions(ledger, bottom, required, prereq, noop);
    var blockers, all := BuildBlockers(ledger, prs, required, trunk, suppressed);
    facts := StackFacts(prs, required, trunk, topology, bottom, HasUnacceptedUpper(prs, bottom), prereq, noop,
                        suppressed, blockers, all, staleBase);
  }

  // ----- what an empty blocker list means -----

  /** A check that does not block: reported and not failing or unfinished, failing but
      suppressed, or missing where no report is due or Mergify reports it green. */
  ghost predicate CheckReady(pr: PrSnapshot, name: string, configured: bool, trunk: string, suppressed: seq<string>) {
    if name in pr.checks then
      match pr.checks[name].state
      case Failing => name in suppressed
      case PendingCheck => false
      case UnknownCheck => false
      case _ => true
    else
      || !configured || pr.base != trunk || IsQueueOnly(name)
      || (pr.latest.Some? && pr.latest.value.headSha == pr.head
          && name in pr.latest.value.conditions && pr.latest.value.conditions[name])
  }

  ghost predicate Ready(pr: PrSnapshot, required: set<string>, trunk: string, suppressed: seq<string>) {
    && pr.state == OPEN && !pr.isDraft && MergeHold !in pr.labels && !HasConflict(pr)
    && (forall i :: 0 <= i < |pr.threads| ==> pr.threads[i].isResolved)
    && (forall name :: name in RelevantChecks(pr, required) ==>
          CheckReady(pr, name, required != {}, trunk, suppressed))
  }

  /** A repair declared one of the dequeue's failing checks invalid. */
  ghost predicate QueueRepairInvalid(rows: seq<Row>, pr: PrSnapshot, suppressed: seq<string>) {
    DequeuedAtHead(pr) && exists i :: 0 <= i < |pr.latest.value.failingChecks|
                            && InvalidFailing(rows, pr, pr.latest.value.failingChecks[i], suppressed)
  }

  predicate InvalidFailing(rows: seq<Row>, pr: PrSnapshot, name: string, suppressed: seq<string>) {
    name !in suppressed && InvalidRow(rows, pr, name).Some?
  }

  lemma {:induction false} NoThreadBlocker(pr: PrSnapshot, n: nat)
    requires n <= |pr.threads|
    ensures ThreadBlockers(pr, n) == [] <==> forall i :: 0 <= i < n ==> pr.threads[i].isResolved
    ensures forall i :: 0 <= i < |ThreadBlockers(pr, n)| ==>
              var b := ThreadBlockers(pr, n)[i];
              b.pr == pr.number && (b.kind == HumanThread || b.kind == OutdatedBotThread || b.kind == BotThread)
  {
    if n > 0 { NoThreadBlocker(pr, n - 1); }
  }

  /** The queue-only half of `Excused` is never used: a queue-only name is never missing. */
  lemma {:induction false} MissingIsNeverQueueOnly(pr: PrSnapshot, names: seq<string>, n: nat, configured: bool,
                                                   trunk: string)
    requires n <= |names|
    ensures forall i :: 0 <= i < |CheckBlockers(pr, names, n, configured, trunk)| ==>
              var b := CheckBlockers(pr, names, n, configured, trunk)[i];
              b.pr == pr.number && b.key in names[..n] && CheckBlocker(pr, b.key, configured, trunk) == Some(b)
                && (b.kind == MissingCheck ==> !IsQueueOnly(b.key))
    ensures forall k :: 0 <= k < n && CheckBlocker(pr, names[k], configured, trunk).Some? ==>
              CheckBlocker(pr, names[k], configured, trunk).value in CheckBlockers(pr, names, n, configured, trunk)
  {
    if n > 0 {
      MissingIsNeverQueueOnly(pr, names, n - 1, configured, trunk);
      assert names[..n] == names[..n - 1] + [names[n - 1]];
    }
  }

  lemma {:induction false} EffectiveEmpty(pr: PrSnapshot, blockers: seq<Blocker>, n: nat, suppressed: seq<string>)
    requires n <= |blockers|
    ensures Effective(pr, blockers, n, suppressed) == [] <==>
            forall i :: 0 <= i < n ==> Suppressed(blockers[i], suppressed) || Excused(pr, blockers[i])
    ensures forall i :: 0 <= i < |Effective(pr, blockers, n, suppressed)| ==>
              Effective(pr, blockers, n, suppressed)[i] in blockers
  {
    if n > 0 { EffectiveEmpty(pr, blockers, n - 1, suppressed); }
  }

  lemma {:induction false} QueueInvalidEmpty(rows: seq<Row>, pr: PrSnapshot, names: seq<string>, n: nat,
                                             suppressed: seq<string>, known: set<string>)
    requires n <= |names|
    ensures known == {} ==> (QueueInvalid(rows, pr, names, n, suppressed, known) == [] <==>
              forall i :: 0 <= i < n ==> !InvalidFailing(rows, pr, names[i], suppressed))
    ensures forall i :: 0 <= i < |QueueInvalid(rows, pr, names, n, suppressed, known)| ==>
              QueueInvalid(rows, pr, names, n, suppressed, known)[i].pr == pr.number
                && QueueInvalid(rows, pr, names, n, suppressed, known)[i].kind == HumanDecision
  {
    if n > 0 { QueueInvalidEmpty(rows, pr, names, n - 1, suppressed, known); }
  }

  ghost predicate AllHarmless(pr: PrSnapshot, blockers: seq<Blocker>, suppressed: seq<string>) {
    forall i :: 0 <= i < |blockers| ==> Suppressed(blockers[i], suppressed) || Excused(pr, blockers[i])
  }

  lemma HarmlessParts(pr: PrSnapshot, a: seq<Blocker>, b: seq<Blocker>, suppressed: seq<string>)
    ensures AllHarmless(pr, a + b, suppressed) <==> AllHarmless(pr, a, suppressed) && AllHarmless(pr, b, suppressed)
  {
    if AllHarmless(pr, a + b, suppressed) {
      assert forall i :: 0 <= i < |a| ==> (a + b)[i] == a[i];
      assert forall i :: 0 <= i < |b| ==> (a + b)[|a| + i] == b[i];
    }
  }

  lemma CheckIsHarmless(pr: PrSnapshot, name: string, configured: bool, trunk: string, suppressed: seq<string>)
    ensures CheckReady(pr, name, configured, trunk, suppressed) <==>
            var b := CheckBlocker(pr, name, configured, trunk);
            b.None? || Suppressed(b.value, suppressed) || Excused(pr, b.value)
  {
  }

  lemma ChecksAreHarmless(pr: PrSnapshot, names: seq<string>, configured: bool, trunk: string, suppressed: seq<string>)
    ensures AllHarmless(pr, CheckBlockers(pr, names, |names|, configured, trunk), suppressed) <==>
            forall name :: name in names ==> CheckReady(pr, name, configured, trunk, suppressed)
  {
    var all := CheckBlockers(pr, names, |names|, configured, trunk);
    MissingIsNeverQueueOnly(pr, names, |names|, configured, trunk);
    assert names[..|names|] == names;
    if AllHarmless(pr, all, suppressed) {
      forall name | name in names
        ensures CheckReady(pr, name, configured, trunk, suppressed)
      {
        var k :| 0 <= k < |names| && names[k] == name;
        CheckIsHarmless(pr, name, configured, trunk, suppressed);
        if CheckBlocker(pr, name, configured, trunk).Some? {
          var i :| 0 <= i < |all| && all[i] == CheckBlocker(pr, names[k], configured, trunk).value;
        }
      }
    }
    if forall name :: name in names ==> CheckReady(pr, name, configured, trunk, suppressed) {
      forall i | 0 <= i < |all|
        ensures Suppressed(all[i], suppressed) || Excused(pr, all[i])
      {
        assert all[i].key in names;
        CheckIsHarmless(pr, all[i].key, configured, trunk, suppressed);
      }
    }
  }

  lemma NoEffectiveBlockerIffReady(pr: PrSnapshot, required: set<string>, trunk: string, suppressed: seq<string>)
    ensures EffectiveBlockers(pr, required, trunk, suppressed) == [] <==> Ready(pr, required, trunk, suppressed)
  {
    var raw := Classify(pr, required, trunk);
    EffectiveEmpty(pr, raw, |raw|, suppressed);
    assert EffectiveBlockers(pr, required, trunk, suppressed) == [] <==> AllHarmless(pr, raw, suppressed);
    if pr.state == OPEN && !pr.isDraft {
      var names := CheckNames(pr, required);
      var hold := if MergeHold in pr.labels then [Blocker("merge-hold", MergeHoldBlocker, pr.number, HoldLabel)]
      else [];
      var threads := ThreadBlockers(pr, |pr.threads|);
      var conflict := if HasConflict(pr) then [Blocker("conflict", Conflict, pr.number, GitHubConflict)] else [];
      var checks := CheckBlockers(pr, names, |names|, required != {}, trunk);
      assert raw == hold + threads + conflict + checks;
      HarmlessParts(pr, hold + threads + conflict, checks, suppressed);
      HarmlessParts(pr, hold + threads, conflict, suppressed);
      HarmlessParts(pr, hold, threads, suppressed);
      NoThreadBlocker(pr, |pr.threads|);
      assert AllHarmless(pr, threads, suppressed) <==> threads == [] by {
        if threads != [] { assert !Suppressed(threads[0], suppressed) && !Excused(pr, threads[0]); }
      }
      assert AllHarmless(pr, hold, suppressed) <==> hold == [] by {
        if hold != [] { assert !Suppressed(hold[0], suppressed) && !Excused(pr, hold[0]); }
      }
      assert AllHarmless(pr, conflict, suppressed) <==> conflict == [] by {
        if conflict != [] { assert !Suppressed(conflict[0], suppressed) && !Excused(pr, conflict[0]); }
      }
      ChecksAreHarmless(pr, names, required != {}, trunk, suppressed);
    } else {
      assert !Suppressed(raw[0], suppressed) && !Excused(pr, raw[0]);
    }
  }

  /** A PR has no blocker exactly when it is ready and no repair declared a failing queue check invalid. */
  lemma NoBlockersIffReady(rows: seq<Row>, pr: PrSnapshot, required: set<string>, trunk: string,
                           suppressed: seq<string>)
    ensures BlockersOf(rows, pr, required, trunk, suppressed) == [] <==>
            Ready(pr, required, trunk, suppressed) && !QueueRepairInvalid(rows, pr, suppressed)
  {
    NoEffectiveBlockerIffReady(pr, required, trunk, suppressed);
    if EffectiveBlockers(pr, required, trunk, suppressed) == [] && DequeuedAtHead(pr) {
      var names := pr.latest.value.failingChecks;
      var own := ResolveAll(rows, pr, EffectiveBlockers(pr, required, trunk, suppressed));
      assert KeysOf(own, |own|) == {};
      QueueInvalidEmpty(rows, pr, names, |names|, suppressed, {});
    }
  }

  lemma RawBlockersNameTheirPr(pr: PrSnapshot, required: set<string>, trunk: string)
    ensures forall i :: 0 <= i < |Classify(pr, required, trunk)| ==> Classify(pr, required, trunk)[i].pr == pr.number
  {
    NoThreadBlocker(pr, |pr.threads|);
    var names := CheckNames(pr, required);
    MissingIsNeverQueueOnly(pr, names, |names|, required != {}, trunk);
  }

  /** Every blocker carries the number of the PR it was computed for. */
  lemma BlockersNameTheirPr(rows: seq<Row>, pr: PrSnapshot, required: set<string>, trunk: string,
                            suppressed: seq<string>)
    ensures forall i :: 0 <= i < |BlockersOf(rows, pr, required, trunk, suppressed)| ==>
              BlockersOf(rows, pr, required, trunk, suppressed)[i].pr == pr.number
  {
    RawBlockersNameTheirPr(pr, required, trunk);
    var raw := Classify(pr, required, trunk);
    EffectiveEmpty(pr, raw, |raw|, suppressed);
    if DequeuedAtHead(pr) {
      var names := pr.latest.value.failingChecks;
      var own := ResolveAll(rows, pr, EffectiveBlockers(pr, required, trunk, suppressed));
      QueueInvalidEmpty(rows, pr, names, |names|, suppressed, KeysOf(own, |own|));
    }
  }

  // ----- what a human has to decide -----

  /** A row says that no repair of this key can work on the PR's head. */
  ghost predicate DeclaredInvalid(rows: seq<Row>, pr: PrSnapshot, key: string) {
    exists k :: 0 <= k < |rows| && rows[k].kind == RepairInvalid && rows[k].pr == pr.number
                && rows[k].head == pr.head && rows[k].key == key
  }

  lemma InvalidIsDeclared(rows: seq<Row>, pr: PrSnapshot, key: string)
    ensures InvalidRow(rows, pr, key).Some? <==> DeclaredInvalid(rows, pr, key)
  {
    LatestIsTheNewestHit(rows, Exact(RepairInvalid, pr.number, pr.head, key));
  }

  /** A comment that asks for a manual split, not older than the check it answers. */
  predicate AsksForSplit(pr: PrSnapshot, check: string, comment: StopComment) {
    && comment.splitStop.Some?
    && (check in pr.checks && pr.checks[check].completedAt.Some? && comment.updatedAt.Some? ==>
          comment.updatedAt.value >= pr.checks[check].completedAt.value)
  }

  ghost predicate IsFirstSplit(pr: PrSnapshot, check: string, i: int) {
    && 0 <= i < |pr.stopComments| && AsksForSplit(pr, check, pr.stopComments[i])
    && forall k :: 0 <= k < i ==> !AsksForSplit(pr, check, pr.stopComments[k])
  }

  lemma {:induction false} SplitStopFrom(pr: PrSnapshot, check: string, i: nat)
    requires i <= |pr.stopComments| && forall k :: 0 <= k < i ==> !AsksForSplit(pr, check, pr.stopComments[k])
    ensures var stop := SplitStop(pr.stopComments[i..],
                                  if check in pr.checks then pr.checks[check].completedAt else None);
            && (stop.None? <==> forall k :: 0 <= k < |pr.stopComments| ==> !AsksForSplit(pr, check, pr.stopComments[k]))
            && (forall j :: IsFirstSplit(pr, check, j) ==> stop == pr.stopComments[j].splitStop)
    decreases |pr.stopComments| - i
  {
    if i < |pr.stopComments| && !AsksForSplit(pr, check, pr.stopComments[i]) {
      assert pr.stopComments[i..][1..] == pr.stopComments[i + 1..];
      SplitStopFrom(pr, check, i + 1);
    }
  }

  /** A blocker becomes a human's decision exactly when a row declares its repair invalid, or, for a
      failed check, a comment asks for a manual split. A row is answered before a comment; anything
      else stays what it is. */
  lemma ResolvedExactlyWhen(rows: seq<Row>, pr: PrSnapshot, b: Blocker)
    requires b.kind != HumanDecision
    ensures var invalid := match b.kind
                           case FailedCheck => DeclaredInvalid(rows, pr, b.key)
                           case BotThread => DeclaredInvalid(rows, pr, b.key)
                           case Conflict => DeclaredInvalid(rows, pr, "conflict")
                             || DeclaredInvalid(rows, pr, "conflict:" + Text.Decimal(pr.number))
                           case _ => false;
            var split := b.kind == FailedCheck && exists i :: IsFirstSplit(pr, b.key, i);
            var r := Resolved(rows, pr, b);
            && (r.kind == HumanDecision <==> invalid || split)
            && (r.kind != HumanDecision ==> r == b)
            && (r.kind == HumanDecision ==> r.key == b.key && r.pr == pr.number)
            && (!invalid ==> forall i :: b.kind == FailedCheck && IsFirstSplit(pr, b.key, i) ==>
                  r.detail == Lines([pr.stopComments[i].splitStop.value]))
  {
    InvalidIsDeclared(rows, pr, b.key);
    InvalidIsDeclared(rows, pr, "conflict");
    InvalidIsDeclared(rows, pr, LegacyConflictKey(pr.number));
    hide InvalidRow, DeclaredInvalid, AsksForSplit;
    if b.kind == FailedCheck {
      assert pr.stopComments[0..] == pr.stopComments;
      SplitStopFrom(pr, b.key, 0);
      SomeSplitHasAFirst(pr, b.key, |pr.stopComments|);
    }
  }

  lemma {:induction false} SomeSplitHasAFirst(pr: PrSnapshot, check: string, n: nat)
    requires n <= |pr.stopComments|
    ensures (exists k :: 0 <= k < n && AsksForSplit(pr, check, pr.stopComments[k])) ==>
              exists i :: IsFirstSplit(pr, check, i)
  {
    if n > 0 {
      SomeSplitHasAFirst(pr, check, n - 1);
      if AsksForSplit(pr, check, pr.stopComments[n - 1]) && !(exists i :: IsFirstSplit(pr, check, i)) {
        assert IsFirstSplit(pr, check, n - 1);
      }
    }
  }

  // ----- looking a PR's blockers up -----

  lemma {:induction false} ByNumberLookup(prs: seq<PrSnapshot>, lists: seq<seq<Blocker>>, n: nat, i: nat)
    requires i < n <= |prs| == |lists| && Distinct(prs)
    ensures ByNumber(prs, lists, n)[prs[i].number] == lists[i]
  {
    if i < n - 1 { ByNumberLookup(prs, lists, n - 1, i); }
  }

  /** Position of the j-th blocker of the i-th PR in the flattened list. */
  lemma {:induction false} FlattenHas(prs: seq<PrSnapshot>, n: nat, blockers: map<int, seq<Blocker>>, i: nat, j: nat)
    returns (k: nat)
    requires i < n <= |prs| && (forall x :: 0 <= x < |prs| ==> prs[x].number in blockers)
    requires j < |blockers[prs[i].number]|
    ensures k < |Flatten(prs, n, blockers)| && Flatten(prs, n, blockers)[k] == blockers[prs[i].number][j]
  {
    if i == n - 1 {
      k := |Flatten(prs, n - 1, blockers)| + j;
    } else {
      k := FlattenHas(prs, n - 1, blockers, i, j);
    }
  }

  lemma {:induction false} EffectiveKeeps(pr: PrSnapshot, blockers: seq<Blocker>, n: nat, suppressed: seq<string>,
                                          i: nat) returns (k: nat)
    requires i < n <= |blockers| && !Suppressed(blockers[i], suppressed) && !Excused(pr, blockers[i])
    ensures k < |Effective(pr, blockers, n, suppressed)| && Effective(pr, blockers, n, suppressed)[k] == blockers[i]
  {
    if i == n - 1 {
      k := |Effective(pr, blockers, n - 1, suppressed)|;
    } else {
      k := EffectiveKeeps(pr, blockers, n - 1, suppressed, i);
    }
  }

  /** The hold label of an open, non-draft PR always shows up as a blocker. */
  lemma HoldIsABlocker(rows: seq<Row>, pr: PrSnapshot, required: set<string>, trunk: string, suppressed: seq<string>)
    returns (k: nat)
    requires pr.state == OPEN && !pr.isDraft && MergeHold in pr.labels
    ensures k < |BlockersOf(rows, pr, required, trunk, suppressed)|
    ensures BlockersOf(rows, pr, required, trunk, suppressed)[k].kind == MergeHoldBlocker
  {
    var raw := Classify(pr, required, trunk);
    assert raw[0].kind == MergeHoldBlocker;
    k := EffectiveKeeps(pr, raw, |raw|, suppressed, 0);
  }

  lemma {:induction false} EffectiveSource(pr: PrSnapshot, blockers: seq<Blocker>, n: nat, suppressed: seq<string>,
                                           k: nat) returns (i: nat)
    requires n <= |blockers| && k < |Effective(pr, blockers, n, suppressed)|
    ensures i < n && blockers[i] == Effective(pr, blockers, n, suppressed)[k]
  {
    if k < |Effective(pr, blockers, n - 1, suppressed)| {
      i := EffectiveSource(pr, blockers, n - 1, suppressed, k);
    } else {
      i := n - 1;
    }
  }

  lemma {:induction false} ChecksAreNoHold(pr: PrSnapshot, names: seq<string>, n: nat, configured: bool, trunk: string)
    requires n <= |names|
    ensures forall i :: 0 <= i < |CheckBlockers(pr, names, n, configured, trunk)| ==>
              CheckBlockers(pr, names, n, configured, trunk)[i].kind != MergeHoldBlocker
  {
    if n > 0 { ChecksAreNoHold(pr, names, n - 1, configured, trunk); }
  }

  lemma RawHoldNeedsLabel(pr: PrSnapshot, required: set<string>, trunk: string, i: nat)
    requires i < |Classify(pr, required, trunk)| && Classify(pr, required, trunk)[i].kind == MergeHoldBlocker
    ensures pr.state == OPEN && !pr.isDraft && MergeHold in pr.labels
  {
    if pr.state == OPEN && !pr.isDraft && MergeHold !in pr.labels {
      var names := CheckNames(pr, required);
      var threads := ThreadBlockers(pr, |pr.threads|);
      var conflict := if HasConflict(pr) then [Blocker("conflict", Conflict, pr.number, GitHubConflict)] else [];
      var checks := CheckBlockers(pr, names, |names|, required != {}, trunk);
      assert Classify(pr, required, trunk) == threads + conflict + checks;
      NoThreadBlocker(pr, |pr.threads|);
      ChecksAreNoHold(pr, names, |names|, required != {}, trunk);
    }
  }

  /** A hold blocker only ever comes from the hold label of an open, non-draft PR. */
  lemma HoldNeedsLabel(rows: seq<Row>, pr: PrSnapshot, required: set<string>, trunk: string, suppressed: seq<string>,
                       j: nat)
    requires j < |BlockersOf(rows, pr, required, trunk, suppressed)|
    ensures BlockersOf(rows, pr, required, trunk, suppressed)[j].kind == MergeHoldBlocker ==>
              pr.state == OPEN && !pr.isDraft && MergeHold in pr.labels
  {
    var raw, effective := Classify(pr, required, trunk), EffectiveBlockers(pr, required, trunk, suppressed);
    var own := ResolveAll(rows, pr, effective);
    if j < |own| {
      var i := EffectiveSource(pr, raw, |raw|, suppressed, j);
      if raw[i].kind == MergeHoldBlocker { RawHoldNeedsLabel(pr, required, trunk, i); }
    } else {
      var names := pr.latest.value.failingChecks;
      QueueInvalidEmpty(rows, pr, names, |names|, suppressed, KeysOf(own, |own|));
    }
  }

  lemma {:induction false} ChecksThatFailed(pr: PrSnapshot, names: seq<string>, n: nat, configured: bool, trunk: string)
    requires n <= |names|
    ensures forall i :: 0 <= i < |CheckBlockers(pr, names, n, configured, trunk)| ==>
              var b := CheckBlockers(pr, names, n, configured, trunk)[i]; b.kind == FailedCheck ==> b.key in pr.checks
  {
    if n > 0 { ChecksThatFailed(pr, names, n - 1, configured, trunk); }
  }

  lemma RawFailedIsReported(pr: PrSnapshot, required: set<string>, trunk: string, i: nat)
    requires i < |Classify(pr, required, trunk)| && Classify(pr, required, trunk)[i].kind == FailedCheck
    ensures Classify(pr, required, trunk)[i].key in pr.checks
  {
    var names := CheckNames(pr, required);
    var threads := ThreadBlockers(pr, |pr.threads|);
    NoThreadBlocker(pr, |pr.threads|);
    ChecksThatFailed(pr, names, |names|, required != {}, trunk);
  }

  /** A failed-check blocker names a check GitHub reports for the PR. */
  lemma FailedIsReported(rows: seq<Row>, pr: PrSnapshot, required: set<string>, trunk: string, suppressed: seq<string>,
                         j: nat)
    requires j < |BlockersOf(rows, pr, required, trunk, suppressed)|
    ensures BlockersOf(rows, pr, required, trunk, suppressed)[j].kind == FailedCheck ==>
              BlockersOf(rows, pr, required, trunk, suppressed)[j].key in pr.checks
  {
    var raw, effective := Classify(pr, required, trunk), EffectiveBlockers(pr, required, trunk, suppressed);
    var own := ResolveAll(rows, pr, effective);
    if j < |own| {
      var i := EffectiveSource(pr, raw, |raw|, suppressed, j);
      if raw[i].kind == FailedCheck { RawFailedIsReported(pr, required, trunk, i); }
    } else {
      var names := pr.latest.value.failingChecks;
      QueueInvalidEmpty(rows, pr, names, |names|, suppressed, KeysOf(own, |own|));
    }
  }
}
