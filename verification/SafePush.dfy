/** Pushing a repair to a branch other processes push to: a compare-and-swap on the remote ref,
    with a replay of the local work where the remote moved. */
module SafePush {
  import opened Wrappers

  type Sha = string
  type Content = string

  /** A file's content, or that there is no such file. */
  type File = Option<Content>

  type Tree = map<string, Content>

  datatype Commit = Commit(parents: seq<Sha>, tree: Tree)

  type Store = map<Sha, Commit>

  function FileAt(t: Tree, path: string): File { if path in t then Some(t[path]) else None }

  function TreeOf(store: Store, sha: Sha): Tree { if sha in store then store[sha].tree else map[] }

  // ----- git diff, git apply -----

  /** How one file's part of a patch applies: from its old and new content in the patch, and the
      content it finds, to the content it leaves, unless it does not apply. */
  type Edit = (File, File, File) -> Option<File>

  function Touched(from: Tree, to: Tree): set<string> {
    set path | path in from.Keys + to.Keys && FileAt(from, path) != FileAt(to, path)
  }

  predicate Applies(edit: Edit, from: Tree, to: Tree, live: Tree) {
    forall path :: path in Touched(from, to) ==> edit(FileAt(from, path), FileAt(to, path), FileAt(live, path)).Some?
  }

  function Patched(edit: Edit, from: Tree, to: Tree, live: Tree): Tree
    requires Applies(edit, from, to, live)
  {
    var touched := Touched(from, to);
    var kept := map path | path in live && path !in touched :: live[path];
    var written := map path | path in touched
      && edit(FileAt(from, path), FileAt(to, path), FileAt(live, path)).value.Some?
                     :: edit(FileAt(from, path), FileAt(to, path), FileAt(live, path)).value.value;
    kept + written
  }

  /** A hunk that finds exactly what it was made from leaves exactly what it was made to. */
  ghost predicate ExactEdit(edit: Edit) {
    forall before, after :: edit(before, after, before) == Some(after)
  }

  // ----- one pusher -----

  datatype Result =
    | Pushed(sha: Sha)
    | StaleHead | BranchMissing | NothingToPush | HeadUnchanged
    | GitFailed | PushFailed | VerifyFailed

  datatype Phase =
    | Reading
    | Replaying(live: Sha)
    | Pushing(lease: Option<Sha>, local: Sha)
    | Verifying(local: Sha)
    | Done(result: Result)

  /** `expected` is the captured head, none when the branch is expected to be missing; `start`
      is the local HEAD the call began with, `head` what is checked out now. */
  datatype Pusher = Pusher(expected: Option<Sha>, start: Sha, head: Sha, dirty: bool, phase: Phase)

  datatype PushFault = NoFault | NotSent | SentButUnconfirmed

  /** What git answers during one step. */
  datatype Git = Git(
    isAncestor: (Sha, Sha) -> bool,
    fetched: bool,
    edit: Edit,
    restored: bool,
    committed: Option<Sha>,
    push: PushFault)

  datatype State = State(remote: Option<Sha>, store: Store, pushers: seq<Pusher>)

  // ----- the steps of safe_push -----

  /** Ready to push `local`, unless it is the head it would replace. */
  function ToPush(lease: Option<Sha>, local: Sha): Phase {
    if lease == Some(local) then Done(HeadUnchanged) else Pushing(lease, local)
  }

  function AfterRead(p: Pusher, remote: Option<Sha>, g: Git): Phase {
    if p.expected.None? then
      if remote.Some? then Done(StaleHead) else ToPush(None, p.head)
    else if remote.None? then Done(BranchMissing)
    else if remote == p.expected then ToPush(p.expected, p.head)
    else if p.head == p.expected.value then Done(NothingToPush)
    else if !g.isAncestor(p.expected.value, p.head) then Done(StaleHead)
    else Replaying(remote.value)
  }

  datatype Replayed = Replayed(store: Store, head: Sha, phase: Phase)

  /** `_replay_onto_moved_remote_head`, and what its caller makes of its answer. */
  function Replay(expected: Sha, head: Sha, dirty: bool, live: Sha, store: Store, g: Git): Replayed {
    var from, to := TreeOf(store, expected), TreeOf(store, head);
    if dirty || Touched(from, to) == {} || !g.fetched || live !in store then Replayed(store, head, Done(StaleHead))
    else if !Applies(g.edit, from, to, store[live].tree) then
      if g.restored then Replayed(store, head, Done(StaleHead)) else Replayed(store, live, Done(GitFailed))
    else if g.committed.None? || g.committed.value in store then Replayed(store, live, Done(GitFailed))
    else
      var commit := Commit([live], Patched(g.edit, from, to, store[live].tree));
      Replayed(store[g.committed.value := commit], g.committed.value, ToPush(Some(live), g.committed.value))
  }

  /** `--force-with-lease`: the ref changes only from the leased value; a ref already at the
      pushed commit is up to date. */
  function PushedRef(remote: Option<Sha>, lease: Option<Sha>, local: Sha, g: Git): Option<Sha> {
    if g.push != NotSent && remote == lease then Some(local) else remote
  }

  predicate PushSucceeds(remote: Option<Sha>, lease: Option<Sha>, local: Sha, g: Git) {
    g.push == NoFault && (remote == lease || remote == Some(local))
  }

  function PusherStep(s: State, i: nat, g: Git): State
    requires i < |s.pushers|
  {
    var p := s.pushers[i];
    match p.phase
    case Reading => s.(pushers := s.pushers[i := p.(phase := AfterRead(p, s.remote, g))])
    case Replaying(live) =>
      if p.expected.None? then s
      else
        var r := Replay(p.expected.value, p.head, p.dirty, live, s.store, g);
        s.(store := r.store, pushers := s.pushers[i := p.(head := r.head, phase := r.phase)])
    case Pushing(lease, local) =>
      var phase := if PushSucceeds(s.remote, lease, local, g) then Verifying(local) else Done(PushFailed);
      s.(remote := PushedRef(s.remote, lease, local, g), pushers := s.pushers[i := p.(phase := phase)])
    case Verifying(local) =>
      s.(pushers := s.pushers[i := p.(phase := Done(if s.remote == Some(local) then Pushed(local) else VerifyFailed))])
    case Done(_) => s
  }

  /** Anyone's step: one of our pushers, or another writer moving the ref or adding commits. */
  datatype Step = Ours(i: nat, git: Git) | Theirs(remote: Option<Sha>, commits: Store)

  function Next(s: State, step: Step): State {
    match step
    case Ours(i, g) => if i < |s.pushers| then PusherStep(s, i, g) else s
    case Theirs(remote, commits) => s.(remote := remote, store := commits + s.store)
  }

  function Run(s: State, steps: seq<Step>, n: nat): State
    requires n <= |steps|
  {
    if n == 0 then s else Next(Run(s, steps, n - 1), steps[n - 1])
  }

  ghost predicate Initial(s: State) {
    forall i :: 0 <= i < |s.pushers| ==> s.pushers[i].phase == Reading && s.pushers[i].head == s.pushers[i].start
  }

  // ----- what a pusher is about to push -----

  /** The content a replay leaves: other people's files where our work did not touch them, our
      files where theirs did not change them. */
  ghost predicate KeepsBoth(base: Tree, ours: Tree, theirs: Tree, result: Tree) {
    && (forall path :: SameAt(base, ours, path) ==> SameAt(result, theirs, path))
    && (forall path :: SameAt(base, theirs, path) ==> SameAt(result, ours, path))
  }

  /** Both trees have the file with the same content, or neither has it. */
  ghost predicate SameAt(a: Tree, b: Tree, path: string) {
    (path in a <==> path in b) && (path in a ==> a[path] == b[path])
  }

  lemma SameExactlyWhen(a: Tree, b: Tree, path: string)
    ensures SameAt(a, b, path) <==> FileAt(a, path) == FileAt(b, path)
  {
  }

  /** A patch that applies leaves each file it changes as its hunks leave it, and where only one side
      changed a file, as that side has it. */
  lemma PatchKeepsBoth(edit: Edit, base: Tree, ours: Tree, theirs: Tree)
    requires ExactEdit(edit) && Applies(edit, base, ours, theirs)
    ensures KeepsBoth(base, ours, theirs, Patched(edit, base, ours, theirs))
    ensures forall path :: !SameAt(base, ours, path) ==>
              edit(FileAt(base, path), FileAt(ours, path), FileAt(theirs, path))
              == Some(FileAt(Patched(edit, base, ours, theirs), path))
  {
    var result := Patched(edit, base, ours, theirs);
    forall path | !SameAt(base, ours, path)
      ensures edit(FileAt(base, path), FileAt(ours, path), FileAt(theirs, path)) == Some(FileAt(result, path))
    {
      SameExactlyWhen(base, ours, path);
      assert path in Touched(base, ours);
    }
    forall path | SameAt(base, theirs, path)
      ensures SameAt(result, ours, path)
    {
      if path in Touched(base, ours) {
        assert edit(FileAt(base, path), FileAt(ours, path), FileAt(theirs, path)) == Some(FileAt(ours, path));
      }
    }
  }

  /** `local` is a replay of the pusher's own work onto `live`. */
  ghost predicate IsReplay(store: Store, p: Pusher, live: Sha, local: Sha) {
    && p.expected.Some? && p.expected.value in store && p.start in store && live in store && local in store
    && store[local].parents == [live]
    && KeepsBoth(store[p.expected.value].tree, store[p.start].tree, store[live].tree, store[local].tree)
  }

  /** What may be pushed over what: the captured head or a missing ref, by the local HEAD; or
      the head seen last, by a replay onto it. */
  ghost predicate Justified(store: Store, p: Pusher, lease: Option<Sha>, local: Sha) {
    || (lease == p.expected && local == p.start)
    || (lease.Some? && lease != p.expected && !p.dirty && IsReplay(store, p, lease.value, local))
  }

  ghost predicate Sound(store: Store, p: Pusher) {
    && (p.phase.Reading? || p.phase.Replaying? ==> p.head == p.start)
    && (p.phase.Replaying? ==>
        p.expected.Some? && p.expected.value != p.phase.live && p.expected.value in store && p.start in store)
    && (p.phase.Pushing? ==> Justified(store, p, p.phase.lease, p.phase.local) && p.phase.lease != Some(p.phase.local))
  }

  ghost predicate Invariant(s: State) {
    forall i :: 0 <= i < |s.pushers| ==> Sound(s.store, s.pushers[i])
  }

  /** Commits are never changed or lost. */
  ghost predicate Grows(before: Store, after: Store) {
    forall sha :: sha in before ==> sha in after && after[sha] == before[sha]
  }

  /** Hunks apply as git applies them, and only present commits are called ancestors. */
  ghost predicate GoodStep(s: State, step: Step) {
    step.Ours? ==>
      && ExactEdit(step.git.edit)
      && forall a, b :: step.git.isAncestor(a, b) ==> a in s.store && b in s.store
  }

  lemma SoundStays(before: Store, after: Store, p: Pusher)
    requires Sound(before, p) && Grows(before, after)
    ensures Sound(after, p)
  {
  }

  lemma ReplayIsSound(s: State, i: nat, g: Git)
    requires i < |s.pushers| && Sound(s.store, s.pushers[i]) && GoodStep(s, Ours(i, g)) && s.pushers[i].phase.Replaying?
    ensures Grows(s.store, PusherStep(s, i, g).store)
    ensures Sound(PusherStep(s, i, g).store, PusherStep(s, i, g).pushers[i])
  {
    var p := s.pushers[i];
    var live := p.phase.live;
    var from, to := TreeOf(s.store, p.expected.value), TreeOf(s.store, p.head);
    if live in s.store && Applies(g.edit, from, to, s.store[live].tree) {
      PatchKeepsBoth(g.edit, from, to, s.store[live].tree);
    }
  }

  lemma StepKeepsInvariant(s: State, step: Step)
    requires Invariant(s) && GoodStep(s, step)
    ensures Invariant(Next(s, step)) && Grows(s.store, Next(s, step).store)
  {
    var after := Next(s, step);
    if step.Ours? && step.i < |s.pushers| && s.pushers[step.i].phase.Replaying? { ReplayIsSound(s, step.i, step.git); }
    assert Grows(s.store, after.store);
    forall k | 0 <= k < |after.pushers|
      ensures Sound(after.store, after.pushers[k])
    {
      SoundStays(s.store, after.store, s.pushers[k]);
    }
  }

  ghost predicate GoodRun(s: State, steps: seq<Step>, n: nat)
    requires n <= |steps|
  {
    n == 0 || (GoodRun(s, steps, n - 1) && GoodStep(Run(s, steps, n - 1), steps[n - 1]))
  }

  lemma {:induction false} RunKeepsInvariant(s: State, steps: seq<Step>, n: nat)
    requires n <= |steps| && Initial(s) && GoodRun(s, steps, n)
    ensures Invariant(Run(s, steps, n))
  {
    if n > 0 {
      RunKeepsInvariant(s, steps, n - 1);
      StepKeepsInvariant(Run(s, steps, n - 1), steps[n - 1]);
    }
  }

  /** No lost update, over any interleaving: whenever one of our pushers changes the remote ref,
      it replaces exactly its captured head (or a missing ref) by its local HEAD, or, from a clean
      checkout, it lands a replay whose only parent is the head it replaces and which keeps both
      sides' files. */
  lemma NoLostUpdate(s: State, steps: seq<Step>, n: nat)
    requires n < |steps| && Initial(s) && GoodRun(s, steps, n + 1) && steps[n].Ours?
    requires Run(s, steps, n + 1).remote != Run(s, steps, n).remote
    ensures var before, after := Run(s, steps, n), Run(s, steps, n + 1);
            && steps[n].i < |before.pushers| && after.remote.Some?
            && var p := before.pushers[steps[n].i];
               || (before.remote == p.expected && after.remote.value == p.start)
               || (before.remote.Some? && !p.dirty
                   && IsReplay(before.store, p, before.remote.value, after.remote.value))
  {
    RunKeepsInvariant(s, steps, n);
    assert Sound(Run(s, steps, n).store, Run(s, steps, n).pushers[steps[n].i]);
  }

  // ----- errors -----

  /** The results that mean the push command itself was never given. */
  predicate BeforePush(r: Result) {
    r == StaleHead || r == BranchMissing || r == NothingToPush || r == HeadUnchanged || r == GitFailed
  }

  predicate TouchedRemote(s: State, steps: seq<Step>, i: nat, n: nat)
    requires n <= |steps|
  {
    n > 0 && (TouchedRemote(s, steps, i, n - 1)
              || (steps[n - 1].Ours? && steps[n - 1].i == i && Run(s, steps, n).remote != Run(s, steps, n - 1).remote))
  }

  lemma {:induction false} OneWriteAtMost(s: State, steps: seq<Step>, i: nat, n: nat)
    requires n <= |steps| && Initial(s)
    ensures |Run(s, steps, n).pushers| == |s.pushers|
    ensures i < |s.pushers| && TouchedRemote(s, steps, i, n) ==>
              var phase := Run(s, steps, n).pushers[i].phase;
              phase.Verifying? || (phase.Done? && !BeforePush(phase.result))
    ensures i >= |s.pushers| ==> !TouchedRemote(s, steps, i, n)
  {
    if n > 0 { OneWriteAtMost(s, steps, i, n - 1); }
  }

  /** Every error raised before the push leaves the remote as the others made it. */
  lemma EarlyErrorsTouchNothing(s: State, steps: seq<Step>, i: nat, n: nat)
    requires n <= |steps| && Initial(s) && i < |s.pushers| && |Run(s, steps, n).pushers| == |s.pushers|
    requires Run(s, steps, n).pushers[i].phase.Done? && BeforePush(Run(s, steps, n).pushers[i].phase.result)
    ensures !TouchedRemote(s, steps, i, n)
  {
    OneWriteAtMost(s, steps, i, n);
  }

  // ----- what a result says -----

  /** The step at `n` is the pusher's own, and ends its call with `r`. */
  ghost predicate EndsWith(s: State, steps: seq<Step>, n: nat, i: nat, r: Result) {
    && n < |steps| && steps[n].Ours? && steps[n].i == i && i < |Run(s, steps, n).pushers|
    && !Run(s, steps, n).pushers[i].phase.Done? && Run(s, steps, n + 1).pushers[i].phase == Done(r)
  }

  /** The push of `local` went through at step `m`: no fault, and the branch stood at `local`. */
  ghost predicate PushedAt(s: State, steps: seq<Step>, m: nat, i: nat, local: Sha) {
    && m < |steps| && steps[m].Ours? && steps[m].i == i && i < |Run(s, steps, m).pushers|
    && steps[m].git.push == NoFault && Run(s, steps, m + 1).remote == Some(local)
  }

  lemma {:induction false} VerifiesItsPush(s: State, steps: seq<Step>, i: nat, n: nat) returns (m: nat)
    requires n <= |steps| && Initial(s) && i < |Run(s, steps, n).pushers|
    requires Run(s, steps, n).pushers[i].phase.Verifying?
    ensures m < n && PushedAt(s, steps, m, i, Run(s, steps, n).pushers[i].phase.local)
  {
    var before := Run(s, steps, n - 1);
    if i < |before.pushers| && before.pushers[i].phase == Run(s, steps, n).pushers[i].phase {
      m := VerifiesItsPush(s, steps, i, n - 1);
    } else {
      m := n - 1;
    }
  }

  /** A call reports a push exactly where its verification finds the branch at the very commit it
      pushed, and a failed verification exactly where it finds it elsewhere. */
  lemma VerificationDecides(s: State, steps: seq<Step>, n: nat, i: nat, r: Result) returns (m: nat)
    requires Initial(s) && EndsWith(s, steps, n, i, r) && (r.Pushed? || r == VerifyFailed)
    ensures m < n && exists local :: PushedAt(s, steps, m, i, local)
                       && r == (if Run(s, steps, n).remote == Some(local) then Pushed(local) else VerifyFailed)
    ensures Run(s, steps, n + 1).remote == Run(s, steps, n).remote
  {
    m := VerifiesItsPush(s, steps, i, n);
  }

  /** A failed push is reported exactly where git faults or the branch has left the lease. */
  lemma PushDecides(s: State, i: nat, g: Git)
    requires i < |s.pushers| && s.pushers[i].phase.Pushing?
    ensures var lease, local := s.pushers[i].phase.lease, s.pushers[i].phase.local;
            var phase := Next(s, Ours(i, g)).pushers[i].phase;
            && (phase == Done(PushFailed) <==> g.push != NoFault || (s.remote != lease && s.remote != Some(local)))
            && (phase != Done(PushFailed) ==> phase == Verifying(local) && Next(s, Ours(i, g)).remote == Some(local))
            && (s.remote != lease ==> Next(s, Ours(i, g)).remote == s.remote)
  {
  }

  lemma {:induction false} NobodyWrites(s: State, steps: seq<Step>, m: nat, n: nat, i: nat)
    requires m <= n <= |steps| && i < |Run(s, steps, m).pushers|
    requires forall k :: m <= k < n ==> Run(s, steps, k + 1).remote == Run(s, steps, k).remote
                                        && !(steps[k].Ours? && steps[k].i == i)
    ensures Run(s, steps, n).remote == Run(s, steps, m).remote && i < |Run(s, steps, n).pushers|
    ensures Run(s, steps, n).pushers[i] == Run(s, steps, m).pushers[i]
  {
    if m < n { NobodyWrites(s, steps, m, n - 1, i); }
  }

  /** A push that goes through on its lease, with nobody else writing before its verification,
      is reported as pushed, and its commit stands on the branch. */
  lemma UndisturbedPushIsReported(s: State, steps: seq<Step>, m: nat, n: nat, i: nat, lease: Option<Sha>, local: Sha)
    requires m < n < |steps| && i < |Run(s, steps, m).pushers| && steps[n].Ours? && steps[n].i == i
    requires steps[m].Ours? && steps[m].i == i && steps[m].git.push == NoFault
    requires Run(s, steps, m).remote == lease && Run(s, steps, m).pushers[i].phase == Pushing(lease, local)
    requires forall k :: m < k < n ==> Run(s, steps, k + 1).remote == Run(s, steps, k).remote
                                       && !(steps[k].Ours? && steps[k].i == i)
    ensures var after := Run(s, steps, n + 1);
            i < |after.pushers| && after.pushers[i].phase == Done(Pushed(local)) && after.remote == Some(local)
  {
    PushDecides(Run(s, steps, m), i, steps[m].git);
    NobodyWrites(s, steps, m + 1, n, i);
  }

  /** What the first look at the branch decides: each early result exactly under its own condition. */
  lemma FirstLookDecides(s: State, i: nat, g: Git)
    requires i < |s.pushers| && s.pushers[i].phase.Reading?
    ensures var p, phase := s.pushers[i], Next(s, Ours(i, g)).pushers[i].phase;
            && (phase == Done(BranchMissing) <==> p.expected.Some? && s.remote.None?)
            && (phase == Done(HeadUnchanged) <==> s.remote == p.expected == Some(p.head))
            && (phase.Pushing? <==> s.remote == p.expected != Some(p.head))
            && (phase.Pushing? ==> phase == Pushing(p.expected, p.head))
            && (s.remote.Some? && s.remote != p.expected ==>
                  && (phase == Done(NothingToPush) <==> p.expected == Some(p.head))
                  && (phase.Replaying? <==>
                        p.expected.Some? && p.head != p.expected.value && g.isAncestor(p.expected.value, p.head))
                  && (phase.Replaying? ==> s.remote == Some(phase.live))
                  && (phase == Done(StaleHead) <==>
                        p.expected.None? || (p.head != p.expected.value && !g.isAncestor(p.expected.value, p.head))))
  {
  }

  /** What the replay decides. Where there is nothing to replay, the branch cannot be fetched, or the
      patch does not apply and the checkout is back as it was, the head is stale; git fails where the
      checkout cannot be restored or the commit is not made; else the replay is about to be pushed
      onto the head it was made for. */
  lemma ReplayDecides(s: State, i: nat, g: Git)
    requires i < |s.pushers| && s.pushers[i].phase.Replaying? && s.pushers[i].expected.Some?
    ensures var p, after := s.pushers[i], Next(s, Ours(i, g));
            var live, q := p.phase.live, after.pushers[i];
            var from := if p.expected.value in s.store then s.store[p.expected.value].tree else map[];
            var to := if p.head in s.store then s.store[p.head].tree else map[];
            var idle := p.dirty || (forall path :: SameAt(from, to, path)) || !g.fetched || live !in s.store;
            var applies := live in s.store && Applies(g.edit, from, to, s.store[live].tree);
            var commits := g.committed.Some? && g.committed.value !in s.store;
            && (q.phase == Done(StaleHead) <==> idle || (!applies && g.restored))
            && (q.phase == Done(StaleHead) ==> q.head == p.head && after.store == s.store)
            && (q.phase == Done(GitFailed) <==> !idle && (if applies then !commits else !g.restored))
            && (!idle && applies && commits ==>
                  && g.committed.value != live && q.head == g.committed.value
                  && q.phase == Pushing(Some(live), q.head)
                  && q.head in after.store && after.store[q.head].parents == [live])
            && after.remote == s.remote
  {
    var p := s.pushers[i];
    var from, to := TreeOf(s.store, p.expected.value), TreeOf(s.store, p.head);
    TouchesNothing(from, to);
  }

  lemma TouchesNothing(from: Tree, to: Tree)
    ensures Touched(from, to) == {} <==> forall path :: SameAt(from, to, path)
  {
    if Touched(from, to) == {} {
      forall path
        ensures SameAt(from, to, path)
      {
        assert path !in Touched(from, to);
      }
    } else {
      var path :| path in Touched(from, to);
      SameExactlyWhen(from, to, path);
    }
  }

  // ----- the branch's history -----

  ghost predicate IsPath(store: Store, path: seq<Sha>) {
    forall k :: 0 < k < |path| ==> path[k] in store && path[k - 1] in store[path[k]].parents
  }

  ghost predicate PathFrom(store: Store, path: seq<Sha>, ancestor: Sha, descendant: Sha) {
    |path| > 0 && path[0] == ancestor && path[|path| - 1] == descendant && IsPath(store, path)
  }

  ghost predicate Ancestor(store: Store, ancestor: Sha, descendant: Sha) {
    exists path :: PathFrom(store, path, ancestor, descendant)
  }

  lemma AncestorIsReflexive(store: Store, a: Sha)
    ensures Ancestor(store, a, a)
  {
    assert PathFrom(store, [a], a, a);
  }

  lemma AncestorIsTransitive(store: Store, a: Sha, b: Sha, c: Sha)
    requires Ancestor(store, a, b) && Ancestor(store, b, c)
    ensures Ancestor(store, a, c)
  {
    var first :| PathFrom(store, first, a, b);
    var second :| PathFrom(store, second, b, c);
    var path := first + second[1..];
    forall k | 0 < k < |path|
      ensures path[k] in store && path[k - 1] in store[path[k]].parents
    {
      if k >= |first| {
        var j := k - |first| + 1;
        assert path[k] == second[j] && path[k - 1] == second[j - 1];
      }
    }
    assert PathFrom(store, path, a, c);
  }

  lemma ParentIsAncestor(store: Store, parent: Sha, child: Sha)
    requires child in store && parent in store[child].parents
    ensures Ancestor(store, parent, child)
  {
    assert PathFrom(store, [parent, child], parent, child);
  }

  lemma AncestorStays(before: Store, after: Store, a: Sha, b: Sha)
    requires Grows(before, after) && Ancestor(before, a, b)
    ensures Ancestor(after, a, b)
  {
    var path :| PathFrom(before, path, a, b);
    assert PathFrom(after, path, a, b);
  }

  ghost predicate Keeps(s: State, t: State) {
    && Grows(s.store, t.store)
    && (s.remote.Some? ==> t.remote.Some? && Ancestor(t.store, s.remote.value, t.remote.value))
  }

  /** Step `n` replaced the captured head by the local HEAD, without a replay. */
  ghost predicate LandsDirectly(s: State, steps: seq<Step>, n: nat)
    requires n < |steps|
  {
    var before, after := Run(s, steps, n), Run(s, steps, n + 1);
    && steps[n].Ours? && steps[n].i < |before.pushers| && before.remote.Some? && after.remote != before.remote
    && before.remote == before.pushers[steps[n].i].expected && after.remote == Some(before.pushers[steps[n].i].start)
  }

  /** The repair that lands directly was made on top of the head captured for it. */
  ghost predicate IsBuiltOnCaptured(s: State, steps: seq<Step>, n: nat)
    requires n < |steps|
  {
    LandsDirectly(s, steps, n) ==>
      var p := Run(s, steps, n).pushers[steps[n].i];
      Ancestor(Run(s, steps, n).store, p.expected.value, p.start)
  }

  lemma RemoteStepKeepsStore(s: State, step: Step)
    requires step.Ours? && Next(s, step).remote != s.remote
    ensures Next(s, step).store == s.store
  {
  }

  /** A step of one of our pushers keeps the branch's history exactly when, if it lands local work
      without a replay, that work was built on the head it replaces. A replay always keeps it. */
  lemma StepKeepsHistoryExactlyWhen(s: State, steps: seq<Step>, n: nat)
    requires n < |steps| && Initial(s) && GoodRun(s, steps, n + 1) && steps[n].Ours?
    ensures Keeps(Run(s, steps, n), Run(s, steps, n + 1)) <==> IsBuiltOnCaptured(s, steps, n)
  {
    var before, after := Run(s, steps, n), Run(s, steps, n + 1);
    RunKeepsInvariant(s, steps, n);
    StepKeepsInvariant(before, steps[n]);
    hide Invariant, GoodStep, Next, Ancestor, IsPath;
    if before.remote.Some? {
      if after.remote == before.remote {
        AncestorIsReflexive(after.store, before.remote.value);
      } else {
        RemoteStepKeepsStore(before, steps[n]);
        NoLostUpdate(s, steps, n);
        var p := before.pushers[steps[n].i];
        if !(before.remote == p.expected && after.remote.value == p.start) {
          ParentIsAncestor(after.store, before.remote.value, after.remote.value);
        }
      }
    }
  }

  /** While only our pushers write the branch, and what they land directly is built on the head it
      replaces, its history only ever grows: whatever head the branch had at any time is an ancestor
      of every later head. */
  lemma {:induction false} HistoryOnlyGrows(s: State, steps: seq<Step>, m: nat, n: nat)
    requires m <= n <= |steps| && Initial(s) && GoodRun(s, steps, n)
    requires forall k :: m <= k < n ==> steps[k].Ours? && IsBuiltOnCaptured(s, steps, k)
    ensures Keeps(Run(s, steps, m), Run(s, steps, n))
  {
    hide Next, Ancestor, GoodStep, IsBuiltOnCaptured, Initial;
    if m == n {
      if Run(s, steps, m).remote.Some? { AncestorIsReflexive(Run(s, steps, m).store, Run(s, steps, m).remote.value); }
    } else {
      var first, mid, last := Run(s, steps, m), Run(s, steps, n - 1), Run(s, steps, n);
      HistoryOnlyGrows(s, steps, m, n - 1);
      StepKeepsHistoryExactlyWhen(s, steps, n - 1);
      if first.remote.Some? {
        AncestorStays(mid.store, last.store, first.remote.value, mid.remote.value);
        AncestorIsTransitive(last.store, first.remote.value, mid.remote.value, last.remote.value);
      }
    }
  }

  lemma RootHasNoAncestor(store: Store, a: Sha, root: Sha)
    requires root in store && store[root].parents == [] && a != root
    ensures !Ancestor(store, a, root)
  {
    forall path
      ensures !PathFrom(store, path, a, root)
    {
      var k := |path| - 1;
      assert IsPath(store, path) && k > 0 ==> path[k] in store && path[k - 1] in store[path[k]].parents;
    }
  }

  /** The script does not look at the local work where the remote has not moved: work with another
      root replaces the captured head, whose history is gone. */
  lemma UnbuiltPushDropsHistory(captured: Sha, ours: Sha, g: Git) returns (s: State, steps: seq<Step>)
    requires captured != ours && g.push == NoFault && ExactEdit(g.edit) && forall a, b :: !g.isAncestor(a, b)
    ensures |steps| == 2 && Initial(s) && GoodRun(s, steps, 2) && s.remote == Some(captured)
    ensures Run(s, steps, 2).remote == Some(ours) && !Ancestor(Run(s, steps, 2).store, captured, ours)
  {
    var store := map[captured := Commit([], map[]), ours := Commit([], map[])];
    s := State(Some(captured), store, [Pusher(Some(captured), ours, ours, false, Reading)]);
    steps := [Ours(0, g), Ours(0, g)];
    assert Run(s, steps, 0) == s;
    assert Run(s, steps, 1)
           == State(Some(captured), store, [Pusher(Some(captured), ours, ours, false, Pushing(Some(captured), ours))]);
    assert GoodRun(s, steps, 0) && GoodRun(s, steps, 1);
    assert Run(s, steps, 2).store == store && Run(s, steps, 2).remote == Some(ours);
    RootHasNoAncestor(store, captured, ours);
  }

  // ----- the call itself, on one checkout -----

  /** The k-th thing other writers do, and git's answers, in each of the call's four rounds. */
  datatype World = World(remotes: nat -> Option<Sha>, commits: nat -> Store, git: nat -> Git)

  function Rounds(s: State, w: World, n: nat): State {
    if n == 0 then s
    else Next(Next(Rounds(s, w, n - 1), Theirs(w.remotes(n - 1), w.commits(n - 1))), Ours(0, w.git(n - 1)))
  }

  lemma NextRound(s: State, w: World, n: nat, now: State)
    requires Rounds(s, w, n) == now && |now.pushers| == 1
    ensures Rounds(s, w, n + 1) == PusherStep(State(w.remotes(n), w.commits(n) + now.store, now.pushers), 0, w.git(n))
  {
  }

  function Schedule(w: World): seq<Step> {
    seq(8, k requires k >= 0 => if k % 2 == 0 then Theirs(w.remotes(k / 2), w.commits(k / 2))
        else Ours(0, w.git(k / 2)))
  }

  /** The call is one of the interleavings above. */
  lemma {:induction false} RoundsAreARun(s: State, w: World, n: nat)
    requires n <= 4
    ensures Rounds(s, w, n) == Run(s, Schedule(w), 2 * n)
  {
    hide Next;
    if n > 0 {
      RoundsAreARun(s, w, n - 1);
      var steps := Schedule(w);
      assert steps[2 * n - 2] == Theirs(w.remotes(n - 1), w.commits(n - 1))
             && steps[2 * n - 1] == Ours(0, w.git(n - 1));
      assert Run(s, steps, 2 * n - 1) == Next(Run(s, steps, 2 * n - 2), steps[2 * n - 2]);
    }
  }

  class Checkout {
    var remote: Option<Sha>
    var store: Store
    var head: Sha
    var dirty: bool

    function StateWith(expected: Option<Sha>, start: Sha, phase: Phase): State
      reads this
    {
      State(remote, store, [Pusher(expected, start, head, dirty, phase)])
    }

    /** Other pushers run between any two of our commands. */
    method Interfere(w: World, round: nat)
      modifies `remote, `store
      ensures remote == w.remotes(round) && store == w.commits(round) + old(store)
    {
      remote := w.remotes(round);
      store := w.commits(round) + store;
    }

    /** None where the work cannot be replayed; `failed` where git raised past the call. */
    method ReplayOntoMovedRemoteHead(expected: Sha, live: Sha, g: Git) returns (replayed: Option<Sha>, failed: bool)
      modifies `store, `head
      ensures var r := Replay(expected, old(head), dirty, live, old(store), g);
              && store == r.store && head == r.head
              && r.phase == if failed then Done(GitFailed) else if replayed.None? then Done(StaleHead)
              else ToPush(Some(live), head)
    {
      replayed, failed := None, false;
      if dirty { return; }
      var from, to := TreeOf(store, expected), TreeOf(store, head);
      if Touched(from, to) == {} { return; }
      if !g.fetched || live !in store { return; }
      var before := head;
      head := live;
      if !Applies(g.edit, from, to, store[live].tree) {
        if !g.restored { return None, true; }
        head := before;
        return;
      }
      if g.committed.None? || g.committed.value in store { return None, true; }
      store := store[g.committed.value := Commit([live], Patched(g.edit, from, to, store[live].tree))];
      head := g.committed.value;
      replayed := Some(head);
    }

    /** The first half of `safe_push`: what may be replaced, or why there is nothing to push. */
    method TakeLease(expected: Option<Sha>, w: World) returns (stop: Option<Result>, lease: Option<Sha>, round: nat)
      modifies this
      ensures 1 <= round <= 2 && dirty == old(dirty)
      ensures Rounds(old(StateWith(expected, head, Reading)), w, round)
              == StateWith(expected, old(head), if stop.Some? then Done(stop.value) else ToPush(lease, head))
      ensures stop == Some(BranchMissing) <==> expected.Some? && w.remotes(0).None?
      ensures stop == Some(NothingToPush) <==> w.remotes(0).Some? && w.remotes(0) != expected == Some(old(head))
      ensures w.remotes(0) == expected ==> stop.None? && lease == expected && round == 1 && head == old(head)
      ensures stop.Some? ==> stop.value == BranchMissing || stop.value == NothingToPush || stop.value == StaleHead
                             || stop.value == GitFailed
    {
      hide Replay, ToPush;
      ghost var initial := StateWith(expected, head, Reading);
      Interfere(w, 0);
      assert Rounds(initial, w, 1)
             == StateWith(expected, head, AfterRead(Pusher(expected, head, head, dirty, Reading), remote, w.git(0)));
      var live := remote;
      if expected.None? { return if live.Some? then Some(StaleHead) else None, None, 1; }
      if live.None? { return Some(BranchMissing), None, 1; }
      if live == expected { return None, expected, 1; }
      if head == expected.value { return Some(NothingToPush), None, 1; }
      if !w.git(0).isAncestor(expected.value, head) { return Some(StaleHead), None, 1; }
      assert Rounds(initial, w, 1) == StateWith(expected, head, Replaying(live.value));
      Interfere(w, 1);
      var replayed, failed := ReplayOntoMovedRemoteHead(expected.value, live.value, w.git(1));
      return if failed then Some(GitFailed) else if replayed.None? then Some(StaleHead) else None, live, 2;
    }

    /** The second half: the push, and its verification. */
    method PushAndVerify(ghost expected: Option<Sha>, ghost start: Sha, ghost initial: State, lease: Option<Sha>,
                         pushed: Sha, w: World, round: nat)
      returns (r: Result, ghost n: nat)
      requires round <= 2 && Rounds(initial, w, round) == StateWith(expected, start, Pushing(lease, pushed))
      modifies `remote, `store
      ensures n <= 4 && Rounds(initial, w, n) == StateWith(expected, start, Done(r))
      ensures r.Pushed? || r == VerifyFailed || r == PushFailed
      ensures r.Pushed? ==> r.sha == pushed && remote == Some(pushed)
      ensures r == VerifyFailed ==> remote != Some(pushed)
      ensures w.remotes(round) == lease && w.git(round).push == NoFault && w.remotes(round + 1) == Some(pushed) ==>
                r == Pushed(pushed)
    {
      hide Rounds, Next;
      NextRound(initial, w, round, StateWith(expected, start, Pushing(lease, pushed)));
      Interfere(w, round);
      var g, answered := w.git(round), remote == lease || remote == Some(pushed);
      if remote == lease && g.push != NotSent { remote := Some(pushed); }
      if !answered || g.push != NoFault { return PushFailed, round + 1; }
      NextRound(initial, w, round + 1, StateWith(expected, start, Verifying(pushed)));
      Interfere(w, round + 1);
      if remote != Some(pushed) { return VerifyFailed, round + 2; }
      return Pushed(pushed), round + 2;
    }

    /** `safe_push`: the state it leaves is the one the protocol reaches after `n` rounds. It reports
        a push only of the commit checked out, with the branch at it, and does so wherever nobody
        moves the branch and git does not fail. */
    method SafePush(expected: Option<Sha>, w: World) returns (r: Result, ghost n: nat)
      modifies this
      ensures n <= 4 && dirty == old(dirty)
      ensures StateWith(expected, old(head), Done(r)) == Rounds(old(StateWith(expected, head, Reading)), w, n)
      ensures r.Pushed? ==> r.sha == head && remote == Some(head)
      ensures r == VerifyFailed ==> remote != Some(head)
      ensures r == BranchMissing <==> expected.Some? && w.remotes(0).None?
      ensures r == NothingToPush <==> w.remotes(0).Some? && w.remotes(0) != expected == Some(old(head))
      ensures w.remotes(0) == w.remotes(1) == expected != Some(old(head)) && w.git(1).push == NoFault
                && w.remotes(2) == Some(old(head)) ==>
                r == Pushed(old(head))
    {
      hide Rounds;
      ghost var start, initial := head, StateWith(expected, head, Reading);
      var stop, lease, round := TakeLease(expected, w);
      if stop.Some? { return stop.value, round; }
      var pushed := head;
      if lease == Some(pushed) { return HeadUnchanged, round; }
      r, n := PushAndVerify(expected, start, initial, lease, pushed, w, round);
    }
  }
}
