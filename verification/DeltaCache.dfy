/** The main process's task cache: a replica fed by lossy, repeated and reordered deltas, the
    renderer that folds what it is sent, and recovery from an authoritative loader. */
module DeltaCache {
  import opened Wrappers

  /** A field's value: JSON text has no `undefined` and turns a date into its ISO string. */
  datatype Value = Undefined | DateTime(iso: string) | Json(text: string)

  type Fields = map<string, Value>

  datatype Task = Task(id: string, version: Option<int>, top: Fields, config: Fields, execution: Fields)

  datatype Changes = Changes(top: Fields, config: Fields, execution: Fields)

  datatype Delta =
    | Created(task: Task)
    | Updated(taskId: string, changes: Changes, version: int, previous: int)
    | Removed(taskId: string, previous: int)

  // ----- JSON.stringify and JSON.parse on tasks -----

  function Printed(v: Value): Value
    requires v != Undefined
  {
    if v.DateTime? then Json("\"" + v.iso + "\"") else v
  }

  function PrintedFields(f: Fields): Fields { map k | k in f && f[k] != Undefined :: Printed(f[k]) }

  /** What `JSON.parse(JSON.stringify(task))` gives back: the content of a snapshot. */
  function Snapshot(t: Task): Task {
    Task(t.id, t.version, PrintedFields(t.top), PrintedFields(t.config), PrintedFields(t.execution))
  }

  function VersionOf(t: Task): int { if t.version.Some? then t.version.value else 1 }

  /** The spread both sides merge with: a changed field wins, even when it is undefined. */
  function Merged(t: Task, c: Changes, version: int): Task {
    Task(t.id, Some(version), t.top + c.top, t.config + c.config, t.execution + c.execution)
  }

  lemma PrintedSpread(a: Fields, b: Fields)
    ensures PrintedFields(PrintedFields(a) + b) == PrintedFields(a + b)
  {
  }

  /** Merging into a parsed snapshot or into the task itself prints the same. */
  lemma MergePrints(t: Task, c: Changes, version: int)
    ensures Snapshot(Merged(Snapshot(t), c, version)) == Snapshot(Merged(t, c, version))
  {
    PrintedSpread(t.top, c.top);
    PrintedSpread(t.config, c.config);
    PrintedSpread(t.execution, c.execution);
  }

  /** What an update writes wins field by field, in each of the three groups; what it does not
      write stays; and the version is the update's. */
  lemma UpdateWritesFields(t: Task, c: Changes, version: int, k: string)
    ensures var m := Merged(t, c, version);
            && m.id == t.id && m.version == Some(version)
            && Wins(t.top, c.top, m.top, k) && Wins(t.config, c.config, m.config, k)
            && Wins(t.execution, c.execution, m.execution, k)
  {
  }

  ghost predicate Wins(before: Fields, changed: Fields, after: Fields, k: string) {
    && (k in after <==> k in before || k in changed)
    && (k in changed ==> after[k] == changed[k])
    && (k in before && k !in changed ==> after[k] == before[k])
  }

  // ----- the cache -----

  datatype Entry = Entry(snapshot: Task, version: int, quarantined: bool)

  type Entries = map<string, Entry>

  function Stored(e: Entries, key: string, t: Task): Entries { e[key := Entry(Snapshot(t), VersionOf(t), false)] }

  /** The entries after a delta, the ids to reload, and whether the delta goes to the renderer. */
  datatype Applied = Applied(entries: Entries, quarantined: seq<string>, accepted: bool)

  function Apply(e: Entries, d: Delta): Applied {
    match d
    case Created(t) =>
      if t.id in e && VersionOf(t) < e[t.id].version then Applied(e, [], false)
      else Applied(Stored(e, t.id, t), [], true)
    case Removed(id, previous) =>
      if id in e && previous < e[id].version then Applied(e, [], false) else Applied(e - {id}, [], true)
    case Updated(id, changes, version, previous) =>
      if id !in e then Applied(e, [id], false)
      else if e[id].quarantined || version <= e[id].version then Applied(e, [], false)
      else if e[id].version != previous then Applied(e[id := e[id].(quarantined := true)], [id], false)
      else Applied(e[id := e[id].(snapshot := Snapshot(Merged(e[id].snapshot, changes, version)), version := version)],
                   [], true)
  }

  // ----- recovery -----

  datatype Lookup = Found(task: Task) | Missing | Unavailable

  datatype Recovered = Recovered(entries: Entries, forward: Option<Delta>)

  const SYNTHETIC_MERGE_PREFIX := "__merge__"

  function Restored(e: Entries, id: string, t: Task): Recovered { Recovered(Stored(e, id, t), Some(Created(t))) }

  function Gone(e: Entries, id: string): Recovered {
    Recovered(e - {id}, Some(Removed(id, if id in e then e[id].version else 0)))
  }

  /** The authoritative answer for an id: the owner's, or for a synthetic merge id the orchestrator's. */
  function Authority(id: string, owner: Lookup, mergeNode: Lookup): Lookup {
    if owner.Found? || !(SYNTHETIC_MERGE_PREFIX <= id) then owner
    else if mergeNode.Missing? then owner
    else mergeNode
  }

  function Recover(e: Entries, id: string, owner: Lookup, mergeNode: Lookup): Recovered {
    match Authority(id, owner, mergeNode)
    case Found(t) => Restored(e, id, t)
    case Unavailable => Recovered(e, None)
    case Missing => Gone(e, id)
  }

  class TaskSnapshotCache {
    var entries: Entries

    constructor ()
      ensures entries == map[]
    {
      entries := map[];
    }

    method Set(id: string, t: Task)
      modifies this
      ensures entries == Stored(old(entries), id, t)
    {
      entries := entries[id := Entry(Snapshot(t), VersionOf(t), false)];
    }

    method Delete(id: string) returns (present: bool)
      modifies this
      ensures entries == old(entries) - {id} && present == (id in old(entries))
    {
      present := id in entries;
      entries := entries - {id};
    }

    method ApplyDelta(d: Delta) returns (quarantined: seq<string>, accepted: bool)
      modifies this
      ensures Applied(entries, quarantined, accepted) == Apply(old(entries), d)
    {
      quarantined, accepted := [], false;
      match d
      case Created(t) =>
        if t.id in entries && VersionOf(t) < entries[t.id].version { return; }
        Set(t.id, t);
        accepted := true;
      case Removed(id, previous) =>
        if id in entries && previous < entries[id].version { return; }
        var present := Delete(id);
        accepted := true;
      case Updated(id, changes, version, previous) =>
        if id in entries && entries[id].quarantined { return; }
        if id !in entries { return [id], false; }
        var entry := entries[id];
        if version <= entry.version { return; }
        if entry.version != previous {
          entries := entries[id := entry.(quarantined := true)];
          return [id], false;
        }
        entries := entries[id := entry.(snapshot := Snapshot(Merged(entry.snapshot, changes, version)),
                                        version := version)];
        accepted := true;
    }

    method ResolveQuarantine(id: string, task: Option<Task>)
      modifies this
      ensures entries == if task.Some? then Stored(old(entries), id, task.value) else old(entries) - {id}
    {
      if task.None? {
        var present := Delete(id);
        return;
      }
      Set(id, task.value);
    }

    method RecoverQuarantinedTask(id: string, owner: Lookup, mergeNode: Lookup) returns (forward: Option<Delta>)
      modifies this
      ensures Recovered(entries, forward) == Recover(old(entries), id, owner, mergeNode)
    {
      if owner.Found? {
        ResolveQuarantine(id, Some(owner.task));
        return Some(Created(owner.task));
      }
      if SYNTHETIC_MERGE_PREFIX <= id {
        if mergeNode.Found? {
          ResolveQuarantine(id, Some(mergeNode.task));
          return Some(Created(mergeNode.task));
        }
        if mergeNode.Unavailable? { return None; }
      }
      if owner.Unavailable? { return None; }
      var previous := if id in entries then entries[id].version else 0;
      ResolveQuarantine(id, None);
      return Some(Removed(id, previous));
    }
  }

  // ----- the renderer -----

  type Tasks = map<string, Task>

  function Folded(tasks: Tasks, d: Delta): Tasks {
    match d
    case Created(t) => tasks[t.id := t]
    case Removed(id, _) => tasks - {id}
    case Updated(id, changes, version, _) => if id in tasks then tasks[id := Merged(tasks[id], changes, version)]
    else tasks
  }

  /** The renderer's task map, printed, is the cache's snapshots. */
  ghost predicate Mirrors(tasks: Tasks, e: Entries) {
    && tasks.Keys == e.Keys
    && forall id :: id in e ==> Snapshot(tasks[id]) == e[id].snapshot
  }

  // ----- any interleaving of deliveries and recoveries -----

  datatype Step = Deliver(delta: Delta) | Reload(id: string, owner: Lookup, mergeNode: Lookup)

  datatype System = System(entries: Entries, tasks: Tasks)

  /** One step: the cache takes it, the renderer folds exactly what is forwarded. */
  function Next(s: System, step: Step): System {
    match step
    case Deliver(d) =>
      var a := Apply(s.entries, d);
      System(a.entries, if a.accepted then Folded(s.tasks, d) else s.tasks)
    case Reload(id, owner, mergeNode) =>
      var r := Recover(s.entries, id, owner, mergeNode);
      System(r.entries, if r.forward.Some? then Folded(s.tasks, r.forward.value) else s.tasks)
  }

  function Play(steps: seq<Step>, n: nat): System
    requires n <= |steps|
  {
    if n == 0 then System(map[], map[]) else Next(Play(steps, n - 1), steps[n - 1])
  }

  /** A loader asked for an id answers with a task of that id. */
  predicate AnswersById(step: Step) {
    step.Reload? && Authority(step.id, step.owner, step.mergeNode).Found? ==>
      Authority(step.id, step.owner, step.mergeNode).task.id == step.id
  }

  lemma DeliveryKeepsMirror(s: System, d: Delta)
    requires Mirrors(s.tasks, s.entries)
    ensures Mirrors(Next(s, Deliver(d)).tasks, Next(s, Deliver(d)).entries)
  {
    if d.Updated? && Apply(s.entries, d).accepted {
      MergePrints(s.tasks[d.taskId], d.changes, d.version);
    }
  }

  lemma ReloadUnderOwnId(s: System, t: Task)
    requires Mirrors(s.tasks, s.entries)
    ensures Mirrors(Folded(s.tasks, Created(t)), Stored(s.entries, t.id, t))
  {
    hide Snapshot;
  }

  /** Both ids already hold that very task. */
  predicate HeldTwice(e: Entries, id: string, t: Task) {
    id in e && t.id in e && e[id].snapshot == Snapshot(t) && e[t.id].snapshot == Snapshot(t)
  }

  lemma ReloadUnderOtherId(s: System, id: string, t: Task)
    requires Mirrors(s.tasks, s.entries) && t.id != id
    ensures Mirrors(Folded(s.tasks, Created(t)), Stored(s.entries, id, t)) <==> HeldTwice(s.entries, id, t)
  {
    hide Snapshot;
    var tasks, entries := Folded(s.tasks, Created(t)), Stored(s.entries, id, t);
    assert tasks.Keys == s.tasks.Keys + {t.id} && entries.Keys == s.entries.Keys + {id};
    if Mirrors(tasks, entries) {
      assert t.id in entries.Keys && id in tasks.Keys;
      assert Snapshot(tasks[t.id]) == entries[t.id].snapshot && Snapshot(tasks[id]) == entries[id].snapshot;
    }
  }

  /** A recovery that finds a task keeps the mirror exactly when the task carries the id asked
      for, or both ids already hold that very task. */
  lemma ReloadKeepsMirrorExactlyWhen(s: System, id: string, t: Task)
    requires Mirrors(s.tasks, s.entries)
    ensures var r := Restored(s.entries, id, t);
            Mirrors(Folded(s.tasks, r.forward.value), r.entries) <==> t.id == id || HeldTwice(s.entries, id, t)
  {
    hide Mirrors, HeldTwice, Folded, Stored;
    if t.id == id { ReloadUnderOwnId(s, t); } else { ReloadUnderOtherId(s, id, t); }
  }

  /** After any deliveries and reloads, the renderer shows exactly the cache's snapshots. */
  lemma {:induction false} RendererMirrorsCache(steps: seq<Step>, n: nat)
    requires n <= |steps| && forall i :: 0 <= i < n ==> AnswersById(steps[i])
    ensures Mirrors(Play(steps, n).tasks, Play(steps, n).entries)
  {
    if n > 0 {
      RendererMirrorsCache(steps, n - 1);
      var s, step := Play(steps, n - 1), steps[n - 1];
      match step
      case Deliver(d) => DeliveryKeepsMirror(s, d);
      case Reload(id, owner, mergeNode) =>
        var authority := Authority(id, owner, mergeNode);
        if authority.Found? { ReloadKeepsMirrorExactlyWhen(s, id, authority.task); }
    }
  }

  // ----- what a delta may do -----

  /** What is kept of a field: nothing of an undefined one, and a date as its quoted text. */
  lemma FieldsArePrinted(f: Fields, k: string)
    ensures k in PrintedFields(f) <==> k in f && !f[k].Undefined?
    ensures k in PrintedFields(f) && f[k].Json? ==> PrintedFields(f)[k] == f[k]
    ensures k in PrintedFields(f) && f[k].DateTime? ==> PrintedFields(f)[k] == Json("\"" + f[k].iso + "\"")
  {
  }

  /** The versions alone decide about a delta. A creation or removal is dropped where the entry is
      newer. An update is taken exactly on top of the version it was made from; one that comes
      too late is dropped, and one that leaves a gap, or finds no entry, asks for recovery. */
  lemma DeltaDecides(e: Entries, d: Delta)
    ensures var a := Apply(e, d);
            match d
            case Created(t) =>
              var version := if t.version.Some? then t.version.value else 1;
              && a.quarantined == [] && (a.accepted <==> t.id !in e || version >= e[t.id].version)
              && (a.accepted ==> t.id in a.entries && a.entries[t.id] == Entry(Snapshot(t), version, false))
            case Removed(id, previous) =>
              && a.quarantined == [] && (a.accepted <==> id !in e || previous >= e[id].version)
              && (a.accepted ==> id !in a.entries)
            case Updated(id, changes, version, previous) =>
              && (a.accepted <==> id in e && !e[id].quarantined && previous == e[id].version < version)
              && (a.accepted ==> id in a.entries && a.entries[id].version == version && !a.entries[id].quarantined)
              && (a.quarantined == if id !in e || (!e[id].quarantined && previous != e[id].version < version)
                                   then [id] else [])
              && (id in e && a.quarantined == [id] ==> a.entries == e[id := e[id].(quarantined := true)])
    ensures !Apply(e, d).accepted && Apply(e, d).quarantined == [] ==> Apply(e, d).entries == e
  {
    hide Snapshot;
  }

  // ----- what recovery may do -----

  /** Recovery, by the answers alone. The owner's task is stored, unflagged, and sent on; without
      one, so is the orchestrator's for a merge id. The entry is deleted exactly where the owner
      proves it gone, and for a merge id the orchestrator does as well. As long as an answer that
      decides is unavailable nothing changes and nothing is sent. */
  lemma RecoveryDecides(e: Entries, id: string, owner: Lookup, mergeNode: Lookup)
    ensures var r := Recover(e, id, owner, mergeNode);
            var merge := "__merge__" <= id;
            var proven := owner.Missing? && (merge ==> mergeNode.Missing?);
            && (forall k :: k != id ==> (k in r.entries <==> k in e) && (k in e ==> r.entries[k] == e[k]))
            && (owner.Found? ==> Stores(r, id, owner.task))
            && (!owner.Found? && merge && mergeNode.Found? ==> Stores(r, id, mergeNode.task))
            && (r.forward.Some? && r.forward.value.Removed? <==> proven)
            && (proven ==> id !in r.entries && r.forward == Some(Removed(id, if id in e then e[id].version else 0)))
            && (r.forward.None? <==> && !owner.Found? && !(merge && mergeNode.Found?)
                                     && (owner.Unavailable? || (merge && mergeNode.Unavailable?)))
            && (r.forward.None? ==> r.entries == e)
  {
    hide Snapshot;
  }

  /** The entry of the id is that task, caught up and unflagged, and the renderer is sent it. */
  ghost predicate Stores(r: Recovered, id: string, t: Task) {
    && id in r.entries && r.entries[id].snapshot == Snapshot(t) && !r.entries[id].quarantined
    && r.entries[id].version == (if t.version.Some? then t.version.value else 1)
    && r.forward == Some(Created(t))
  }

  /** Over any steps an id leaves the cache only by a removal no older than its entry, or by a
      recovery with proof; an unavailable loader changes neither cache nor renderer. */
  lemma LeavesExactlyOnProof(steps: seq<Step>, n: nat, id: string)
    requires n < |steps| && id in Play(steps, n).entries
    ensures id !in Play(steps, n + 1).entries <==>
            match steps[n]
            case Deliver(d) => d.Removed? && d.taskId == id && d.previous >= Play(steps, n).entries[id].version
            case Reload(reloaded, owner, mergeNode) =>
              reloaded == id && owner.Missing? && ("__merge__" <= id ==> mergeNode.Missing?)
    ensures steps[n].Reload? && steps[n].owner.Unavailable? && !("__merge__" <= steps[n].id) ==>
              Play(steps, n + 1) == Play(steps, n)
    ensures steps[n].Reload? && !steps[n].owner.Found? && "__merge__" <= steps[n].id && steps[n].mergeNode.Unavailable?
            ==> Play(steps, n + 1) == Play(steps, n)
  {
    var s := Play(steps, n);
    PlayStep(steps, n + 1);
    match steps[n]
    case Deliver(d) =>
    case Reload(reloaded, owner, mergeNode) => RecoveryDecides(s.entries, reloaded, owner, mergeNode);
  }

  // ----- agreement with the owner's history -----

  /** What each task looked like, printed, at each version the owner gave it. A task removed and
      created anew under its old id starts another generation, and may repeat old versions. */
  type History = map<(string, nat, int), Task>

  ghost predicate At(h: History, id: string, g: nat, version: int, snapshot: Task) {
    (id, g, version) in h && h[(id, g, version)] == snapshot
  }

  /** The snapshot is the task at this version in some generation. */
  ghost predicate WasOnce(h: History, id: string, version: int, snapshot: Task) {
    exists g :: At(h, id, g, version, snapshot)
  }

  /** The update the owner sent from one version to a later one of a generation. */
  ghost predicate SentIn(h: History, d: Delta, g: nat)
    requires d.Updated?
  {
    && (d.taskId, g, d.previous) in h && (d.taskId, g, d.version) in h
    && h[(d.taskId, g, d.version)] == Snapshot(Merged(h[(d.taskId, g, d.previous)], d.changes, d.version))
  }

  /** A delta the owner really sent: a task as it was, or the step from one version to a later one. */
  ghost predicate Genuine(h: History, d: Delta) {
    match d
    case Created(t) => WasOnce(h, t.id, VersionOf(t), Snapshot(t))
    case Removed(_, _) => true
    case Updated(_, _, _, _) => exists g :: SentIn(h, d, g)
  }

  ghost predicate GenuineStep(h: History, step: Step) {
    match step
    case Deliver(d) => Genuine(h, d)
    case Reload(id, owner, mergeNode) =>
      var authority := Authority(id, owner, mergeNode);
      authority.Found? ==> WasOnce(h, id, VersionOf(authority.task), Snapshot(authority.task))
  }

  /** Every cached snapshot, quarantined or not, is the owner's task at the entry's version. */
  ghost predicate Agrees(h: History, e: Entries) {
    forall id :: id in e ==> WasOnce(h, id, e[id].version, e[id].snapshot)
  }

  /** Printed, both fields are the same wherever the change does not write. */
  ghost predicate SameOutside(a: Fields, b: Fields, changed: Fields) {
    forall k :: k !in changed ==>
      (k in PrintedFields(a) <==> k in PrintedFields(b))
        && (k in PrintedFields(a) ==> PrintedFields(a)[k] == PrintedFields(b)[k])
  }

  /** Both tasks differ at most where the changes write. */
  ghost predicate SameBut(a: Task, b: Task, c: Changes) {
    a.id == b.id && SameOutside(a.top, b.top, c.top) && SameOutside(a.config, b.config, c.config)
      && SameOutside(a.execution, b.execution, c.execution)
  }

  lemma SpreadAgreesExactlyWhen(a: Fields, b: Fields, changed: Fields)
    ensures PrintedFields(a + changed) == PrintedFields(b + changed) <==> SameOutside(a, b, changed)
  {
    var left, right := PrintedFields(a + changed), PrintedFields(b + changed);
    assert forall k :: k !in changed ==>
             (k in left <==> k in PrintedFields(a)) && (k in right <==> k in PrintedFields(b));
    if SameOutside(a, b, changed) {
      forall k
        ensures k in left <==> k in right
        ensures k in left ==> left[k] == right[k]
      {
        if k !in changed && k in left { assert left[k] == PrintedFields(a)[k]; }
      }
      assert left.Keys == right.Keys;
    } else {
      var k :| k !in changed
        && !((k in PrintedFields(a) <==> k in PrintedFields(b))
             && (k in PrintedFields(a) ==> PrintedFields(a)[k] == PrintedFields(b)[k]));
      if k in left && k in right { assert left[k] == PrintedFields(a)[k] && right[k] == PrintedFields(b)[k]; }
    }
  }

  /** An update made for one generation gives that generation's task exactly when the task it is
      merged into is the update's base everywhere the update does not write. */
  lemma UpdateAgreesExactlyWhen(h: History, d: Delta, g: nat, base: Task)
    requires d.Updated? && SentIn(h, d, g)
    ensures h[(d.taskId, g, d.version)] == Snapshot(Merged(base, d.changes, d.version)) <==>
            SameBut(base, h[(d.taskId, g, d.previous)], d.changes)
  {
    var other := h[(d.taskId, g, d.previous)];
    SpreadAgreesExactlyWhen(base.top, other.top, d.changes.top);
    SpreadAgreesExactlyWhen(base.config, other.config, d.changes.config);
    SpreadAgreesExactlyWhen(base.execution, other.execution, d.changes.execution);
  }

  /** An accepted update finds its base, or what differs from it only where the update writes. */
  ghost predicate FindsBase(h: History, e: Entries, step: Step) {
    step.Deliver? && step.delta.Updated? && Apply(e, step.delta).accepted ==>
      exists g :: SentIn(h, step.delta, g)
        && SameBut(e[step.delta.taskId].snapshot, h[(step.delta.taskId, g, step.delta.previous)], step.delta.changes)
  }

  lemma StepAgrees(h: History, s: System, step: Step)
    requires Agrees(h, s.entries) && GenuineStep(h, step) && FindsBase(h, s.entries, step)
    ensures Agrees(h, Next(s, step).entries)
  {
    hide SameBut, Folded, Snapshot, Merged;
    if step.Deliver? && step.delta.Updated? && Apply(s.entries, step.delta).accepted {
      var d := step.delta;
      var g :| SentIn(h, d, g) && SameBut(s.entries[d.taskId].snapshot, h[(d.taskId, g, d.previous)], d.changes);
      UpdateAgreesExactlyWhen(h, d, g, s.entries[d.taskId].snapshot);
      assert At(h, d.taskId, g, d.version, Next(s, step).entries[d.taskId].snapshot);
    }
  }

  /** Whatever is lost, repeated or reordered: as long as no update of one generation is merged into
      a different task of another, every snapshot is the owner's task at exactly the entry's version. */
  lemma {:induction false} CacheAgreesOverGenerations(h: History, steps: seq<Step>, n: nat)
    requires n <= |steps| && forall i :: 0 <= i < n ==>
                               GenuineStep(h, steps[i]) && FindsBase(h, Play(steps, i).entries, steps[i])
    ensures Agrees(h, Play(steps, n).entries)
  {
    hide GenuineStep, FindsBase, Next;
    if n > 0 {
      CacheAgreesOverGenerations(h, steps, n - 1);
      StepAgrees(h, Play(steps, n - 1), steps[n - 1]);
    }
  }

  /** No version of an id is given to two different tasks. */
  ghost predicate OneTaskPerVersion(h: History) {
    forall id, g, k, version :: (id, g, version) in h && (id, k, version) in h ==>
      h[(id, g, version)] == h[(id, k, version)]
  }

  lemma OneTaskFindsBase(h: History, e: Entries, step: Step)
    requires OneTaskPerVersion(h) && Agrees(h, e) && GenuineStep(h, step)
    ensures FindsBase(h, e, step)
  {
    hide Merged, Snapshot, OneTaskPerVersion;
    if step.Deliver? && step.delta.Updated? && Apply(e, step.delta).accepted {
      var d := step.delta;
      var g :| SentIn(h, d, g);
      assert WasOnce(h, d.taskId, e[d.taskId].version, e[d.taskId].snapshot);
      var k :| At(h, d.taskId, k, d.previous, e[d.taskId].snapshot);
      SameTask(h, d.taskId, g, k, d.previous);
    }
  }

  lemma SameTask(h: History, id: string, g: nat, k: nat, version: int)
    requires OneTaskPerVersion(h) && (id, g, version) in h && (id, k, version) in h
    ensures h[(id, g, version)] == h[(id, k, version)]
  {
  }

  /** Where the owner gives no version to two different tasks, the cache always agrees with it: a gap
      may quarantine, it never merges onto the wrong base. */
  lemma {:induction false} CacheAgreesWithHistory(h: History, steps: seq<Step>, n: nat)
    requires n <= |steps| && OneTaskPerVersion(h) && forall i :: 0 <= i < n ==> GenuineStep(h, steps[i])
    ensures Agrees(h, Play(steps, n).entries)
  {
    hide GenuineStep, FindsBase, Next, OneTaskPerVersion;
    if n > 0 {
      CacheAgreesWithHistory(h, steps, n - 1);
      OneTaskFindsBase(h, Play(steps, n - 1).entries, steps[n - 1]);
      StepAgrees(h, Play(steps, n - 1), steps[n - 1]);
    }
  }

  /** The task of one map of fields, and an update that only raises the version. */
  function Plain(id: string, top: Fields): Task { Task(id, Some(1), top, map[], map[]) }

  function Touch(id: string): Delta { Updated(id, Changes(map[], map[], map[]), 2, 1) }

  /** The owner's history of two generations of a task, the second one updated once. */
  function TwoGenerations(id: string, earlier: Fields, anew: Fields): History {
    map[(id, 0, 1) := Snapshot(Plain(id, earlier)), (id, 1, 1) := Snapshot(Plain(id, anew)),
        (id, 1, 2) := Snapshot(Merged(Snapshot(Plain(id, anew)), Touch(id).changes, 2))]
  }

  lemma GenerationsDiffer(id: string, earlier: Fields, anew: Fields)
    requires PrintedFields(earlier) != PrintedFields(anew)
    ensures !SameBut(Snapshot(Plain(id, earlier)), Snapshot(Plain(id, anew)), Touch(id).changes)
  {
    PrintedTwice(earlier);
    PrintedTwice(anew);
    SpreadAgreesExactlyWhen(PrintedFields(earlier), PrintedFields(anew), map[]);
    assert PrintedFields(earlier) + map[] == PrintedFields(earlier)
           && PrintedFields(anew) + map[] == PrintedFields(anew);
  }

  lemma TouchIsGenuine(id: string, earlier: Fields, anew: Fields)
    ensures var h := TwoGenerations(id, earlier, anew);
            && At(h, id, 0, 1, Snapshot(Plain(id, earlier))) && SentIn(h, Touch(id), 1)
            && h[(id, 1, 1)] == Snapshot(Plain(id, anew)) && forall g: nat :: (id, g, 2) in h ==> g == 1
  {
    hide Merged, PrintedFields;
  }

  lemma MixedSteps(id: string, earlier: Fields)
    ensures var steps := [Deliver(Created(Plain(id, earlier))), Deliver(Touch(id))];
            Play(steps, 2).entries
              == map[id := Entry(Snapshot(Merged(Snapshot(Plain(id, earlier)), Touch(id).changes, 2)), 2, false)]
  {
    var steps := [Deliver(Created(Plain(id, earlier))), Deliver(Touch(id))];
    hide Merged, PrintedFields, Folded;
    assert Play(steps, 0) == System(map[], map[]);
    assert Play(steps, 1).entries == map[id := Entry(Snapshot(Plain(id, earlier)), 1, false)];
  }

  /** A task created anew under its old id and version: its removal and creation are lost, its first
      update is merged into the old task, and the cache shows one the owner never had. */
  lemma RecreatedTaskIsMixed(id: string, earlier: Fields, anew: Fields) returns (h: History, steps: seq<Step>)
    requires PrintedFields(earlier) != PrintedFields(anew)
    ensures |steps| == 2 && (forall i :: 0 <= i < 2 ==> GenuineStep(h, steps[i]))
    ensures id in Play(steps, 2).entries && !Play(steps, 2).entries[id].quarantined
    ensures !Agrees(h, Play(steps, 2).entries)
  {
    h, steps := TwoGenerations(id, earlier, anew), [Deliver(Created(Plain(id, earlier))), Deliver(Touch(id))];
    TouchIsGenuine(id, earlier, anew);
    GenerationsDiffer(id, earlier, anew);
    MixedSteps(id, earlier);
    hide Merged, Snapshot, TwoGenerations, SameBut, Play, PrintedFields;
    UpdateAgreesExactlyWhen(h, Touch(id), 1, Snapshot(Plain(id, earlier)));
    assert Genuine(h, Created(Plain(id, earlier)));
    assert Genuine(h, Touch(id));
    assert !WasOnce(h, id, 2, Play(steps, 2).entries[id].snapshot);
  }

  lemma PrintedTwice(f: Fields)
    ensures PrintedFields(PrintedFields(f)) == PrintedFields(f)
  {
  }

  /** What the cache knows of a task after an update: it has caught up, or the id is flagged
      for recovery; and it never goes back. */
  lemma UpdateIsNeverSilentlyLost(e: Entries, d: Delta)
    requires d.Updated?
    ensures var a := Apply(e, d);
            || (d.taskId in a.entries && a.entries[d.taskId].version >= d.version)
            || (d.taskId in a.entries && a.entries[d.taskId].quarantined)
            || (d.taskId !in a.entries && a.quarantined == [d.taskId])
    ensures forall id :: id in e ==> id in Apply(e, d).entries && Apply(e, d).entries[id].version >= e[id].version
  {
  }

  /** A caught-up, unflagged entry is the owner's current task: at the owner's current version
      only its current state agrees with the history. */
  lemma CaughtUpMeansCurrent(h: History, steps: seq<Step>, n: nat, current: Task)
    requires n <= |steps| && OneTaskPerVersion(h) && forall i :: 0 <= i < n ==> GenuineStep(h, steps[i])
    requires WasOnce(h, current.id, VersionOf(current), Snapshot(current))
    requires current.id in Play(steps, n).entries && Play(steps, n).entries[current.id].version == VersionOf(current)
    ensures Play(steps, n).entries[current.id].snapshot == Snapshot(current)
  {
    hide OneTaskPerVersion, GenuineStep, Play, Snapshot;
    CacheAgreesWithHistory(h, steps, n);
    var e := Play(steps, n).entries[current.id];
    var g :| At(h, current.id, g, e.version, e.snapshot);
    var k :| At(h, current.id, k, VersionOf(current), Snapshot(current));
    SameTask(h, current.id, g, k, e.version);
  }

  /** The steps that may replace or drop an entry whatever its version. */
  predicate Replaces(step: Step, id: string) {
    match step
    case Deliver(d) => d.Removed? && d.taskId == id
    case Reload(reloaded, owner, mergeNode) => reloaded == id
  }

  predicate Creates(step: Step, id: string) { step.Deliver? && step.delta.Created? && step.delta.task.id == id }

  /** Between replacements an entry only moves forward, and a quarantined one does not move at all
      until its task is created anew. */
  lemma {:induction false} EntryOnlyMovesForward(steps: seq<Step>, m: nat, n: nat, id: string)
    requires m <= n <= |steps| && id in Play(steps, m).entries && forall i :: m <= i < n ==> !Replaces(steps[i], id)
    ensures id in Play(steps, n).entries && Play(steps, n).entries[id].version >= Play(steps, m).entries[id].version
    ensures Play(steps, m).entries[id].quarantined && (forall i :: m <= i < n ==> !Creates(steps[i], id))
            ==> Play(steps, n).entries[id] == Play(steps, m).entries[id]
  {
    if m < n {
      EntryOnlyMovesForward(steps, m, n - 1, id);
      hide Play, Snapshot;
      StepMovesForward(Play(steps, n - 1), steps[n - 1], id);
      PlayStep(steps, n);
    }
  }

  lemma PlayStep(steps: seq<Step>, n: nat)
    requires 0 < n <= |steps|
    ensures Play(steps, n) == Next(Play(steps, n - 1), steps[n - 1])
  {
  }

  lemma StepMovesForward(s: System, step: Step, id: string)
    requires id in s.entries && !Replaces(step, id)
    ensures id in Next(s, step).entries && Next(s, step).entries[id].version >= s.entries[id].version
    ensures s.entries[id].quarantined && !Creates(step, id) ==> Next(s, step).entries[id] == s.entries[id]
  {
    hide Snapshot, Folded;
  }

  // ----- lossless delivery refines the owner -----

  /** The owner's task map after one of its own steps, and the delta it publishes. */
  datatype OwnerStep = Create(task: Task) | Change(id: string, changes: Changes, version: int) | Drop(id: string)

  ghost predicate Enabled(owner: Tasks, s: OwnerStep) {
    match s
    case Create(t) => t.id !in owner
    case Change(id, _, version) => id in owner && version > VersionOf(owner[id])
    case Drop(id) => id in owner
  }

  function Published(owner: Tasks, s: OwnerStep): Delta {
    match s
    case Create(t) => Created(t)
    case Change(id, changes, version) => Updated(id, changes, version, if id in owner then VersionOf(owner[id]) else 0)
    case Drop(id) => Removed(id, if id in owner then VersionOf(owner[id]) else 0)
  }

  function Stepped(owner: Tasks, s: OwnerStep): Tasks {
    match s
    case Create(t) => owner[t.id := t]
    case Change(id, changes, version) => if id in owner then owner[id := Merged(owner[id], changes, version)] else owner
    case Drop(id) => owner - {id}
  }

  /** The cache holds exactly the owner's tasks, none of them quarantined. */
  ghost predicate Current(owner: Tasks, e: Entries) {
    && owner.Keys == e.Keys
    && forall id :: id in e ==> e[id] == Entry(Snapshot(owner[id]), VersionOf(owner[id]), false)
  }

  /** Delivered in order and without loss, every delta is accepted, nothing is quarantined and
      the cache is the owner's map. */
  lemma InOrderDeliveryRefinesOwner(owner: Tasks, e: Entries, s: OwnerStep)
    requires Current(owner, e) && Enabled(owner, s)
    ensures var a := Apply(e, Published(owner, s));
            a.accepted && a.quarantined == [] && Current(Stepped(owner, s), a.entries)
  {
    if s.Change? {
      MergePrints(owner[s.id], s.changes, s.version);
    }
  }

  function OwnerAfter(steps: seq<OwnerStep>, n: nat): Tasks
    requires n <= |steps|
  {
    if n == 0 then map[] else Stepped(OwnerAfter(steps, n - 1), steps[n - 1])
  }

  /** The system after the owner's first `n` deltas were delivered, each once and in order. */
  function Delivered(steps: seq<OwnerStep>, n: nat): System
    requires n <= |steps|
  {
    if n == 0 then System(map[], map[])
    else Next(Delivered(steps, n - 1), Deliver(Published(OwnerAfter(steps, n - 1), steps[n - 1])))
  }

  ghost predicate EnabledRun(steps: seq<OwnerStep>, n: nat)
    requires n <= |steps|
  {
    n == 0 || (EnabledRun(steps, n - 1) && Enabled(OwnerAfter(steps, n - 1), steps[n - 1]))
  }

  lemma PublishedIsDelivered(owner: Tasks, s: System, step: OwnerStep)
    requires Current(owner, s.entries) && Mirrors(s.tasks, s.entries) && Enabled(owner, step)
    ensures var after := Next(s, Deliver(Published(owner, step)));
            Current(Stepped(owner, step), after.entries) && Mirrors(after.tasks, after.entries)
  {
    hide Current, Mirrors, Enabled, Stepped, Published, Folded;
    InOrderDeliveryRefinesOwner(owner, s.entries, step);
    DeliveryKeepsMirror(s, Published(owner, step));
  }

  /** Owner, cache and renderer then show the same tasks after every step. */
  lemma {:induction false} LosslessRunRefinesOwner(steps: seq<OwnerStep>, n: nat)
    requires n <= |steps| && EnabledRun(steps, n)
    ensures Current(OwnerAfter(steps, n), Delivered(steps, n).entries)
    ensures Mirrors(Delivered(steps, n).tasks, Delivered(steps, n).entries)
  {
    if n > 0 {
      hide Current, Mirrors, Enabled, Stepped, Published, Next;
      LosslessRunRefinesOwner(steps, n - 1);
      PublishedIsDelivered(OwnerAfter(steps, n - 1), Delivered(steps, n - 1), steps[n - 1]);
    }
  }
}
