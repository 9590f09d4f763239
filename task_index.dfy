/** The in-memory task index (src/infrastructure/index/memory-task-index.ts): one map
    from identifier to task and one from file path to that file's tasks, kept in
    lockstep. */
module TaskIndex {
  import opened Wrappers
  import opened Tasks
  import opened TaskOrder

  type ById = map<string, Task>
  type ByFile = map<string, map<string, Task>>

  /** The index invariant: each task is stored under its own identifier, a task sits
      in the bucket of its file exactly when it sits in the identifier map, and no
      bucket is empty. */
  predicate Lockstep(byId: ById, byFile: ByFile) {
    && (forall id :: id in byId ==> byId[id].id == id)
    && (forall f :: f in byFile ==> byFile[f].Keys != {})
    && (forall f, id :: f in byFile && id in byFile[f] ==>
          id in byId && byFile[f][id] == byId[id] && byId[id].source.filePath == f)
    && (forall id :: id in byId ==> byId[id].source.filePath in byFile && id in byFile[byId[id].source.filePath])
  }

  /** `addToFile`: the task joins the bucket of its file, which is created if
      missing. */
  function AddedToFile(byFile: ByFile, t: Task): ByFile {
    var f := t.source.filePath;
    if f in byFile then byFile[f := byFile[f][t.id := t]]
    else byFile[f := map[t.id := t]]
  }

  /** `removeFromFile`: the identifier leaves the bucket, and a bucket left empty is
      dropped. */
  function RemovedFromFile(byFile: ByFile, f: string, id: string): ByFile {
    if f !in byFile then byFile
    else
      var rest := byFile[f] - {id};
      if rest.Keys == {} then byFile - {f} else byFile[f := rest]
  }

  /** The two maps after `upsert`. */
  function Upserted(byId: ById, byFile: ByFile, t: Task): (ById, ByFile) {
    var cleared := if t.id in byId then RemovedFromFile(byFile, byId[t.id].source.filePath, byId[t.id].id) else byFile;
    (byId[t.id := t], AddedToFile(cleared, t))
  }

  /** The two maps after `remove`. */
  function Removed(byId: ById, byFile: ByFile, id: string): (ById, ByFile) {
    if id !in byId then (byId, byFile)
    else (byId - {id}, RemovedFromFile(byFile, byId[id].source.filePath, id))
  }

  /** The two maps after `replace`: every task stored in turn, from empty maps. */
  function Loaded(ts: seq<Task>): (ById, ByFile) {
    if ts == [] then (map[], map[])
    else
      var (byId, byFile) := Loaded(ts[..|ts| - 1]);
      var t := ts[|ts| - 1];
      (byId[t.id := t], AddedToFile(byFile, t))
  }

  lemma UpsertKeepsLockstep(byId: ById, byFile: ByFile, t: Task)
    requires Lockstep(byId, byFile)
    ensures var (i, f) := Upserted(byId, byFile, t); Lockstep(i, f)
  {
    var cleared := if t.id in byId then RemovedFromFile(byFile, byId[t.id].source.filePath, byId[t.id].id) else byFile;
    assert Lockstep(byId - {t.id}, cleared) by {
      forall g, id | g in cleared && id in cleared[g]
        ensures id in byId - {t.id} && cleared[g][id] == (byId - {t.id})[id] && (byId - {t.id})[id].source.filePath == g
      {
        if t.id in byId && g == byId[t.id].source.filePath {
          assert id != t.id;
        } else if t.id in byId {
          assert id in byFile[g];
          assert id != t.id;
        }
      }
    }
    AddKeepsLockstep(byId - {t.id}, cleared, t);
    assert (byId - {t.id})[t.id := t] == byId[t.id := t];
  }

  /** Storing a task whose identifier is not yet stored keeps the invariant. */
  lemma AddKeepsLockstep(byId: ById, byFile: ByFile, t: Task)
    requires Lockstep(byId, byFile) && t.id !in byId
    ensures Lockstep(byId[t.id := t], AddedToFile(byFile, t))
  {
    var f := t.source.filePath;
    var i2 := byId[t.id := t];
    var f2 := AddedToFile(byFile, t);
    forall g, id | g in f2 && id in f2[g]
      ensures id in i2 && f2[g][id] == i2[id] && i2[id].source.filePath == g
    {
      if g == f && id != t.id {
        assert id in byFile[f];
      }
    }
  }

  lemma RemoveKeepsLockstep(byId: ById, byFile: ByFile, id: string)
    requires Lockstep(byId, byFile)
    ensures var (i, f) := Removed(byId, byFile, id); Lockstep(i, f)
  {
    if id in byId {
      var (i2, f2) := Removed(byId, byFile, id);
      forall g, k | g in f2 && k in f2[g]
        ensures k in i2 && f2[g][k] == i2[k] && i2[k].source.filePath == g
      {
        assert k in byFile[g];
        if g != byId[id].source.filePath {
          assert byId[k].source.filePath == g;
        }
      }
    }
  }

  /** The identifiers a load stores. */
  lemma {:induction false} LoadedKeys(ts: seq<Task>)
    ensures forall id :: id in Loaded(ts).0 <==> exists k :: 0 <= k < |ts| && ts[k].id == id
  {
    if ts != [] {
      var prefix := ts[..|ts| - 1];
      LoadedKeys(prefix);
      forall id ensures id in Loaded(ts).0 <==> exists k :: 0 <= k < |ts| && ts[k].id == id {
        if id in Loaded(prefix).0 {
          var k :| 0 <= k < |prefix| && prefix[k].id == id;
          assert ts[k].id == id;
        }
        if k :| 0 <= k < |ts| && ts[k].id == id {
          if k < |ts| - 1 {
            assert prefix[k].id == id;
          }
        }
      }
    }
  }

  predicate DistinctIds(ts: seq<Task>) {
    forall i, j :: 0 <= i < j < |ts| ==> ts[i].id != ts[j].id
  }

  /** A load of tasks with distinct identifiers keeps the invariant. */
  lemma {:induction false} LoadKeepsLockstep(ts: seq<Task>)
    requires DistinctIds(ts)
    ensures var (i, f) := Loaded(ts); Lockstep(i, f)
  {
    if ts != [] {
      var prefix := ts[..|ts| - 1];
      var t := ts[|ts| - 1];
      LoadKeepsLockstep(prefix);
      LoadedKeys(prefix);
      assert t.id !in Loaded(prefix).0 by {
        forall k | 0 <= k < |prefix| ensures prefix[k].id != t.id {
          assert prefix[k] == ts[k];
        }
      }
      AddKeepsLockstep(Loaded(prefix).0, Loaded(prefix).1, t);
    }
  }

  /** With a repeated identifier the identifier map keeps the later task, while the
      earlier copy stays in the bucket of its own file: the invariant is lost. */
  lemma DuplicateLoadBreaksLockstep(a: Task, b: Task)
    requires a.id == b.id && a.source.filePath != b.source.filePath
    ensures var (byId, byFile) := Loaded([a, b]);
      && byId[a.id] == b
      && a.source.filePath in byFile && a.id in byFile[a.source.filePath] && byFile[a.source.filePath][a.id] == a
      && !Lockstep(byId, byFile)
  {
    assert [a, b][..1] == [a];
    assert [a][..0] == [];
    assert Loaded([a]) == (map[a.id := a], map[a.source.filePath := map[a.id := a]]);
    var byFile := Loaded([a, b]).1;
    assert byFile == map[a.source.filePath := map[a.id := a], b.source.filePath := map[b.id := b]];
  }

  class InMemoryTaskIndex {
    var byId: ById
    var byFile: ByFile

    predicate Valid()
      reads this
    {
      Lockstep(byId, byFile)
    }

    constructor()
      ensures byId == map[] && byFile == map[]
      ensures Valid()
    {
      byId := map[];
      byFile := map[];
    }

    /** `findById`: the stored task, or nothing for an unknown identifier. */
    method FindById(id: string) returns (r: Option<Task>)
      ensures id in byId ==> r == Some(byId[id])
      ensures id !in byId ==> r.None?
    {
      r := if id in byId then Some(byId[id]) else None;
    }

    /** `listAll`: every stored task once, in listing order. */
    method ListAll() returns (r: seq<Task>)
      ensures Sorted(r) && |r| == |byId|
      ensures forall t :: t in r <==> t in byId.Values
    {
      r := SortedValues(byId);
    }

    /** `listByFile`: the tasks of one file in listing order; none for a file
        without a bucket. */
    method ListByFile(filePath: string) returns (r: seq<Task>)
      ensures Sorted(r)
      ensures filePath !in byFile ==> r == []
      ensures filePath in byFile ==> |r| == |byFile[filePath]| && forall t :: t in r <==> t in byFile[filePath].Values
    {
      if filePath !in byFile {
        return [];
      }
      r := SortedValues(byFile[filePath]);
    }

    /** `upsert`: the task replaces any task with its identifier, leaving that task's
        old bucket first. */
    method Upsert(t: Task)
      modifies this
      ensures (byId, byFile) == Upserted(old(byId), old(byFile), t)
      ensures old(Valid()) ==> Valid()
    {
      if Valid() {
        UpsertKeepsLockstep(byId, byFile, t);
      }
      if t.id in byId {
        var existing := byId[t.id];
        RemoveFromFile(existing.source.filePath, existing.id);
      }
      byId := byId[t.id := t];
      AddToFile(t);
    }

    /** `remove`: an unknown identifier changes nothing. */
    method Remove(id: string)
      modifies this
      ensures (byId, byFile) == Removed(old(byId), old(byFile), id)
      ensures old(Valid()) ==> Valid()
    {
      if Valid() {
        RemoveKeepsLockstep(byId, byFile, id);
      }
      if id !in byId {
        return;
      }
      var existing := byId[id];
      byId := byId - {id};
      RemoveFromFile(existing.source.filePath, id);
    }

    /** `replace`: all previous contents go, and the tasks are stored in turn. The
        invariant holds afterwards when the identifiers are distinct. */
    method Replace(ts: seq<Task>)
      modifies this
      ensures (byId, byFile) == Loaded(ts)
      ensures DistinctIds(ts) ==> Valid()
    {
      byId := map[];
      byFile := map[];
      for i := 0 to |ts|
        invariant (byId, byFile) == Loaded(ts[..i])
      {
        assert ts[..i + 1][..i] == ts[..i];
        byId := byId[ts[i].id := ts[i]];
        AddToFile(ts[i]);
      }
      assert ts[..|ts|] == ts;
      if DistinctIds(ts) {
        LoadKeepsLockstep(ts);
      }
    }

    method AddToFile(t: Task)
      modifies this
      ensures byFile == AddedToFile(old(byFile), t) && byId == old(byId)
    {
      var f := t.source.filePath;
      if f in byFile {
        byFile := byFile[f := byFile[f][t.id := t]];
        return;
      }
      byFile := byFile[f := map[t.id := t]];
    }

    method RemoveFromFile(filePath: string, id: string)
      modifies this
      ensures byFile == RemovedFromFile(old(byFile), filePath, id) && byId == old(byId)
    {
      if filePath !in byFile {
        return;
      }
      var fileTasks := byFile[filePath] - {id};
      byFile := byFile[filePath := fileTasks];
      if fileTasks.Keys == {} {
        byFile := byFile - {filePath};
      }
    }
  }

  /** The values of a map, one per key, in listing order. */
  method SortedValues(m: map<string, Task>) returns (r: seq<Task>)
    ensures Sorted(r) && |r| == |m|
    ensures forall t :: t in r <==> t in m.Values
  {
    var items: seq<Task> := [];
    var rest := m.Keys;
    while rest != {}
      invariant rest <= m.Keys
      invariant |items| + |rest| == |m|
      invariant forall t :: t in items ==> t in m.Values
      invariant forall k :: k in m.Keys - rest ==> m[k] in items
      decreases |rest|
    {
      var k :| k in rest;
      items := items + [m[k]];
      rest := rest - {k};
    }
    r := SortTasks(items);
    SortTasksSorted(items);
    assert forall t :: t in r <==> t in multiset(items);
  }

  /** After an upsert the task is found under its identifier, and its identifier is
      stored once however often it was upserted. */
  lemma UpsertThenFind(byId: ById, byFile: ByFile, t: Task, u: Task)
    requires u.id == t.id
    ensures var (i1, f1) := Upserted(byId, byFile, t);
      && i1[t.id] == t
      && Upserted(i1, f1, u).0.Keys == byId.Keys + {t.id}
  {
  }

  /** Upserting a task moved to another file empties it out of its old bucket. */
  lemma UpsertMovesBetweenBuckets(byId: ById, byFile: ByFile, t: Task)
    requires Lockstep(byId, byFile)
    requires t.id in byId && byId[t.id].source.filePath != t.source.filePath
    ensures var old_f := byId[t.id].source.filePath; var (_, f) := Upserted(byId, byFile, t);
      && (old_f in f ==> t.id !in f[old_f])
      && t.id in f[t.source.filePath]
  {
  }
}
