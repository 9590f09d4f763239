/** The order every task listing uses (`sortTasks` in
    src/infrastructure/index/memory-task-index.ts): by file path, then line, then
    column. `localeCompare` is taken to be the code-point order of the two paths. */
module TaskOrder {
  import opened Tasks

  /** Three-way comparison of two strings, character by character; a proper prefix
      comes first. */
  function CompareStrings(a: string, b: string): (r: int)
    ensures -1 <= r <= 1
    ensures r == 0 <==> a == b
  {
    if a == [] && b == [] then 0
    else if a == [] then -1
    else if b == [] then 1
    else if a[0] < b[0] then -1
    else if a[0] > b[0] then 1
    else CompareStrings(a[1..], b[1..])
  }

  lemma {:induction false} CompareStringsFlips(a: string, b: string)
    ensures CompareStrings(b, a) == -CompareStrings(a, b)
  {
    if a != [] && b != [] && a[0] == b[0] {
      CompareStringsFlips(a[1..], b[1..]);
    }
  }

  lemma {:induction false} CompareStringsTransitive(a: string, b: string, c: string)
    requires CompareStrings(a, b) <= 0 && CompareStrings(b, c) <= 0
    ensures CompareStrings(a, c) <= 0
  {
    if a != [] && b != [] && c != [] && a[0] == b[0] && b[0] == c[0] {
      CompareStringsTransitive(a[1..], b[1..], c[1..]);
    }
  }

  /** The comparator handed to `Array.prototype.sort`. */
  function CompareTasks(left: Task, right: Task): (r: int)
    ensures r == 0 <==> left.source == right.source
    ensures left.source.filePath != right.source.filePath ==> r == CompareStrings(left.source.filePath, right.source.filePath)
  {
    var fileComparison := CompareStrings(left.source.filePath, right.source.filePath);
    if fileComparison != 0 then fileComparison
    else if left.source.line != right.source.line then left.source.line - right.source.line
    else left.source.column - right.source.column
  }

  predicate Precedes(left: Task, right: Task) {
    CompareTasks(left, right) <= 0
  }

  /** Of any two tasks one comes no later than the other. */
  lemma PrecedesTotal(a: Task, b: Task)
    ensures Precedes(a, b) || Precedes(b, a)
  {
    CompareStringsFlips(a.source.filePath, b.source.filePath);
  }

  lemma PrecedesTransitive(a: Task, b: Task, c: Task)
    requires Precedes(a, b) && Precedes(b, c)
    ensures Precedes(a, c)
  {
    var fa, fb, fc := a.source.filePath, b.source.filePath, c.source.filePath;
    CompareStringsTransitive(fa, fb, fc);
    CompareStringsFlips(fa, fb);
    CompareStringsFlips(fb, fc);
    CompareStringsFlips(fa, fc);
    if CompareStrings(fa, fc) == 0 {
      assert fa == fc;
      CompareStringsFlips(fa, fb);
    }
  }

  /** Ordered by path, then line, then column. */
  predicate Sorted(ts: seq<Task>) {
    forall i, j :: 0 <= i < j < |ts| ==> Precedes(ts[i], ts[j])
  }

  /** Inserts a task before the first task it precedes. */
  function Insert(t: Task, ts: seq<Task>): (r: seq<Task>)
    ensures multiset(r) == multiset(ts) + multiset{t}
  {
    if ts == [] then [t]
    else if Precedes(t, ts[0]) then [t] + ts
    else
      assert ts == [ts[0]] + ts[1..];
      [ts[0]] + Insert(t, ts[1..])
  }

  /** A task that precedes the head of a sorted list can be put in front of it. */
  lemma ConsSorted(t: Task, ts: seq<Task>)
    requires Sorted(ts)
    requires ts != [] ==> Precedes(t, ts[0])
    ensures Sorted([t] + ts)
  {
    var r := [t] + ts;
    forall i, j | 0 <= i < j < |r| ensures Precedes(r[i], r[j]) {
      if i == 0 {
        if j > 1 {
          PrecedesTransitive(t, ts[0], ts[j - 1]);
        }
      } else {
        assert r[i] == ts[i - 1] && r[j] == ts[j - 1];
      }
    }
  }

  lemma {:induction false} InsertSorted(t: Task, ts: seq<Task>)
    requires Sorted(ts)
    ensures Sorted(Insert(t, ts))
  {
    if ts == [] {
    } else if Precedes(t, ts[0]) {
      ConsSorted(t, ts);
    } else {
      PrecedesTotal(t, ts[0]);
      var tail := ts[1..];
      assert Sorted(tail) by {
        forall i, j | 0 <= i < j < |tail| ensures Precedes(tail[i], tail[j]) {
          assert tail[i] == ts[i + 1] && tail[j] == ts[j + 1];
        }
      }
      InsertSorted(t, tail);
      var rest := Insert(t, tail);
      assert rest[0] == t || rest[0] == ts[1];
      ConsSorted(ts[0], rest);
    }
  }

  /** `sortTasks`: the same tasks, in listing order. */
  function SortTasks(ts: seq<Task>): (r: seq<Task>)
    ensures multiset(r) == multiset(ts)
  {
    if ts == [] then []
    else
      assert ts == [ts[0]] + ts[1..];
      Insert(ts[0], SortTasks(ts[1..]))
  }

  lemma {:induction false} SortTasksSorted(ts: seq<Task>)
    ensures Sorted(SortTasks(ts))
  {
    if ts != [] {
      SortTasksSorted(ts[1..]);
      InsertSorted(ts[0], SortTasks(ts[1..]));
    }
  }
}
