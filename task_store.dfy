/**
 * The project organizer's task store as values: the `ProjectData` record
 * (project-organizer/main.ts:5-14), the array primitives its operations use
 * (`findIndex`, `splice`, `push`) and the effect of each store operation,
 * with the properties those operations keep.
 */
module TaskStore {

  datatype TaskItem = TaskItem(id: string, title: string, filePath: string)

  /** `tasks` is the active, user-ordered list; `archived` is in insertion order. */
  datatype ProjectData = ProjectData(tasks: seq<TaskItem>, archived: seq<TaskItem>)

  /** What a view starts with, and what a failed load falls back to. */
  const EmptyProject := ProjectData([], [])

  predicate HasId(s: seq<TaskItem>, id: string) {
    exists k :: 0 <= k < |s| && s[k].id == id
  }

  /** `k` is the position of the first entry of `s` whose id is `id`. */
  predicate FirstWithId(s: seq<TaskItem>, id: string, k: int) {
    0 <= k < |s| && s[k].id == id && forall j :: 0 <= j < k ==> s[j].id != id
  }

  /** `Array.prototype.findIndex(t => t.id === id)`: the first match, or -1. */
  function FindIndex(s: seq<TaskItem>, id: string): (r: int)
    ensures r == -1 <==> !HasId(s, id)
    ensures r != -1 ==> FirstWithId(s, id, r)
  {
    if |s| == 0 then -1
    else if s[0].id == id then 0
    else
      var k := FindIndex(s[1..], id);
      if k == -1 then -1 else k + 1
  }

  /** `s.splice(i, 1)`: the sequence without its element at `i`. */
  function RemoveAt<T>(s: seq<T>, i: nat): (r: seq<T>)
    requires i < |s|
    ensures |r| == |s| - 1
    ensures forall k :: 0 <= k < i ==> r[k] == s[k]
    ensures forall k :: i <= k < |r| ==> r[k] == s[k + 1]
    ensures multiset(r) + multiset{s[i]} == multiset(s)
  {
    assert s == s[..i] + [s[i]] + s[i + 1..];
    s[..i] + s[i + 1..]
  }

  /** `s.splice(i, 0, x)` for `i <= |s|`: `x` inserted so that it sits at `i`. */
  function InsertAt<T>(s: seq<T>, i: nat, x: T): (r: seq<T>)
    requires i <= |s|
    ensures |r| == |s| + 1 && r[i] == x
    ensures forall k :: 0 <= k < i ==> r[k] == s[k]
    ensures forall k :: i < k < |r| ==> r[k] == s[k - 1]
    ensures multiset(r) == multiset(s) + multiset{x}
  {
    assert s == s[..i] + s[i..];
    s[..i] + [x] + s[i..]
  }

  /**
   * `moveTask`: take the element at `from` out, then insert it at `to`
   * (project-organizer/main.ts:292-294). The result is a permutation of `s`
   * that holds the moved element at `to`; with that position removed from
   * both, the two sequences are equal, so every other element keeps its
   * relative order.
   */
  function Move<T>(s: seq<T>, from: nat, to: nat): (r: seq<T>)
    requires from < |s| && to < |s|
    ensures |r| == |s| && r[to] == s[from]
    ensures RemoveAt(r, to) == RemoveAt(s, from)
    ensures multiset(r) == multiset(s)
  {
    InsertAt(RemoveAt(s, from), to, s[from])
  }

  /** Moving back from where an element was moved to restores the sequence. */
  lemma MoveUndo<T>(s: seq<T>, i: nat, j: nat)
    requires i < |s| && j < |s|
    ensures Move(Move(s, i, j), j, i) == s
  {
  }

  /** Moving an element onto its own position changes nothing. */
  lemma MoveInPlace<T>(s: seq<T>, i: nat)
    requires i < |s|
    ensures Move(s, i, i) == s
  {
  }

  /** The "up" button (`moveTask(index, index - 1)`) swaps a task with its predecessor. */
  lemma MoveUpSwaps<T>(s: seq<T>, i: nat)
    requires 0 < i < |s|
    ensures Move(s, i, i - 1) == s[..i - 1] + [s[i], s[i - 1]] + s[i + 1..]
  {
  }

  /** The "down" button (`moveTask(index, index + 1)`) swaps a task with its successor. */
  lemma MoveDownSwaps<T>(s: seq<T>, i: nat)
    requires i + 1 < |s|
    ensures Move(s, i, i + 1) == s[..i] + [s[i + 1], s[i]] + s[i + 2..]
  {
  }

  /** The store after `moveTask(from, to)`: only `tasks` changes. */
  function MoveTask(d: ProjectData, from: nat, to: nat): (r: ProjectData)
    requires from < |d.tasks| && to < |d.tasks|
    ensures r.archived == d.archived
    ensures multiset(r.tasks) == multiset(d.tasks) && r.tasks[to] == d.tasks[from]
    ensures |r.tasks| == |d.tasks| && RemoveAt(r.tasks, to) == RemoveAt(d.tasks, from)
  {
    ProjectData(Move(d.tasks, from, to), d.archived)
  }

  /**
   * The store after `archiveTask(task)` (project-organizer/main.ts:299-303):
   * when some active task has `task.id`, the first such entry leaves `tasks`
   * and `task` itself is appended to `archived`; otherwise nothing changes.
   */
  function ArchiveTask(d: ProjectData, task: TaskItem): (r: ProjectData)
    ensures !HasId(d.tasks, task.id) ==> r == d
    ensures HasId(d.tasks, task.id) ==>
      && r.archived == d.archived + [task]
      && exists k :: FirstWithId(d.tasks, task.id, k) && r.tasks == RemoveAt(d.tasks, k)
    ensures |r.tasks| + |r.archived| == |d.tasks| + |d.archived|
  {
    var i := FindIndex(d.tasks, task.id);
    if i == -1 then d else ProjectData(RemoveAt(d.tasks, i), d.archived + [task])
  }

  /**
   * The store after `unarchiveTask(task)` (project-organizer/main.ts:310-314):
   * the mirror of archiving, from `archived` to the end of `tasks`.
   */
  function UnarchiveTask(d: ProjectData, task: TaskItem): (r: ProjectData)
    ensures !HasId(d.archived, task.id) ==> r == d
    ensures HasId(d.archived, task.id) ==>
      && r.tasks == d.tasks + [task]
      && exists k :: FirstWithId(d.archived, task.id, k) && r.archived == RemoveAt(d.archived, k)
    ensures |r.tasks| + |r.archived| == |d.tasks| + |d.archived|
  {
    var i := FindIndex(d.archived, task.id);
    if i == -1 then d else ProjectData(d.tasks + [task], RemoveAt(d.archived, i))
  }

  /**
   * The store after `deleteTask(task, isArchived)` (project-organizer/main.ts:321-326):
   * the first entry with `task.id` leaves the chosen sequence; the other
   * sequence is untouched, and an absent id changes nothing.
   */
  function DeleteTask(d: ProjectData, task: TaskItem, isArchived: bool): (r: ProjectData)
    ensures isArchived ==> r.tasks == d.tasks
    ensures !isArchived ==> r.archived == d.archived
    ensures var s := if isArchived then d.archived else d.tasks;
            var t := if isArchived then r.archived else r.tasks;
            && (!HasId(s, task.id) ==> t == s)
            && (HasId(s, task.id) ==> exists k :: FirstWithId(s, task.id, k) && t == RemoveAt(s, k))
  {
    if isArchived then
      var i := FindIndex(d.archived, task.id);
      if i == -1 then d else ProjectData(d.tasks, RemoveAt(d.archived, i))
    else
      var i := FindIndex(d.tasks, task.id);
      if i == -1 then d else ProjectData(RemoveAt(d.tasks, i), d.archived)
  }

  /** The store after the add-task callback pushes `task` (project-organizer/main.ts:285). */
  function AddTask(d: ProjectData, task: TaskItem): (r: ProjectData)
    ensures |r.tasks| == |d.tasks| + 1 && r.tasks[|d.tasks|] == task
    ensures r.tasks[..|d.tasks|] == d.tasks && r.archived == d.archived
  {
    ProjectData(d.tasks + [task], d.archived)
  }

  // ---------------------------------------------------------------------
  // Identifier uniqueness across both sequences
  // ---------------------------------------------------------------------

  function Ids(s: seq<TaskItem>): (r: seq<string>)
    ensures |r| == |s| && forall k :: 0 <= k < |s| ==> r[k] == s[k].id
  {
    seq(|s|, k requires 0 <= k < |s| => s[k].id)
  }

  ghost predicate Distinct<T>(s: seq<T>) {
    forall i, j :: 0 <= i < j < |s| ==> s[i] != s[j]
  }

  /** Ids of all tasks of a store, active first. */
  function AllIds(d: ProjectData): (ids: seq<string>)
    ensures |ids| == |d.tasks| + |d.archived|
  {
    Ids(d.tasks + d.archived)
  }

  /** No id occurs twice in `tasks`, twice in `archived`, or in both. */
  ghost predicate UniqueIds(d: ProjectData) {
    Distinct(AllIds(d))
  }

  /** A sequence has distinct elements exactly when no element occurs twice in its multiset. */
  lemma {:induction false} DistinctIffSingleOccurrences<T>(s: seq<T>)
    ensures Distinct(s) <==> forall x :: multiset(s)[x] <= 1
  {
    if s != [] {
      var rest := s[1..];
      assert s == [s[0]] + rest;
      DistinctIffSingleOccurrences(rest);
      if Distinct(s) {
        assert Distinct(rest) by {
          forall i, j | 0 <= i < j < |rest| ensures rest[i] != rest[j] {
            assert s[i + 1] != s[j + 1];
          }
        }
        assert s[0] !in rest by {
          forall k | 0 <= k < |rest| ensures rest[k] != s[0] {
            assert s[0] != s[k + 1];
          }
        }
      } else {
        var i, j :| 0 <= i < j < |s| && s[i] == s[j];
        if i == 0 {
          assert s[j] == rest[j - 1];
          assert multiset(s)[s[0]] == multiset(rest)[s[0]] + 1;
        } else {
          assert rest[i - 1] == rest[j - 1];
          assert !Distinct(rest);
          var x :| multiset(rest)[x] > 1;
          assert multiset(s)[x] >= multiset(rest)[x];
        }
      }
    }
  }

  /** Removing and reordering elements keeps a distinct sequence distinct. */
  lemma DistinctSubMultiset<T>(s: seq<T>, t: seq<T>)
    requires Distinct(s) && multiset(t) <= multiset(s)
    ensures Distinct(t)
  {
    DistinctIffSingleOccurrences(s);
    DistinctIffSingleOccurrences(t);
    forall x ensures multiset(t)[x] <= 1 {
      assert multiset(t)[x] <= multiset(s)[x];
    }
  }

  lemma IdsConcat(a: seq<TaskItem>, b: seq<TaskItem>)
    ensures Ids(a + b) == Ids(a) + Ids(b)
  {
  }

  lemma IdsRemoveAt(s: seq<TaskItem>, i: nat)
    requires i < |s|
    ensures Ids(RemoveAt(s, i)) == RemoveAt(Ids(s), i)
  {
  }

  lemma IdsInsertAt(s: seq<TaskItem>, i: nat, x: TaskItem)
    requires i <= |s|
    ensures Ids(InsertAt(s, i, x)) == InsertAt(Ids(s), i, x.id)
  {
  }

  lemma MoveTaskKeepsIds(d: ProjectData, from: nat, to: nat)
    requires from < |d.tasks| && to < |d.tasks|
    ensures multiset(AllIds(MoveTask(d, from, to))) == multiset(AllIds(d))
  {
    var s := d.tasks;
    IdsConcat(s, d.archived);
    IdsConcat(Move(s, from, to), d.archived);
    IdsRemoveAt(s, from);
    IdsInsertAt(RemoveAt(s, from), to, s[from]);
    assert Ids(Move(s, from, to)) == Move(Ids(s), from, to);
  }

  lemma MoveTaskKeepsUniqueIds(d: ProjectData, from: nat, to: nat)
    requires from < |d.tasks| && to < |d.tasks|
    requires UniqueIds(d)
    ensures UniqueIds(MoveTask(d, from, to))
  {
    MoveTaskKeepsIds(d, from, to);
    DistinctSubMultiset(AllIds(d), AllIds(MoveTask(d, from, to)));
  }

  /** Taking the element at `i` out of `t` and appending it after `a` keeps the multiset. */
  lemma RemoveThenAppend<T>(t: seq<T>, i: nat, a: seq<T>)
    requires i < |t|
    ensures multiset(RemoveAt(t, i) + a + [t[i]]) == multiset(t + a)
  {
  }

  lemma ArchiveTaskKeepsUniqueIds(d: ProjectData, task: TaskItem)
    requires UniqueIds(d)
    ensures UniqueIds(ArchiveTask(d, task))
  {
    var i := FindIndex(d.tasks, task.id);
    if i != -1 {
      var r := ArchiveTask(d, task);
      calc {
        AllIds(r);
        Ids(RemoveAt(d.tasks, i) + (d.archived + [task]));
        { IdsConcat(RemoveAt(d.tasks, i), d.archived + [task]); IdsConcat(d.archived, [task]); }
        Ids(RemoveAt(d.tasks, i)) + (Ids(d.archived) + [task.id]);
        { IdsRemoveAt(d.tasks, i); }
        RemoveAt(Ids(d.tasks), i) + Ids(d.archived) + [Ids(d.tasks)[i]];
      }
      RemoveThenAppend(Ids(d.tasks), i, Ids(d.archived));
      IdsConcat(d.tasks, d.archived);
      DistinctSubMultiset(AllIds(d), AllIds(r));
    }
  }

  lemma UnarchiveTaskKeepsUniqueIds(d: ProjectData, task: TaskItem)
    requires UniqueIds(d)
    ensures UniqueIds(UnarchiveTask(d, task))
  {
    var i := FindIndex(d.archived, task.id);
    if i != -1 {
      var r := UnarchiveTask(d, task);
      calc {
        AllIds(r);
        Ids((d.tasks + [task]) + RemoveAt(d.archived, i));
        { IdsConcat(d.tasks + [task], RemoveAt(d.archived, i)); IdsConcat(d.tasks, [task]); }
        Ids(d.tasks) + [task.id] + Ids(RemoveAt(d.archived, i));
        { IdsRemoveAt(d.archived, i); }
        Ids(d.tasks) + [Ids(d.archived)[i]] + RemoveAt(Ids(d.archived), i);
      }
      assert multiset(AllIds(r)) == multiset(Ids(d.tasks)) + multiset(RemoveAt(Ids(d.archived), i) + [Ids(d.archived)[i]]);
      RemoveThenAppend(Ids(d.archived), i, []);
      IdsConcat(d.tasks, d.archived);
      DistinctSubMultiset(AllIds(d), AllIds(r));
    }
  }

  lemma DeleteTaskKeepsUniqueIds(d: ProjectData, task: TaskItem, isArchived: bool)
    requires UniqueIds(d)
    ensures UniqueIds(DeleteTask(d, task, isArchived))
  {
    var r := DeleteTask(d, task, isArchived);
    IdsConcat(d.tasks, d.archived);
    IdsConcat(r.tasks, r.archived);
    if isArchived {
      var i := FindIndex(d.archived, task.id);
      if i != -1 {
        IdsRemoveAt(d.archived, i);
        assert multiset(Ids(r.archived)) <= multiset(Ids(d.archived));
      }
    } else {
      var i := FindIndex(d.tasks, task.id);
      if i != -1 {
        IdsRemoveAt(d.tasks, i);
        assert multiset(Ids(r.tasks)) <= multiset(Ids(d.tasks));
      }
    }
    DistinctSubMultiset(AllIds(d), AllIds(r));
  }

  /** An add whose id is new to both sequences keeps the ids unique. */
  /** An id that neither list holds is not among the store's ids. */
  lemma FreshIdAbsent(d: ProjectData, id: string)
    requires !HasId(d.tasks, id) && !HasId(d.archived, id)
    ensures id !in multiset(AllIds(d))
  {
    IdsConcat(d.tasks, d.archived);
    forall k | 0 <= k < |AllIds(d)| ensures AllIds(d)[k] != id {
      if k < |d.tasks| {
        assert AllIds(d)[k] == d.tasks[k].id;
      } else {
        assert AllIds(d)[k] == d.archived[k - |d.tasks|].id;
      }
    }
  }

  lemma AddTaskKeepsUniqueIds(d: ProjectData, task: TaskItem)
    requires UniqueIds(d)
    requires !HasId(d.tasks, task.id) && !HasId(d.archived, task.id)
    ensures UniqueIds(AddTask(d, task))
  {
    var r := AddTask(d, task);
    FreshIdAbsent(d, task.id);
    IdsConcat(d.tasks, d.archived);
    IdsConcat(r.tasks, r.archived);
    IdsConcat(d.tasks, [task]);
    assert multiset(AllIds(r)) == multiset(AllIds(d)) + multiset{task.id};
    DistinctIffSingleOccurrences(AllIds(d));
    DistinctIffSingleOccurrences(AllIds(r));
  }

  lemma EmptyProjectHasUniqueIds()
    ensures UniqueIds(EmptyProject)
  {
  }

  /**
   * Archiving an active task and then unarchiving it leaves `archived` as it
   * was and puts the task at the end of `tasks`, with its fields unchanged.
   */
  lemma ArchiveThenUnarchive(d: ProjectData, task: TaskItem)
    requires UniqueIds(d) && HasId(d.tasks, task.id)
    ensures var r := UnarchiveTask(ArchiveTask(d, task), task);
            && r.archived == d.archived
            && r.tasks == RemoveAt(d.tasks, FindIndex(d.tasks, task.id)) + [task]
            && |r.tasks| == |d.tasks|
  {
    var a := ArchiveTask(d, task);
    var i := FindIndex(d.tasks, task.id);
    assert a.archived == d.archived + [task];
    forall k | 0 <= k < |d.archived| ensures d.archived[k].id != task.id {
      IdsConcat(d.tasks, d.archived);
      assert AllIds(d)[i] != AllIds(d)[|d.tasks| + k];
    }
    assert FirstWithId(a.archived, task.id, |d.archived|);
    assert FindIndex(a.archived, task.id) == |d.archived|;
    assert RemoveAt(a.archived, |d.archived|) == d.archived;
  }
}
