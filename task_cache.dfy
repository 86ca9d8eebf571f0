/**
 * The client-side task list cached under the query key ['tasks'], and the
 * pure transformations the column component applies to it. The cache is
 * absent (`None`) until the list has been fetched.
 */
module TaskCache {
  import opened Wrappers
  import opened KanbanTypes

  /** The tasks a column shows: the cached tasks owned by `columnId`, in
      cache order, each exactly as often as it occurs in the cache. */
  function ColumnTasks(tasks: seq<Task>, columnId: int): (r: seq<Task>)
    ensures |r| <= |tasks|
    ensures forall i :: 0 <= i < |r| ==> r[i].columnId == columnId
  {
    if tasks == [] then []
    else (if tasks[0].columnId == columnId then [tasks[0]] else []) + ColumnTasks(tasks[1..], columnId)
  }

  /** No task is lost or duplicated by the filter: each task of the column
      occurs as often as in the cache, every other task not at all. */
  lemma {:induction false} ColumnTasksCounts(tasks: seq<Task>, columnId: int, t: Task)
    ensures multiset(ColumnTasks(tasks, columnId))[t] == if t.columnId == columnId then multiset(tasks)[t] else 0
  {
    if tasks != [] {
      assert tasks == [tasks[0]] + tasks[1..];
      ColumnTasksCounts(tasks[1..], columnId, t);
    }
  }

  /** Filtering respects cache order: the visible tasks of a front part of
      the cache come before those of the rest. */
  lemma {:induction false} ColumnTasksOfConcat(a: seq<Task>, b: seq<Task>, columnId: int)
    ensures ColumnTasks(a + b, columnId) == ColumnTasks(a, columnId) + ColumnTasks(b, columnId)
  {
    if a != [] {
      var head := if a[0].columnId == columnId then [a[0]] else [];
      assert (a + b)[0] == a[0];
      assert (a + b)[1..] == a[1..] + b;
      assert ColumnTasks(a + b, columnId) == head + ColumnTasks(a[1..] + b, columnId);
      assert ColumnTasks(a, columnId) == head + ColumnTasks(a[1..], columnId);
      ColumnTasksOfConcat(a[1..], b, columnId);
      assert head + (ColumnTasks(a[1..], columnId) + ColumnTasks(b, columnId))
          == (head + ColumnTasks(a[1..], columnId)) + ColumnTasks(b, columnId);
    } else {
      assert a + b == b;
    }
  }

  /** The cache after a task was created: the new task at the end, or a
      one-task list when nothing was cached yet. */
  function AppendCreated(cache: Option<seq<Task>>, newTask: Task): (r: seq<Task>)
    ensures |r| == |cache.GetOr([])| + 1
    ensures r[..|r| - 1] == cache.GetOr([]) && r[|r| - 1] == newTask
  {
    match cache
    case None => [newTask]
    case Some(previous) => previous + [newTask]
  }

  /** A created task appears at the end of its own column and nowhere else;
      every other column shows what it showed before. */
  lemma VisibleAfterCreate(cache: Option<seq<Task>>, newTask: Task, columnId: int)
    ensures ColumnTasks(AppendCreated(cache, newTask), columnId)
         == ColumnTasks(cache.GetOr([]), columnId) + (if newTask.columnId == columnId then [newTask] else [])
  {
    var r := AppendCreated(cache, newTask);
    assert r == cache.GetOr([]) + [newTask];
    ColumnTasksOfConcat(cache.GetOr([]), [newTask], columnId);
    assert [newTask][1..] == [];
  }

  /** The optimistic title replacement: the task whose id is `id` gets the
      title `title`; the list keeps its length and order, every other task
      stays as it was, and no field but `title` changes. */
  function RenameTask(tasks: seq<Task>, id: int, title: string): (r: seq<Task>)
    ensures |r| == |tasks|
    ensures forall i :: 0 <= i < |tasks| ==> r[i].(title := tasks[i].title) == tasks[i]
    ensures forall i :: 0 <= i < |tasks| ==> r[i].title == if tasks[i].id == id then title else tasks[i].title
  {
    if tasks == [] then []
    else
      var t := tasks[0];
      [if t.id == id then t.(title := title) else t] + RenameTask(tasks[1..], id, title)
  }

  /** Renaming with an id that no cached task has changes nothing. */
  lemma RenameMissingIdIsIdentity(tasks: seq<Task>, id: int, title: string)
    requires forall i :: 0 <= i < |tasks| ==> tasks[i].id != id
    ensures RenameTask(tasks, id, title) == tasks
  {
    var r := RenameTask(tasks, id, title);
    forall i | 0 <= i < |tasks| ensures r[i] == tasks[i] {
      assert r[i].(title := tasks[i].title) == tasks[i];
    }
  }

  /** A rename never moves a task between columns: renaming and then
      filtering a column is filtering and then renaming. */
  lemma {:induction false} RenameCommutesWithColumnTasks(tasks: seq<Task>, id: int, title: string, columnId: int)
    ensures ColumnTasks(RenameTask(tasks, id, title), columnId) == RenameTask(ColumnTasks(tasks, columnId), id, title)
  {
    if tasks != [] {
      var r := RenameTask(tasks, id, title);
      assert r[0].columnId == tasks[0].columnId by {
        assert r[0].(title := tasks[0].title) == tasks[0];
      }
      assert r[1..] == RenameTask(tasks[1..], id, title);
      RenameCommutesWithColumnTasks(tasks[1..], id, title, columnId);
      var f := ColumnTasks(tasks, columnId);
      if tasks[0].columnId == columnId {
        assert f == [tasks[0]] + ColumnTasks(tasks[1..], columnId);
        assert f[1..] == ColumnTasks(tasks[1..], columnId);
      } else {
        assert f == ColumnTasks(tasks[1..], columnId);
      }
    }
  }

  /** The cache written by `onMutate`: the renamed list, or the empty list
      when nothing was cached. */
  function OptimisticRename(cache: Option<seq<Task>>, id: int, title: string): (r: seq<Task>)
    ensures cache.None? ==> r == []
    ensures cache.Some? ==> r == RenameTask(cache.value, id, title)
  {
    match cache
    case None => []
    case Some(previous) => RenameTask(previous, id, title)
  }

  /** What `onMutate` hands to `onError`: the cache as it was before the
      optimistic write (`None` when nothing was cached). */
  datatype UpdateContext = UpdateContext(previousTasks: Option<seq<Task>>)

  /** The cache after `onError`: the saved snapshot when there is one, else
      the cache as it stands. An empty saved list is a snapshot too, since an
      empty JavaScript array is truthy. `context` is `None` when `onMutate`
      did not complete. */
  function Rollback(current: Option<seq<Task>>, context: Option<UpdateContext>): (r: Option<seq<Task>>)
    ensures (context.Some? && context.value.previousTasks.Some?) ==> r == context.value.previousTasks
    ensures !(context.Some? && context.value.previousTasks.Some?) ==> r == current
  {
    if context.Some? && context.value.previousTasks.Some? then context.value.previousTasks else current
  }

  /** A failed update undoes the optimistic rename exactly when a list was
      cached before it; from an absent cache the empty list stays. */
  lemma RollbackUndoesRename(cache: Option<seq<Task>>, id: int, title: string)
    ensures Rollback(Some(OptimisticRename(cache, id, title)), Some(UpdateContext(cache)))
         == if cache.Some? then cache else Some([])
  {
  }
}
