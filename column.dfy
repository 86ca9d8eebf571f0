/**
 * One board column: its header icon, the tasks it shows, the "new task"
 * slot, and the handlers that write the shared task cache when a task is
 * created or renamed.
 */
module ColumnComponent {
  import opened Wrappers
  import opened JsString
  import opened KanbanTypes
  import opened TaskCache

  /** The three header icons. */
  datatype StatusIcon = OpenCircle | Checkmark | Dot

  /** The header icon of the column at position `columnIndex` named
      `columnName`: the first column always gets the open circle, even when
      it is called "done"; any other column called "done" in any case gets
      the checkmark; every other column gets the dot. */
  function StatusIconFor(columnIndex: int, columnName: string): (icon: StatusIcon)
    ensures columnIndex == 0 ==> icon == OpenCircle
    ensures icon == Checkmark <==> columnIndex != 0 && SpellsDoneInAnyCase(columnName)
    ensures icon == Dot <==> columnIndex != 0 && !SpellsDoneInAnyCase(columnName)
  {
    LowerCaseIsDone(columnName);
    if columnIndex == 0 then OpenCircle
    else if LowerCase(columnName) == "done" then Checkmark
    else Dot
  }

  /** The arguments of one call to the backend's task creation. */
  datatype CreateRequest = CreateRequest(title: string, columnId: int)

  /** The create call `handleCreateTask` issues for the entered `title`, if
      any: none for a blank title, else one with the trimmed title for this
      column. */
  function CreateRequestFor(title: string, columnId: int): (r: Option<CreateRequest>)
    ensures r.Some? <==> !AllWhitespace(title)
    ensures r.Some? ==> r.value.columnId == columnId && r.value.title == Trim(title)
    ensures r.Some? ==> r.value.title != [] && NoEdgeWhitespace(r.value.title)
  {
    TrimEmptyIffBlank(title);
    if Trim(title) != [] then Some(CreateRequest(Trim(title), columnId)) else None
  }

  /** What `handleCreateTask` does: the create call issued, if any, and the
      `isCreatingTask` slot afterwards. */
  datatype CreateOutcome = CreateOutcome(request: Option<CreateRequest>, slot: Option<int>)

  /** `handleCreateTask` on the entered `title` in column `columnId` with the
      slot `slot`: a blank title issues nothing and clears the slot; any other
      issues one create with the trimmed title and leaves the slot alone. */
  function HandleCreate(title: string, columnId: int, slot: Option<int>): (o: CreateOutcome)
    ensures o.request.None? <==> AllWhitespace(title)
    ensures o.request.None? ==> o.slot == None
    ensures o.request.Some? ==> o.slot == slot && o.request.value == CreateRequest(Trim(title), columnId)
  {
    var request := CreateRequestFor(title, columnId);
    CreateOutcome(request, if request.None? then None else slot)
  }

  /** The query cache entry ['tasks'], shared by every column of the board. */
  class QueryCache {
    var tasks: Option<seq<Task>>

    constructor (initial: Option<seq<Task>>)
      ensures tasks == initial
    {
      tasks := initial;
    }
  }

  class Column {
    const column: ColumnRecord
    /** The column's position on the board. */
    const index: int
    const cache: QueryCache
    /** The id of the column whose new-task card is open, or `None`. */
    var isCreatingTask: Option<int>

    constructor (column: ColumnRecord, index: int, cache: QueryCache)
      ensures this.column == column && this.index == index && this.cache == cache
      ensures isCreatingTask == None
    {
      this.column := column;
      this.index := index;
      this.cache := cache;
      isCreatingTask := None;
    }

    /** The tasks this column renders as cards: the board passes the cached
        list, or the empty list when nothing is cached, and the column keeps
        its own tasks. */
    function VisibleTasks(): (r: seq<Task>)
      reads this, cache
      ensures forall i :: 0 <= i < |r| ==> r[i].columnId == column.id
      ensures |r| <= |cache.tasks.GetOr([])|
      ensures cache.tasks.None? ==> r == []
    {
      ColumnTasks(cache.tasks.GetOr([]), column.id)
    }

    /** The header icon: the open circle for the first column, the
        checkmark for any other column named "done" in any case, else the dot. */
    function Header(): (icon: StatusIcon)
      reads this
      ensures index == 0 ==> icon == OpenCircle
      ensures icon == Checkmark <==> index != 0 && SpellsDoneInAnyCase(column.name)
      ensures icon == Dot <==> index != 0 && !SpellsDoneInAnyCase(column.name)
    {
      StatusIconFor(index, column.name)
    }

    /** The new-task card is rendered. */
    predicate ShowsNewTaskCard()
      reads this
    {
      isCreatingTask == Some(column.id)
    }

    /** The add button is rendered: exactly when the new-task card is not. */
    predicate ShowsAddButton()
      reads this
      ensures ShowsAddButton() <==> !ShowsNewTaskCard()
    {
      isCreatingTask != Some(column.id)
    }

    /** Clicking the add button opens this column's new-task card. */
    method ClickAddButton()
      modifies this
      ensures isCreatingTask == Some(column.id)
      ensures ShowsNewTaskCard() && !ShowsAddButton()
    {
      isCreatingTask := Some(column.id);
    }

    /** Cancelling or deleting the new-task card closes it. */
    method CloseNewTaskCard()
      modifies this
      ensures isCreatingTask == None
      ensures !ShowsNewTaskCard() && ShowsAddButton()
    {
      isCreatingTask := None;
    }

    /** `handleCreateTask`: a non-blank title is trimmed and sent for this
        column, and the card stays open until the create succeeds; a blank
        title sends nothing and closes the card. */
    method HandleCreateTask(title: string) returns (request: Option<CreateRequest>)
      modifies this
      ensures CreateOutcome(request, isCreatingTask) == HandleCreate(title, column.id, old(isCreatingTask))
      ensures request == CreateRequestFor(title, column.id)
      ensures request.None? <==> AllWhitespace(title)
      ensures request.None? ==> isCreatingTask == None
      ensures request.Some? ==> isCreatingTask == old(isCreatingTask)
    {
      var outcome := HandleCreate(title, column.id, isCreatingTask);
      request := outcome.request;
      isCreatingTask := outcome.slot;
    }

    /** `createTask.onSuccess`: the created task is appended to the cache
        and the new-task card closes. */
    method OnCreateSuccess(newTask: Task)
      modifies this, cache
      ensures cache.tasks == Some(AppendCreated(old(cache.tasks), newTask))
      ensures isCreatingTask == None
    {
      cache.tasks := Some(AppendCreated(cache.tasks, newTask));
      isCreatingTask := None;
    }

    /** `createTask.onError` only logs: the cache and the card stay as they
        are. */
    method OnCreateError()
      ensures unchanged(this, cache)
    {
    }

    /** `handleUpdateTask` followed by `updateTask.onMutate`: the cache is
        saved, then overwritten with the optimistically renamed list. */
    method OnUpdateMutate(id: int, title: string) returns (context: UpdateContext)
      modifies cache
      ensures context == UpdateContext(old(cache.tasks))
      ensures cache.tasks == Some(OptimisticRename(old(cache.tasks), id, title))
    {
      context := UpdateContext(cache.tasks);
      cache.tasks := Some(OptimisticRename(cache.tasks, id, title));
    }

    /** `updateTask.onError`: restore the saved list, if one was saved. */
    method OnUpdateError(context: Option<UpdateContext>)
      modifies cache
      ensures cache.tasks == Rollback(old(cache.tasks), context)
    {
      cache.tasks := Rollback(cache.tasks, context);
    }
  }

  /** A failed rename leaves the board as it was: after `onMutate` and
      `onError` with the context `onMutate` returned, the cache holds the
      list it held before (an absent cache comes back as the empty list). */
  method RenameThenFail(col: Column, id: int, title: string)
    modifies col.cache
    ensures col.cache.tasks == if old(col.cache.tasks).Some? then old(col.cache.tasks) else Some([])
    ensures col.VisibleTasks() == old(col.VisibleTasks())
  {
    var context := col.OnUpdateMutate(id, title);
    col.OnUpdateError(Some(context));
  }

  /** While the rename is pending, the column shows the same tasks, with the
      new title on the renamed one. */
  method RenamePending(col: Column, id: int, title: string)
    modifies col.cache
    ensures col.VisibleTasks() == RenameTask(old(col.VisibleTasks()), id, title)
  {
    var _ := col.OnUpdateMutate(id, title);
    RenameCommutesWithColumnTasks(old(col.cache.tasks).GetOr([]), id, title, col.column.id);
  }
}
