# Kanban board: column and inline title editor

A Dafny model of the client-side logic of a desktop kanban board. Two React
components are modelled.

- **The column** (`column.tsx`). It shows the cached tasks that belong to it, a
  header icon chosen from its position and name, and a "new task" slot. Its
  mutation callbacks write the shared task cache (query key `['tasks']`).
  A created task is appended. A renamed task gets its new title optimistically,
  and the old list is restored if the rename fails.
- **The inline title editor** (`editable-title.tsx`). It holds two state fields,
  `isEditing` and `editValue` (the draft). Click, change, blur, Enter, Escape
  and a new `title` prop each update them. Blur and Enter may emit
  `onCommit(trimmed draft)`; Escape emits `onCancel()`.

Module layout:

- `Wrappers`: `Option`.
- `JsString`: JavaScript's `trim` over ECMAScript's fixed whitespace set, and
  `toLowerCase`.
- `KanbanTypes`: the `ColumnRecord` and `Task` records.
- `TaskCache`: the pure list transforms (filter by column, append, rename, rollback).
- `ColumnComponent`: the header-icon rule, the create guard, and the class
  `Column`. Its fields are the new-task slot and a reference to the shared
  `QueryCache`. Its methods are the event handlers and mutation callbacks.
- `EditableTitleComponent`: the class `EditableTitle`, one method per event.
  The pure commit rule `CommitOutcome` sits beside it.
- `NewTaskCard`: the column's new-task card wired to the editor (see Findings).

Each React effect is run inside the event method that triggers it. `Synced()`
says that outside editing the draft equals the title. It holds after the
constructor and after every event method: `ReceiveTitle`, `Click`, `Change`,
`Blur`, `KeyDown` and `SyncEffect`. `CommitEdit` is the step that `Blur` and
Enter share before the sync effect runs, so it leaves the draft untouched. `Change`,
`Blur` and `KeyDown` require `isEditing`, because their handlers sit on the text
input, which is rendered only while editing. Each mutation callback
(`onMutate`, `onSuccess`, `onError`) is one atomic step on the cache.

What the code evidently intends and what it does differ in one place. The blank
branch of `handleCreateTask` (column.tsx:62-63) sets the slot to null, so a blank
new task is meant to be discarded. Its only caller, the new-task card, never
reaches that branch, and the empty card stays open (see Findings). The model
follows the code and proves the intended wiring separately. Reordering tasks by
drag and drop has no code, so none is modelled.

## Model

| member | source | states |
|---|---|---|
| `JsString.IsWhitespace` | src/renderer/src/components/editable-title.tsx:37 | the set `trim` strips is ECMAScript's WhiteSpace and LineTerminator; no printable ASCII, DEL or C1 control is in it, nor NEXT LINE, MONGOLIAN VOWEL SEPARATOR or ZERO WIDTH SPACE |
| `JsString.TrimStartCutsWhitespacePrefix` | src/renderer/src/components/editable-title.tsx:37 | the result is a suffix of the input; everything cut off is whitespace; the result does not start with whitespace |
| `JsString.TrimEndCutsWhitespaceSuffix` | src/renderer/src/components/editable-title.tsx:37 | the result is a prefix of the input; everything cut off is whitespace; the result does not end with whitespace |
| `JsString.Trim` | src/renderer/src/components/editable-title.tsx:37 | the trimmed string has no whitespace at either end and is no longer than the input |
| `JsString.TrimIsInfix` | src/renderer/src/components/editable-title.tsx:37 | the input is the trimmed string with whitespace before and after it |
| `JsString.TrimUnique` | src/renderer/src/components/editable-title.tsx:37 | trim is the only way to split a string into whitespace, an unpadded middle and whitespace |
| `JsString.TrimIdempotent` | src/renderer/src/features/column/column.tsx:60-61 | trimming an already trimmed string changes nothing |
| `JsString.TrimEmptyIffBlank` | src/renderer/src/features/column/column.tsx:60 | `title.trim()` is empty (falsy) exactly when every character is whitespace |
| `JsString.LowerChar` | src/renderer/src/features/column/column.tsx:83 | upper-case A to Z map to their lower-case letter; other characters are unchanged |
| `JsString.LowerCase` | src/renderer/src/features/column/column.tsx:83 | lower-casing keeps the length and maps each character |
| `JsString.LowerCaseIsDone` | src/renderer/src/features/column/column.tsx:83 | `name.toLowerCase() === 'done'` holds exactly for the case variants of "done" |
| `TaskCache.ColumnTasks` | src/renderer/src/features/column/column.tsx:16 | every task a column shows belongs to that column; the column never shows more tasks than are cached |
| `TaskCache.ColumnTasksCounts` | src/renderer/src/features/column/column.tsx:16 | each task of the column appears as often as in the cache; tasks of other columns do not appear |
| `TaskCache.ColumnTasksOfConcat` | src/renderer/src/features/column/column.tsx:16 | the filter keeps cache order: filtering `a + b` gives the filtered `a` followed by the filtered `b` |
| `TaskCache.AppendCreated` | src/renderer/src/features/column/column.tsx:25-28 | after a create the cache is the old list plus the new task at the end, or just the new task when nothing was cached |
| `TaskCache.VisibleAfterCreate` | src/renderer/src/features/column/column.tsx:24-29 | a created task appears at the end of its own column; every other column shows what it showed before |
| `TaskCache.RenameTask` | src/renderer/src/features/column/column.tsx:46 | the rename keeps length and order; the task with the matching id gets the new title; nothing else, and no other field, changes |
| `TaskCache.RenameMissingIdIsIdentity` | src/renderer/src/features/column/column.tsx:46 | renaming an id that no cached task has leaves the list unchanged |
| `TaskCache.RenameCommutesWithColumnTasks` | src/renderer/src/features/column/column.tsx:44-47 | a rename never moves a task between columns: rename then filter equals filter then rename |
| `TaskCache.OptimisticRename` | src/renderer/src/features/column/column.tsx:44-47 | an absent cache becomes the empty list; a cached list is renamed |
| `TaskCache.Rollback` | src/renderer/src/features/column/column.tsx:51-54 | a saved snapshot (an empty list counts as one) replaces the cache; without a snapshot the cache stays |
| `TaskCache.RollbackUndoesRename` | src/renderer/src/features/column/column.tsx:40-54 | a failed rename restores the cache from before the rename; an absent cache comes back as the empty list |
| `ColumnComponent.StatusIconFor` | src/renderer/src/features/column/column.tsx:73-111 | index 0 always gets the open circle; otherwise a name equal to "done" in any case gets the checkmark; every other column gets the dot |
| `ColumnComponent.CreateRequestFor` | src/renderer/src/features/column/column.tsx:59-65 | a create is issued exactly for a non-blank title, with the trimmed (non-empty, unpadded) title and this column's id |
| `ColumnComponent.HandleCreate` | src/renderer/src/features/column/column.tsx:59-65 | a blank title issues no create and clears the slot; any other issues one create with the trimmed title and this column's id and leaves the slot as it was |
| `ColumnComponent.QueryCache.constructor` | src/renderer/src/routes/index.tsx:21-28 | the shared `['tasks']` cache entry starts with the given list, or absent |
| `ColumnComponent.Column.VisibleTasks` | src/renderer/src/features/column/column.tsx:16 | the column renders only its own tasks, taken from the cache or from `[]` when nothing is cached (routes/index.tsx:65), never more than are cached |
| `ColumnComponent.Column.Header` | src/renderer/src/features/column/column.tsx:117 | the column's own header is the open circle when it is first, the checkmark when it is elsewhere and named "done" in any case, and the dot otherwise |
| `ColumnComponent.Column.constructor` | src/renderer/src/features/column/column.tsx:14-15 | a column starts with no new-task card open |
| `ColumnComponent.Column.ShowsAddButton` | src/renderer/src/features/column/column.tsx:129-147 | the add button is shown exactly when the new-task card is not, and the card exactly when `isCreatingTask` equals the column id |
| `ColumnComponent.Column.ClickAddButton` | src/renderer/src/features/column/column.tsx:140-142 | the add button opens this column's new-task card |
| `ColumnComponent.Column.CloseNewTaskCard` | src/renderer/src/features/column/column.tsx:136-137 | cancelling or deleting the new-task card closes it and shows the add button |
| `ColumnComponent.Column.HandleCreateTask` | src/renderer/src/features/column/column.tsx:59-65 | the request and new slot are those of `HandleCreate`: a non-blank title issues one create and leaves the slot alone; a blank one issues none and closes the slot |
| `ColumnComponent.Column.OnCreateSuccess` | src/renderer/src/features/column/column.tsx:24-30 | the cache becomes the old list plus the new task, and the slot is cleared |
| `ColumnComponent.Column.OnCreateError` | src/renderer/src/features/column/column.tsx:31-33 | a failed create changes neither the cache nor the slot |
| `ColumnComponent.Column.OnUpdateMutate` | src/renderer/src/features/column/column.tsx:40-50 | the cache is saved as the context, then replaced by the optimistically renamed list |
| `ColumnComponent.Column.OnUpdateError` | src/renderer/src/features/column/column.tsx:51-56 | the cache is rolled back to the context's snapshot when there is one |
| `ColumnComponent.RenameThenFail` | src/renderer/src/features/column/column.tsx:40-56 | mutate then fail leaves the cache and the column's visible tasks as they were |
| `ColumnComponent.RenamePending` | src/renderer/src/features/column/column.tsx:120-128 | while a rename is pending, the column shows the same tasks in the same order, with the new title on the renamed one |
| `EditableTitleComponent.CommitOutcome` | src/renderer/src/components/editable-title.tsx:36-40 | commit emits the trimmed draft exactly when it differs from the title, and never emits a cancel |
| `EditableTitleComponent.CommittedValueIsTrimmed` | src/renderer/src/components/editable-title.tsx:37-38 | a committed value has no leading or trailing whitespace and is a fixpoint of trim |
| `EditableTitleComponent.RecommitIsSilent` | src/renderer/src/components/editable-title.tsx:37-38 | once the committed value is the title, committing the same draft again emits nothing |
| `EditableTitleComponent.PaddedTitleIsSilent` | src/renderer/src/components/editable-title.tsx:37-38 | a draft that is the (trimmed) title padded with whitespace emits nothing |
| `EditableTitleComponent.BlankDraftOnEmptyTitle` | src/renderer/src/components/editable-title.tsx:37-38 | with an empty title, the commit emits nothing exactly when the draft is blank |
| `EditableTitleComponent.EditableTitle.constructor` | src/renderer/src/components/editable-title.tsx:19-20 | initially `isEditing == autoFocus` and the draft is the title |
| `EditableTitleComponent.EditableTitle.Render` | src/renderer/src/components/editable-title.tsx:61-74 | the title text is shown exactly when not editing, and it shows the title prop, not the draft; while editing the input holds the draft |
| `EditableTitleComponent.EditableTitle.SyncEffect` | src/renderer/src/components/editable-title.tsx:30-34 | when not editing, the draft is reset to the title; while editing it is kept |
| `EditableTitleComponent.EditableTitle.ReceiveTitle` | src/renderer/src/components/editable-title.tsx:30-34 | a new title prop is taken; outside editing the draft follows it and the title text shows it |
| `EditableTitleComponent.EditableTitle.Click` | src/renderer/src/components/editable-title.tsx:55 | a click starts editing and changes nothing else; the input starts with the title |
| `EditableTitleComponent.EditableTitle.Change` | src/renderer/src/components/editable-title.tsx:66 | typing replaces the draft only |
| `EditableTitleComponent.EditableTitle.CommitEdit` | src/renderer/src/components/editable-title.tsx:36-40 | the emitted event is the commit rule's outcome, and editing ends |
| `EditableTitleComponent.EditableTitle.Blur` | src/renderer/src/components/editable-title.tsx:67 | blur commits, ends editing, shows the title text and resets the draft to the title |
| `EditableTitleComponent.EditableTitle.KeyDown` | src/renderer/src/components/editable-title.tsx:42-51 | Enter commits as blur does; Escape emits only the cancel, ends editing and resets the draft; other keys do nothing |
| `EditableTitleComponent.TypeAndEnterOnNewCard` | src/renderer/src/components/task-card/task-card.tsx:38-43 | on a new card (empty title, editing), Enter emits nothing exactly for a blank draft, otherwise the trimmed non-empty draft |
| `NewTaskCard.CommitAsWritten` | src/renderer/src/features/column/column.tsx:129-139 | as written, a commit on the new-task card keeps the card open; a blank draft issues no create, any other draft one create with the trimmed title |
| `NewTaskCard.CommitAsWrittenNeverCloses` | src/renderer/src/features/column/column.tsx:129-139 | as written, no commit on the new-task card ever closes it |
| `NewTaskCard.BlankDraftLeavesCardOpen` | src/renderer/src/features/column/column.tsx:129-139 | as written, a whitespace-only draft issues no create and leaves the empty card open |
| `NewTaskCard.Commit` | src/renderer/src/features/column/column.tsx:59-65 | intended wiring: a blank draft creates nothing and closes the card; any other draft creates one task with the trimmed title |
| `NewTaskCard.CommitAgreesUnlessBlank` | src/renderer/src/features/column/column.tsx:59-65 | the written and the intended wiring agree exactly on the drafts that are not blank |

## Findings

| source | as written | input that shows it | evidently intended | confidence | as-written member | corrected member |
|---|---|---|---|---|---|---|
| src/renderer/src/features/column/column.tsx:129-139 | The new-task card has the title `""`. A blank draft trims to `""`, which equals the title, so the editor emits no commit. `handleCreateTask` is never called, its blank branch (lines 62-63) never runs, and an empty card stays open. | Open the new-task card, type `"  "`, press Enter. | A blank creation is discarded and the card closes (the blank branch of `handleCreateTask`). | high; not executed | `NewTaskCard.CommitAsWritten` (`NewTaskCard.BlankDraftLeavesCardOpen`, `NewTaskCard.CommitAsWrittenNeverCloses`) | `NewTaskCard.Commit` |

## Left out

- Drag-and-drop reordering and moving tasks between columns: no code for it exists.
- The backend: database setup, schema, seeding and the IPC handlers. These are I/O against libraries.
- The backend's label detachment ignores the label id and deletes all of a task's label links. It is not part of this model.
- The API calls themselves (`window.api.tasks.create` / `update`). A create is modelled only as the `CreateRequest` it would send. The update's arguments are the `OnUpdateMutate` parameters.
- React Query mechanics: the asynchronous `cancelQueries`, retries, and how overlapping mutations interleave. Each callback is one atomic step.
- `handleDelete` (a logging stub) and every `console.error` / `console.log` call.
- The focus-and-select effect (editable-title.tsx:23-28), `stopPropagation` on the input (line 70), and all styling.
- A blur that the browser might fire when the input unmounts after Enter: not modelled.
- The loading, error and empty-board screens of the route.
- JsString.LowerCase, JsString.LowerChar: map only A to Z. JavaScript's full Unicode lower-casing is not modelled. No other character lower-cases to d, o, n or e, so the comparison with "done" is decided the same way.
- Ids and orders are unbounded integers. JavaScript numbers and SQLite integer widths are not modelled; the model only compares ids for equality.
