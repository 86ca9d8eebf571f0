/**
 * The new-task card: the column renders a task card with an empty title
 * whose editor starts in editing mode, wires the editor's commit to
 * `handleCreateTask` and its cancel to closing the card.
 *
 * Because the card's title is empty, a blank draft trims to the title
 * itself, so the editor emits no commit and `handleCreateTask` never sees a
 * blank title: its branch that closes the card is unreachable from this
 * card, and committing a blank draft leaves an empty card open.
 * `CommitAsWritten` models that wiring; `Commit` models the intended one,
 * where a blank draft discards the card.
 */
module NewTaskCard {
  import opened Wrappers
  import opened JsString
  import opened ColumnComponent
  import opened EditableTitleComponent

  /** The wiring as written, starting from the open card of `columnId`:
      the editor's commit rule with the empty title decides whether
      `handleCreateTask` is called at all. A blank draft issues no create and
      keeps the card open; any other draft issues one create with the
      trimmed title. */
  function CommitAsWritten(draft: string, columnId: int): (o: CreateOutcome)
    ensures o.slot == Some(columnId)
    ensures o.request == if AllWhitespace(draft) then None else Some(CreateRequest(Trim(draft), columnId))
  {
    BlankDraftOnEmptyTitle(draft);
    TrimIdempotent(draft);
    TrimEmptyIffBlank(Trim(draft));
    match CommitOutcome("", draft)
    case Commit(v) => HandleCreate(v, columnId, Some(columnId))
    case _ => CreateOutcome(None, Some(columnId))
  }

  /** No commit on the new-task card ever closes it: the blank branch of
      `handleCreateTask` is dead code for the one caller it has. */
  lemma CommitAsWrittenNeverCloses(draft: string, columnId: int)
    ensures CommitAsWritten(draft, columnId).slot == Some(columnId)
  {
    var e := CommitOutcome("", draft);
    if e.Commit? {
      var v := e.value;
      assert v == Trim(draft) && v != [] && NoEdgeWhitespace(v);
      assert !IsWhitespace(v[0]);
      assert !AllWhitespace(v);
    }
  }

  /** Counterexample: committing a whitespace-only draft issues no create
      but leaves the empty card open instead of discarding it. */
  lemma BlankDraftLeavesCardOpen(columnId: int)
    ensures CommitAsWritten("  ", columnId) == CreateOutcome(None, Some(columnId))
  {
    BlankDraftOnEmptyTitle("  ");
  }

  /** The intended wiring: every commit of the new-task card reaches
      `handleCreateTask` with the trimmed draft. A blank draft discards the
      card and creates nothing; any other draft creates one task with the
      trimmed title in this column, and the card stays open until the create
      succeeds. */
  function Commit(draft: string, columnId: int): (o: CreateOutcome)
    ensures AllWhitespace(draft) ==> o == CreateOutcome(None, None)
    ensures !AllWhitespace(draft) ==> o == CreateOutcome(Some(CreateRequest(Trim(draft), columnId)), Some(columnId))
  {
    TrimIdempotent(draft);
    TrimEmptyIffBlank(draft);
    TrimEmptyIffBlank(Trim(draft));
    HandleCreate(Trim(draft), columnId, Some(columnId))
  }

  /** On drafts that are not blank, the written and the intended wiring
      agree; they differ only on blank drafts. */
  lemma CommitAgreesUnlessBlank(draft: string, columnId: int)
    ensures CommitAsWritten(draft, columnId) == Commit(draft, columnId) <==> !AllWhitespace(draft)
  {
    BlankDraftOnEmptyTitle(draft);
    TrimIdempotent(draft);
    TrimEmptyIffBlank(Trim(draft));
  }
}
