/**
 * The inline title editor of a task card. It shows the `title` prop as
 * text; a click turns it into a text input holding a draft. Blur or Enter
 * commits the trimmed draft, Escape cancels. The editor never writes the
 * title itself: it tells its owner through `onCommit` or `onCancel`.
 *
 * Each React effect is run inside the event that triggers it, so every
 * method below ends in the state the next event finds.
 */
module EditableTitleComponent {
  import opened JsString

  /** The callback an event invokes, if any. */
  datatype Emitted = Nothing | Commit(value: string) | Cancel

  datatype Key = Enter | Escape | OtherKey(name: string)

  /** What the editor renders: the title as text, or the input with the draft. */
  datatype View = TitleText(text: string) | TextInput(value: string)

  /** What `commitEdit` emits for the current `title` and `draft`: the
      trimmed draft when it differs from the title, otherwise nothing. */
  function CommitOutcome(title: string, draft: string): (e: Emitted)
    ensures e != Cancel
    ensures e.Commit? <==> Trim(draft) != title
    ensures e.Commit? ==> e.value == Trim(draft)
  {
    var trimmed := Trim(draft);
    if trimmed != title then Commit(trimmed) else Nothing
  }

  /** A committed value never starts or ends with whitespace, and trimming
      it again changes nothing. */
  lemma CommittedValueIsTrimmed(title: string, draft: string)
    requires CommitOutcome(title, draft).Commit?
    ensures NoEdgeWhitespace(CommitOutcome(title, draft).value)
    ensures Trim(CommitOutcome(title, draft).value) == CommitOutcome(title, draft).value
  {
    TrimIdempotent(draft);
  }

  /** Once the owner has taken the committed value as the new title,
      committing the same draft again emits nothing. */
  lemma RecommitIsSilent(title: string, draft: string)
    requires CommitOutcome(title, draft).Commit?
    ensures CommitOutcome(CommitOutcome(title, draft).value, draft) == Nothing
  {
  }

  /** A draft that is the title with only whitespace added around it emits
      nothing, provided the title itself is trimmed. */
  lemma PaddedTitleIsSilent(title: string, p: string, q: string)
    requires NoEdgeWhitespace(title) && AllWhitespace(p) && AllWhitespace(q)
    ensures CommitOutcome(title, p + title + q) == Nothing
  {
    TrimUnique(p + title + q, p, title, q);
  }

  /** With an empty title, a blank draft emits nothing; any other draft
      emits its trimmed, non-empty text. */
  lemma BlankDraftOnEmptyTitle(draft: string)
    ensures CommitOutcome("", draft) == Nothing <==> AllWhitespace(draft)
  {
    TrimEmptyIffBlank(draft);
  }

  class EditableTitle {
    /** The `title` prop, as last received from the owner. */
    var title: string
    var isEditing: bool
    /** The draft in the input. */
    var editValue: string

    /** Outside editing, the draft follows the title (the sync effect). */
    ghost predicate Synced()
      reads this
    {
      !isEditing ==> editValue == title
    }

    /** The first render: editing from the start when `autoFocus` is set,
        with the title as draft. */
    constructor (title: string, autoFocus: bool)
      ensures this.title == title && isEditing == autoFocus && editValue == title
      ensures Synced()
    {
      this.title := title;
      isEditing := autoFocus;
      editValue := title;
    }

    /** While viewing, the text shown is the title prop, never the draft;
        while editing, the input holds the draft. */
    function Render(): (v: View)
      reads this
      ensures v.TitleText? <==> !isEditing
      ensures v.TitleText? ==> v.text == title
      ensures v.TextInput? ==> v.value == editValue
    {
      if isEditing then TextInput(editValue) else TitleText(title)
    }

    /** The sync effect: while not editing, the draft is reset to the title. */
    method SyncEffect()
      modifies this`editValue
      ensures editValue == if isEditing then old(editValue) else title
      ensures Synced()
    {
      if !isEditing {
        editValue := title;
      }
    }

    /** The owner passes a new `title`; the sync effect follows. */
    method ReceiveTitle(newTitle: string)
      modifies this
      ensures title == newTitle && isEditing == old(isEditing)
      ensures editValue == if isEditing then old(editValue) else newTitle
      ensures Synced()
      ensures !isEditing ==> Render() == TitleText(newTitle)
    {
      title := newTitle;
      SyncEffect();
    }

    /** A click on the title region starts editing and changes nothing else;
        the draft it starts from is the title. */
    method Click()
      requires Synced()
      modifies this
      ensures isEditing && title == old(title) && editValue == old(editValue)
      ensures !old(isEditing) ==> Render() == TextInput(title)
      ensures Synced()
    {
      isEditing := true;
    }

    /** Typing into the input replaces the draft. */
    method Change(value: string)
      requires isEditing
      modifies this
      ensures isEditing && title == old(title) && editValue == value
      ensures Synced()
    {
      editValue := value;
    }

    /** `commitEdit`, the step blur and Enter share: emit the trimmed draft
        when it differs from the title, and leave editing. The draft is left
        as it is; the sync effect that runs next resets it. */
    method CommitEdit() returns (e: Emitted)
      modifies this`isEditing
      ensures e == CommitOutcome(title, editValue)
      ensures !isEditing
    {
      e := CommitOutcome(title, editValue);
      isEditing := false;
    }

    /** Losing focus commits; the draft then falls back to the title. */
    method Blur() returns (e: Emitted)
      requires isEditing
      modifies this
      ensures e == CommitOutcome(old(title), old(editValue))
      ensures !isEditing && title == old(title) && editValue == title
      ensures Render() == TitleText(title)
      ensures Synced()
    {
      e := CommitEdit();
      SyncEffect();
    }

    /** `handleKeyDown`: Enter commits as blur does; Escape emits the cancel
        and resets the draft to the title; other keys do nothing here. */
    method KeyDown(key: Key) returns (e: Emitted)
      requires isEditing
      modifies this
      ensures title == old(title)
      ensures key == Enter ==> e == CommitOutcome(old(title), old(editValue))
      ensures key == Escape ==> e == Cancel
      ensures key.OtherKey? ==> e == Nothing && isEditing && editValue == old(editValue)
      ensures !key.OtherKey? ==> !isEditing && editValue == title && Render() == TitleText(title)
      ensures Synced()
    {
      match key
      case Enter =>
        e := CommitEdit();
        isEditing := false;
        SyncEffect();
      case Escape =>
        e := Cancel;
        isEditing := false;
        editValue := title;
        SyncEffect();
      case OtherKey(_) =>
        e := Nothing;
    }
  }

  /** From a new card's first render (empty title, editing), typing `draft`
      and pressing Enter emits nothing exactly when the draft is blank, and
      the card ends up showing the (still empty) title. */
  method TypeAndEnterOnNewCard(draft: string) returns (e: Emitted)
    ensures e == Nothing <==> AllWhitespace(draft)
    ensures e.Commit? ==> e.value == Trim(draft) && e.value != []
  {
    var editor := new EditableTitle("", true);
    editor.Change(draft);
    e := editor.KeyDown(Enter);
    assert editor.Render() == TitleText("");
    BlankDraftOnEmptyTitle(draft);
  }
}
