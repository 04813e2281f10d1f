/** The renderer's selected-note store: the note open in the editor, if any. */
module NoteStore {
  import opened Wrappers
  import opened Schemas

  /** `state.selectedNote ? {...state.selectedNote, content} : null`. */
  function WithContent(selected: Option<Note>, content: string): (r: Option<Note>)
    ensures r.Some? <==> selected.Some?
    ensures r.Some? ==> r.value.content == content
    ensures r.Some? ==> r.value.(content := selected.value.content) == selected.value
  {
    match selected
    case None => None
    case Some(note) => Some(note.(content := content))
  }

  /** Setting the same content twice is setting it once. */
  lemma ContentUpdateIdempotent(selected: Option<Note>, content: string)
    ensures WithContent(WithContent(selected, content), content) == WithContent(selected, content)
  {
  }

  /** Only the last content update is visible. */
  lemma ContentUpdateLastWins(selected: Option<Note>, c1: string, c2: string)
    ensures WithContent(WithContent(selected, c1), c2) == WithContent(selected, c2)
  {
  }

  class SelectedNoteStore {
    var selectedNote: Option<Note>

    /** The store starts on a built-in sample note stamped with two readings of the
        clock, `created` then `updated` (the clock is an input, read once per field). */
    constructor (created: string, updated: string)
      ensures selectedNote == Some(Note("1", "Test Note", "<h1>Hello World</h1><p>This is a test note.</p>",
                                        [], created, updated))
    {
      selectedNote := Some(Note("1", "Test Note", "<h1>Hello World</h1><p>This is a test note.</p>", [], created, updated));
    }

    method SetSelectedNote(note: Option<Note>)
      modifies this
      ensures selectedNote == note
    {
      selectedNote := note;
    }

    method UpdateNoteContent(content: string)
      modifies this
      ensures selectedNote == WithContent(old(selectedNote), content)
    {
      selectedNote := WithContent(selectedNote, content);
    }
  }
}
