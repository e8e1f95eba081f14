/** The notes page: the list of notes, the selected note, and the autosave buffer that
    collects title and content edits and writes them in one update when the debounce
    timer fires. The editor document is a JSON value; parsing and serialising it are
    inputs, and the timer firing is an explicit step. */
module Notes {
  import opened Wrappers
  import opened Lists

  /** A JSON value, as far as the page looks into one. */
  datatype Json =
    | JArray(items: seq<Json>)
    | JObject(fields: seq<(string, Json)>)
    | JString(s: string)
    | JOther

  /** The document the editor starts from: a single empty paragraph. */
  const DefaultContent: Json :=
    JArray([JObject([("type", JString("paragraph")), ("children", JArray([JObject([("text", JString(""))])]))])])

  /** `getSafeContent`: the stored text read back as a document. A missing or empty text,
      text that does not parse, and a parse that is not a non-empty array all give the
      default document; otherwise the parsed array is used as it is. `parse` is
      `JSON.parse`, with `None` when it throws. The result is always a non-empty array. */
  function GetSafeContent(content: Option<string>, parse: string -> Option<Json>): (r: Json)
    ensures r.JArray? && r.items != []
    ensures r != DefaultContent ==> content.Some? && content.value != "" && parse(content.value) == Some(r)
    ensures (content.Some? && content.value != "" && parse(content.value).Some?
             && parse(content.value).value.JArray? && parse(content.value).value.items != [])
             ==> r == parse(content.value).value
  {
    if content.None? || content.value == "" then DefaultContent
    else match parse(content.value)
      case None => DefaultContent
      case Some(parsed) =>
        if !parsed.JArray? || parsed.items == [] then DefaultContent else parsed
  }

  /** A stored note. */
  datatype Note = Note(id: string, title: string, content: Option<string>, isPinned: bool, updatedAt: string)

  /** The fields of one `updateNote` call, or of the buffer of calls not yet written;
      `None` is a field the call does not carry. */
  datatype Updates = Updates(title: Option<string>, content: Option<Json>)

  const NoUpdates := Updates(None, None)

  /** The buffer after a further call: a field the later call carries replaces the
      buffered one, and a field it does not carry is kept. */
  function Merge(pending: Updates, later: Updates): (r: Updates)
    ensures later.title.Some? ==> r.title == later.title
    ensures later.title.None? ==> r.title == pending.title
    ensures later.content.Some? ==> r.content == later.content
    ensures later.content.None? ==> r.content == pending.content
  {
    Updates(
      if later.title.Some? then later.title else pending.title,
      if later.content.Some? then later.content else pending.content)
  }

  /** Merging is associative and the empty buffer is its unit, so the buffer after any
      run of calls is the calls merged left to right, whatever was buffered before. */
  lemma {:induction false} MergeMonoid(a: Updates, b: Updates, c: Updates)
    ensures Merge(Merge(a, b), c) == Merge(a, Merge(b, c))
    ensures Merge(NoUpdates, a) == a && Merge(a, NoUpdates) == a
  {
    var l := Merge(Merge(a, b), c);
    var r := Merge(a, Merge(b, c));
    assert l.title == r.title;
    assert l.content == r.content;
  }

  /** The columns written by one flush. */
  datatype Payload = Payload(updatedAt: string, title: Option<string>, content: Option<string>)

  /** The update a flush sends for the buffered fields: always the time stamp; the title
      exactly when one is buffered; the serialised document exactly when one is buffered. */
  function PayloadOf(pending: Updates, now: string, stringify: Json -> string): (r: Payload)
    ensures r.updatedAt == now
    ensures r.title.Some? <==> pending.title.Some?
    ensures r.title.Some? ==> r.title == pending.title
    ensures r.content.Some? <==> pending.content.Some?
    ensures r.content.Some? ==> r.content.value == stringify(pending.content.value)
  {
    Payload(now, pending.title, if pending.content.Some? then Some(stringify(pending.content.value)) else None)
  }

  /** The buffer is shared by all notes while a save is pending: a title typed for one
      note and a content edit for another before the timer fires are written together,
      to the note of the later call. */
  lemma {:induction false} SharedBuffer(title: string, doc: Json, now: string, stringify: Json -> string)
    ensures PayloadOf(Merge(Merge(NoUpdates, Updates(Some(title), None)), Updates(None, Some(doc))), now, stringify)
         == Payload(now, Some(title), Some(stringify(doc)))
  {
    var m := Merge(Merge(NoUpdates, Updates(Some(title), None)), Updates(None, Some(doc)));
    assert m == Updates(Some(title), Some(doc));
  }

  /** The list after a title edit: the notes with that id take the new title; every
      other note, and every other field, is unchanged. */
  function SetTitle(ns: seq<Note>, id: string, title: string): (r: seq<Note>)
    ensures |r| == |ns|
    ensures forall i :: 0 <= i < |ns| && ns[i].id != id ==> r[i] == ns[i]
    ensures forall i :: 0 <= i < |ns| && ns[i].id == id ==> r[i].title == title
    ensures forall i :: 0 <= i < |ns| ==> r[i].(title := ns[i].title) == ns[i]
  {
    seq(|ns|, i requires 0 <= i < |ns| => if ns[i].id == id then ns[i].(title := title) else ns[i])
  }

  /** The selection after a title edit: changed only when it is the edited note. */
  function SelectionTitled(selected: Option<Note>, id: string, title: string): (r: Option<Note>)
    ensures selected.None? ==> r.None?
    ensures selected.Some? && selected.value.id == id ==> r == Some(selected.value.(title := title))
    ensures selected.Some? && selected.value.id != id ==> r == selected
  {
    if selected.Some? && selected.value.id == id then Some(selected.value.(title := title)) else selected
  }

  function IdOf(n: Note): string
  {
    n.id
  }

  /** The list after a delete: the notes with that id are gone, the others stay in order. */
  function Without(xs: seq<Note>, id: string): seq<Note>
  {
    WithoutKey(xs, IdOf, id)
  }

  datatype SaveStatus = Idle | Saving | Saved | Error

  /** An update a flush sends: the target note and the columns. */
  datatype NoteWrite = NoteWrite(id: string, payload: Payload)

  /** The row `handleCreateNote` inserts. */
  datatype NoteInsert = NoteInsert(title: string, content: string, isPinned: bool)

  class NotesPage {
    var notes: seq<Note>
    var selected: Option<Note>
    var saveStatus: SaveStatus
    var deleteModalOpen: bool
    /** The buffered fields, and the note the armed timer will write them to. */
    var pending: Updates
    var pendingId: Option<string>

    constructor()
      ensures notes == [] && selected == None && saveStatus == Idle && !deleteModalOpen
      ensures pending == NoUpdates && pendingId == None
    {
      notes := [];
      selected := None;
      saveStatus := Idle;
      deleteModalOpen := false;
      pending := NoUpdates;
      pendingId := None;
    }

    /** `fetchNotes`: the list is replaced when the query returns rows. */
    method Fetched(rows: Option<seq<Note>>)
      modifies this
      ensures notes == (if rows.Some? then rows.value else old(notes))
      ensures selected == old(selected) && saveStatus == old(saveStatus) && deleteModalOpen == old(deleteModalOpen)
      ensures pending == old(pending) && pendingId == old(pendingId)
    {
      if rows.Some? {
        notes := rows.value;
      }
    }

    method Select(n: Option<Note>)
      modifies this
      ensures selected == n
      ensures notes == old(notes) && saveStatus == old(saveStatus) && deleteModalOpen == old(deleteModalOpen)
      ensures pending == old(pending) && pendingId == old(pendingId)
    {
      selected := n;
    }

    /** `updateNote`: a title edit shows at once in the list and, for the same note, in
        the selection; a content-only edit shows nowhere yet. Either way the fields join
        the buffer, the timer is re-armed for this note and the status reads saving. */
    method UpdateNote(id: string, updates: Updates)
      modifies this
      ensures updates.title.Some? ==> notes == SetTitle(old(notes), id, updates.title.value)
      ensures updates.title.Some? ==> selected == SelectionTitled(old(selected), id, updates.title.value)
      ensures updates.title.None? ==> notes == old(notes) && selected == old(selected)
      ensures pending == Merge(old(pending), updates) && pendingId == Some(id)
      ensures saveStatus == Saving && deleteModalOpen == old(deleteModalOpen)
    {
      if updates.title.Some? {
        notes := SetTitle(notes, id, updates.title.value);
        selected := SelectionTitled(selected, id, updates.title.value);
      }
      pending := Merge(pending, updates);
      pendingId := Some(id);
      saveStatus := Saving;
    }

    /** The debounce timer fires: when one is armed, the buffered fields are written to
        the note of the last `updateNote` call, the buffer empties whether or not the
        write succeeds, and the status reports the outcome. Returns the write sent. */
    method Flush(now: string, stringify: Json -> string, writeOk: bool) returns (write: Option<NoteWrite>)
      modifies this
      ensures write.Some? <==> old(pendingId).Some?
      ensures write.Some? ==> write.value == NoteWrite(old(pendingId).value, PayloadOf(old(pending), now, stringify))
      ensures write.Some? ==> pending == NoUpdates && pendingId == None && saveStatus == (if writeOk then Saved else Error)
      ensures write.None? ==> pending == old(pending) && pendingId == None && saveStatus == old(saveStatus)
      ensures notes == old(notes) && selected == old(selected) && deleteModalOpen == old(deleteModalOpen)
    {
      if pendingId.None? {
        return None;
      }
      write := Some(NoteWrite(pendingId.value, PayloadOf(pending, now, stringify)));
      saveStatus := if writeOk then Saved else Error;
      pending := NoUpdates;
      pendingId := None;
    }

    /** The status timer set after a successful save fires: the status goes back to idle. */
    method StatusTimerFired()
      modifies this
      ensures saveStatus == Idle
      ensures notes == old(notes) && selected == old(selected) && deleteModalOpen == old(deleteModalOpen)
      ensures pending == old(pending) && pendingId == old(pendingId)
    {
      saveStatus := Idle;
    }

    /** `handleCreateNote`: inserts an untitled, unpinned note holding the default document;
        the row the store returns, if any, goes to the top of the list and is selected. */
    method CreateNote(stringify: Json -> string, created: Option<Note>) returns (insert: NoteInsert)
      modifies this
      ensures insert == NoteInsert("", stringify(DefaultContent), false)
      ensures created.Some? ==> notes == [created.value] + old(notes) && selected == created
      ensures created.None? ==> notes == old(notes) && selected == old(selected)
      ensures saveStatus == old(saveStatus) && deleteModalOpen == old(deleteModalOpen)
      ensures pending == old(pending) && pendingId == old(pendingId)
    {
      insert := NoteInsert("", stringify(DefaultContent), false);
      if created.Some? {
        notes := [created.value] + notes;
        selected := created;
      }
    }

    /** `handleDeleteRequest`: opens the confirmation. */
    method RequestDelete()
      modifies this
      ensures deleteModalOpen
      ensures notes == old(notes) && selected == old(selected) && saveStatus == old(saveStatus)
      ensures pending == old(pending) && pendingId == old(pendingId)
    {
      deleteModalOpen := true;
    }

    /** `confirmDeleteNote`: nothing without a selection; otherwise the delete is sent for
        the selected note, which leaves the list whatever the outcome, the selection
        clears and the confirmation closes. Returns the id the delete was sent for. */
    method ConfirmDeleteNote() returns (deleted: Option<string>)
      modifies this
      ensures old(selected).None? ==> deleted.None? && notes == old(notes) && selected == None
                                      && deleteModalOpen == old(deleteModalOpen)
      ensures old(selected).Some? ==> deleted == Some(old(selected).value.id)
                                      && notes == Without(old(notes), old(selected).value.id)
                                      && selected == None && !deleteModalOpen
      ensures saveStatus == old(saveStatus) && pending == old(pending) && pendingId == old(pendingId)
    {
      if selected.None? {
        return None;
      }
      var id := selected.value.id;
      deleted := Some(id);
      notes := Without(notes, id);
      selected := None;
      deleteModalOpen := false;
    }
  }
}
