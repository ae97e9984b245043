/** The notes page: a list of notes, the one selected for editing, and a search box. */
module Notes {
  import opened Wrappers
  import opened Text
  import opened Seqs

  /** `created` is a timestamp. */
  datatype Note = Note(id: string, title: string, content: string, tags: seq<string>, created: int)

  /** A `Partial<Note>`: the fields present override the note's. */
  datatype NoteUpdate = NoteUpdate(id: Option<string>, title: Option<string>, content: Option<string>,
                                   tags: Option<seq<string>>, created: Option<int>)

  /** The three pieces of state the page replaces wholesale. */
  datatype NotesView = NotesView(notes: seq<Note>, selectedNote: Option<Note>, isCreating: bool)

  /** `{ ...note, ...updates }`. */
  function Merge(n: Note, u: NoteUpdate): (r: Note)
    ensures u == NoteUpdate(None, None, None, None, None) ==> r == n
    ensures r.title == u.title.GetOr(n.title) && r.content == u.content.GetOr(n.content)
    ensures r.id == u.id.GetOr(n.id) && r.tags == u.tags.GetOr(n.tags) && r.created == u.created.GetOr(n.created)
  {
    Note(u.id.GetOr(n.id), u.title.GetOr(n.title), u.content.GetOr(n.content),
         u.tags.GetOr(n.tags), u.created.GetOr(n.created))
  }

  /** A search hit: the lower-cased term is in the title, the content or one of the tags. */
  predicate IsHit(n: Note, term: string)
  {
    var q := Lower(term);
    Contains(Lower(n.title), q) || Contains(Lower(n.content), q)
    || exists i :: 0 <= i < |n.tags| && Contains(Lower(n.tags[i]), q)
  }

  function Hits(term: string): Note -> bool
  {
    (n: Note) => IsHit(n, term)
  }

  /** `filteredNotes`. */
  function FilteredNotes(notes: seq<Note>, term: string): seq<Note>
  {
    Filter(notes, Hits(term))
  }

  /** The search keeps every hit as often as it occurs and no other note, in the original order. */
  lemma FilteredNotesSpec(notes: seq<Note>, term: string, n: Note)
    ensures IsSubsequence(FilteredNotes(notes, term), notes)
    ensures multiset(FilteredNotes(notes, term))[n] == if IsHit(n, term) then multiset(notes)[n] else 0
  {
    FilterIsSubsequence(notes, Hits(term));
    FilterCount(notes, Hits(term), n);
  }

  /** An empty search shows every note. */
  lemma {:induction false} EmptySearchKeepsAll(notes: seq<Note>)
    ensures FilteredNotes(notes, "") == notes
  {
    if notes != [] {
      assert Lower("") == "";
      ContainsEmpty(Lower(notes[0].title));
      EmptySearchKeepsAll(notes[1..]);
      assert notes == [notes[0]] + notes[1..];
    }
  }

  /** `createNewNote` with the id and timestamp supplied: a blank "New Note" goes first and is selected. */
  function CreateNewNote(v: NotesView, id: string, now: int): (r: NotesView)
    ensures |r.notes| == |v.notes| + 1 && r.notes[1..] == v.notes
    ensures r.notes[0] == Note(id, "New Note", "", [], now)
    ensures r.selectedNote == Some(r.notes[0]) && r.isCreating
  {
    var n := Note(id, "New Note", "", [], now);
    NotesView([n] + v.notes, Some(n), true)
  }

  /** `updateNote`. The notes with the id get the update merged in; the selected note too, if its id
      matches. */
  function UpdateNote(v: NotesView, noteId: string, u: NoteUpdate): (r: NotesView)
    ensures |r.notes| == |v.notes| && r.isCreating == v.isCreating
    ensures forall i :: 0 <= i < |v.notes| ==>
      r.notes[i] == if v.notes[i].id == noteId then Merge(v.notes[i], u) else v.notes[i]
    ensures v.selectedNote.Some? && v.selectedNote.value.id == noteId ==>
      r.selectedNote == Some(Merge(v.selectedNote.value, u))
    ensures !(v.selectedNote.Some? && v.selectedNote.value.id == noteId) ==> r.selectedNote == v.selectedNote
  {
    var notes := seq(|v.notes|, i requires 0 <= i < |v.notes| =>
      if v.notes[i].id == noteId then Merge(v.notes[i], u) else v.notes[i]);
    var selected := if v.selectedNote.Some? && v.selectedNote.value.id == noteId
      then Some(Merge(v.selectedNote.value, u)) else v.selectedNote;
    NotesView(notes, selected, v.isCreating)
  }

  /** Editing the selected note's title or content keeps the list and the selection in step: if the
      selection was the list's entry for its id, it still is afterwards. */
  lemma {:induction false} UpdateKeepsSelectionInStep(v: NotesView, k: nat, u: NoteUpdate)
    requires k < |v.notes| && v.selectedNote == Some(v.notes[k])
    requires u.id.None?
    ensures var r := UpdateNote(v, v.notes[k].id, u); r.selectedNote == Some(r.notes[k])
  {
  }

  /** Typing into the editor of a fresh note renames exactly that note, which stays selected. */
  lemma {:induction false} RenameNewNote(v: NotesView, id: string, now: int, title: string)
    requires forall i :: 0 <= i < |v.notes| ==> v.notes[i].id != id
    ensures var c := CreateNewNote(v, id, now);
      var r := UpdateNote(c, id, NoteUpdate(None, Some(title), None, None, None));
      r.notes == [Note(id, title, "", [], now)] + v.notes && r.selectedNote == Some(r.notes[0])
  {
    var c := CreateNewNote(v, id, now);
    var r := UpdateNote(c, id, NoteUpdate(None, Some(title), None, None, None));
    assert forall i :: 1 <= i < |c.notes| ==> c.notes[i] == v.notes[i - 1];
    assert r.notes[1..] == v.notes;
  }
}
