/**
 * The dashboard notes table: a list of notes and the text of the note being
 * typed. Adding, editing and deleting replace the list with a new one built
 * by appending, mapping and filtering. The component takes a new note's id and
 * date from the clock (`Date.now`, `toISOString`); here they are parameters,
 * and ids need not be unique.
 */
module NotesTable {
  import opened JsStrings

  datatype Note = Note(id: string, date: string, content: string)

  const SAMPLE_CONTENT := "Sample note - edit or delete"

  /** `notes.map(n => n.id === id ? { ...n, content } : n)` */
  function Updated(notes: seq<Note>, id: string, content: string): (r: seq<Note>)
    ensures |r| == |notes|
    ensures forall i :: 0 <= i < |notes| ==>
              && r[i].id == notes[i].id
              && r[i].date == notes[i].date
              && r[i].content == (if notes[i].id == id then content else notes[i].content)
  {
    if notes == [] then []
    else [if notes[0].id == id then notes[0].(content := content) else notes[0]]
         + Updated(notes[1..], id, content)
  }

  /** `notes.filter(n => n.id !== id)` */
  function Deleted(notes: seq<Note>, id: string): (r: seq<Note>)
    ensures |r| <= |notes|
    ensures forall n :: n in r <==> n in notes && n.id != id
    ensures forall n :: multiset(r)[n] == if n.id == id then 0 else multiset(notes)[n]
  {
    if notes == [] then []
    else
      assert notes == [notes[0]] + notes[1..];
      (if notes[0].id == id then [] else [notes[0]]) + Deleted(notes[1..], id)
  }

  /** Editing twice with the same arguments is editing once. */
  lemma UpdateIdempotent(notes: seq<Note>, id: string, content: string)
    ensures Updated(Updated(notes, id, content), id, content) == Updated(notes, id, content)
  {
    var once := Updated(notes, id, content);
    var twice := Updated(once, id, content);
    assert forall i :: 0 <= i < |once| ==> twice[i] == once[i];
  }

  /** Editing an id that no note carries changes nothing. */
  lemma UpdateAbsentId(notes: seq<Note>, id: string, content: string)
    requires forall n :: n in notes ==> n.id != id
    ensures Updated(notes, id, content) == notes
  {
    var r := Updated(notes, id, content);
    assert forall i :: 0 <= i < |notes| ==> r[i] == notes[i];
  }

  /** Deleting keeps the surviving notes in their original order. */
  lemma {:induction false} DeletedConcat(a: seq<Note>, b: seq<Note>, id: string)
    ensures Deleted(a + b, id) == Deleted(a, id) + Deleted(b, id)
  {
    if a == [] {
      assert a + b == b;
    } else {
      assert (a + b)[1..] == a[1..] + b;
      DeletedConcat(a[1..], b, id);
    }
  }

  /** Deleting an id that no note carries leaves the list unchanged. */
  lemma {:induction false} DeleteAbsentId(notes: seq<Note>, id: string)
    requires forall n :: n in notes ==> n.id != id
    ensures Deleted(notes, id) == notes
  {
    if notes != [] {
      assert notes[0] in notes;
      assert forall n :: n in notes[1..] ==> n in notes;
      DeleteAbsentId(notes[1..], id);
    }
  }

  /** Deleting removes every note with the id, so deleting again changes nothing. */
  lemma DeleteIdempotent(notes: seq<Note>, id: string)
    ensures Deleted(Deleted(notes, id), id) == Deleted(notes, id)
  {
    DeleteAbsentId(Deleted(notes, id), id);
  }

  class NotesTable {
    var notes: seq<Note>
    var newNote: string

    /** The table starts with one sample note dated `today` and an empty input. */
    constructor (today: string)
      ensures notes == [Note("1", today, SAMPLE_CONTENT)]
      ensures newNote == ""
    {
      notes := [Note("1", today, SAMPLE_CONTENT)];
      newNote := "";
    }

    /** Typing in the new-note input. */
    method SetNewNote(text: string)
      modifies this
      ensures newNote == text && notes == old(notes)
    {
      newNote := text;
    }

    /** A blank input changes nothing; otherwise the untrimmed text is appended as a
        note with the given id and date, and the input is cleared. */
    method AddNote(id: string, date: string)
      modifies this
      ensures IsBlank(old(newNote)) ==> notes == old(notes) && newNote == old(newNote)
      ensures !IsBlank(old(newNote)) ==>
                notes == old(notes) + [Note(id, date, old(newNote))] && newNote == ""
    {
      TrimEmptyIffBlank(newNote);
      if Trim(newNote) != "" {
        notes := notes + [Note(id, date, newNote)];
        newNote := "";
      }
    }

    method UpdateNote(id: string, content: string)
      modifies this
      ensures notes == Updated(old(notes), id, content) && newNote == old(newNote)
    {
      notes := Updated(notes, id, content);
    }

    method DeleteNote(id: string)
      modifies this
      ensures notes == Deleted(old(notes), id) && newNote == old(newNote)
    {
      notes := Deleted(notes, id);
    }
  }
}
