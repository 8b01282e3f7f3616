/**
 * The notes list (`setupNotes`, `saveNote`, `deleteNote`, `renderNotes`).
 * The stored JSON array is modelled as the `notes` sequence of a store object.
 */
module Notes {
  import opened Text
  import opened Render

  /** `notes.splice(index, 1)`: drop position `index`, or nothing when it is past the end. */
  function Removed(notes: seq<string>, index: nat): (r: seq<string>)
    ensures index < |notes| ==> |r| == |notes| - 1
    ensures index < |notes| ==> forall j :: 0 <= j < index ==> r[j] == notes[j]
    ensures index < |notes| ==> forall j :: index <= j < |r| ==> r[j] == notes[j + 1]
    ensures index >= |notes| ==> r == notes
  {
    if index < |notes| then notes[..index] + notes[index + 1..] else notes
  }

  /** Removing the note just appended gives back the earlier list. */
  lemma RemoveLastAdded(notes: seq<string>, text: string)
    ensures Removed(notes + [text], |notes|) == notes
  {
  }

  /** A note card: a phrase card that speaks in "en", copies, and deletes position `index`. */
  function NoteCard(note: string, index: nat): (c: Card)
    ensures c.classes == {CardCss, PhraseCss} && c.body == Phrase(note)
    ensures c.actions == [Speak(note, "en"), Copy(note), Delete(index)]
  {
    var card := CreateCard(note, true, "en");
    card.(actions := card.actions + [Delete(index)])
  }

  /** `renderNotes(notes)`: one card per note, in order, card `i` deleting note `i`. */
  function RenderNotes(notes: seq<string>): (r: seq<Card>)
    ensures |r| == |notes|
    ensures forall i :: 0 <= i < |r| ==> r[i] == NoteCard(notes[i], i)
  {
    seq(|notes|, i requires 0 <= i < |notes| => NoteCard(notes[i], i))
  }

  /**
   * The delete button of card `i` removes exactly note `i`, and the cards
   * rendered afterwards shift down by one.
   */
  lemma DeleteButton(notes: seq<string>, i: nat)
    requires i < |notes|
    ensures RenderNotes(notes)[i].actions[2] == Delete(i)
    ensures Removed(notes, i) == notes[..i] + notes[i + 1..]
    ensures forall j :: i <= j < |notes| - 1 ==>
              RenderNotes(Removed(notes, i))[j].body == RenderNotes(notes)[j + 1].body
  {
  }

  class NotesStore {
    /** The stored notes, oldest first. */
    var notes: seq<string>

    /** `JSON.parse(localStorage.getItem(...)) || []`: `saved` is the stored list, empty when none. */
    constructor (saved: seq<string>)
      ensures notes == saved
    {
      notes := saved;
    }

    /** `saveNote(text)`: append at the end. */
    method Add(text: string)
      modifies this
      ensures notes == old(notes) + [text]
    {
      notes := notes + [text];
    }

    /** `deleteNote(index)`: remove position `index`; later notes move down by one. */
    method RemoveAt(index: nat)
      modifies this
      ensures notes == Removed(old(notes), index)
    {
      if index < |notes| {
        notes := notes[..index] + notes[index + 1..];
      }
    }

    /**
     * The form's submit handler: a non-blank input is saved trimmed and the
     * input box cleared; blank input changes nothing.
     */
    method Submit(input: string) returns (inputAfter: string)
      modifies this
      ensures IsBlank(input) ==> notes == old(notes) && inputAfter == input
      ensures !IsBlank(input) ==> notes == old(notes) + [Trim(input)] && inputAfter == ""
    {
      var text := Trim(input);
      if text != "" {
        Add(text);
        inputAfter := "";
      } else {
        inputAfter := input;
      }
    }
  }
}
