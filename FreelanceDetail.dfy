/**
 * The freelance article review page: the list of correction notes, and the approve and
 * reject requests with the buttons that send them.
 */
module FreelanceDetail {
  import opened JsText

  /** `handleAddNote`: the trimmed note is appended when it is not blank. */
  function NoteAdded(notes: seq<string>, newNote: string): seq<string> {
    if Trim(newNote) != "" then notes + [Trim(newNote)] else notes
  }

  /** `notes.filter((_, i) => i !== index)`, scanning from position `offset` of the original. */
  function DropIndex(notes: seq<string>, index: int, offset: nat): seq<string>
    decreases |notes|
  {
    if notes == [] then []
    else if offset == index then DropIndex(notes[1..], index, offset + 1)
    else [notes[0]] + DropIndex(notes[1..], index, offset + 1)
  }

  /** `handleRemoveNote(index)` */
  function NoteRemoved(notes: seq<string>, index: int): seq<string> {
    DropIndex(notes, index, 0)
  }

  lemma {:induction false} DropIndexShape(notes: seq<string>, index: int, offset: nat)
    ensures DropIndex(notes, index, offset) ==
      if offset <= index < offset + |notes| then notes[..index - offset] + notes[index - offset + 1..] else notes
    decreases |notes|
  {
    if notes != [] {
      DropIndexShape(notes[1..], index, offset + 1);
      if offset == index {
      } else if offset < index < offset + |notes| {
        assert notes[..index - offset] == [notes[0]] + notes[1..][..index - offset - 1];
        assert notes[index - offset + 1..] == notes[1..][index - offset..];
      } else {
        assert notes == [notes[0]] + notes[1..];
      }
    }
  }

  /** Removing index i drops exactly that note and keeps the others in order; an index outside
      the list changes nothing. */
  lemma NoteRemovedShape(notes: seq<string>, index: int)
    ensures 0 <= index < |notes| ==> NoteRemoved(notes, index) == notes[..index] + notes[index + 1..]
    ensures 0 <= index < |notes| ==> |NoteRemoved(notes, index)| == |notes| - 1
    ensures !(0 <= index < |notes|) ==> NoteRemoved(notes, index) == notes
  {
    DropIndexShape(notes, index, 0);
  }

  /** Adding a non-blank note and removing the last index gives the list back; a blank note
      adds nothing. */
  lemma AddThenRemoveNote(notes: seq<string>, newNote: string)
    ensures Trim(newNote) != "" ==> NoteRemoved(NoteAdded(notes, newNote), |notes|) == notes
    ensures Trim(newNote) == "" ==> NoteAdded(notes, newNote) == notes
  {
    var added := notes + [Trim(newNote)];
    NoteRemovedShape(added, |notes|);
    assert added[..|notes|] == notes;
  }

  /** The PATCH body: the status, and the notes for a rejection. */
  datatype Moderation = Moderation(moderationStatus: string, moderationNotes: Option<seq<string>>)

  const ApprovePayload := Moderation("published", None)

  function RejectPayload(notes: seq<string>): Moderation {
    Moderation("rejected", Some(notes))
  }

  predicate ApproveDisabled(pending: bool) {
    pending
  }

  predicate RejectDisabled(pending: bool, notes: seq<string>) {
    pending || |notes| == 0
  }

  /** A rejection can be sent only with at least one note, and it carries the current notes;
      an approval carries none. */
  lemma RejectCarriesNotes(pending: bool, notes: seq<string>)
    ensures !RejectDisabled(pending, notes) ==> RejectPayload(notes).moderationNotes == Some(notes) && |notes| > 0
    ensures ApprovePayload.moderationNotes.None? && ApprovePayload.moderationStatus != RejectPayload(notes).moderationStatus
    ensures !ApproveDisabled(pending) <==> !pending
  {
    assert "published"[0] != "rejected"[0];
  }

  /** The page's state: the notes and the note input. */
  class FreelanceDetailPage {
    var notes: seq<string>
    var newNote: string

    constructor()
      ensures notes == [] && newNote == ""
    {
      notes := [];
      newNote := "";
    }

    /** The fetch copies the article's `moderationNotes` into the list. */
    method Fetched(moderationNotes: seq<string>)
      modifies this
      ensures notes == moderationNotes && newNote == old(newNote)
    {
      notes := moderationNotes;
    }

    /** `handleAddNote`: the input is cleared only when a note is added. */
    method AddNote()
      modifies this
      ensures notes == NoteAdded(old(notes), old(newNote))
      ensures newNote == if Trim(old(newNote)) != "" then "" else old(newNote)
    {
      var trimmed := Trim(newNote);
      if trimmed != "" {
        notes := notes + [trimmed];
        newNote := "";
      }
    }

    method RemoveNote(index: int)
      modifies this
      ensures notes == NoteRemoved(old(notes), index) && newNote == old(newNote)
    {
      notes := DropIndex(notes, index, 0);
    }

    /** The reject button: the body sent, or `None` while it is disabled. */
    method Reject(pending: bool) returns (body: Option<Moderation>)
      ensures body.Some? <==> !RejectDisabled(pending, notes)
      ensures body.Some? ==> body.value == RejectPayload(notes)
    {
      if pending || |notes| == 0 {
        return None;
      }
      body := Some(RejectPayload(notes));
    }

    /** The approve button: the body sent, or `None` while a request is pending. */
    method Approve(pending: bool) returns (body: Option<Moderation>)
      ensures body.Some? <==> !ApproveDisabled(pending)
      ensures body.Some? ==> body.value == ApprovePayload
    {
      if pending {
        return None;
      }
      body := Some(ApprovePayload);
    }
  }
}
