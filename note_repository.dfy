/** The note collection. Every query returns the newest notes first. */
module NoteRepository {
  import opened Common
  import opened Notes
  import opened Ordering
  import opened Store

  /** The note `create` stores: the owner is the given user, visibility defaults
      to private and tags to the empty list. */
  function NewNote(id: Id, userId: Id, data: NoteData, now: int): Note {
    Note(id, data.title, data.content, userId, data.visibility.GetOr(Private), data.tags.GetOr([]),
         data.linkedSessionId, data.linkedCharacterId, now, now)
  }

  /** `findByIdAndUpdate(id, patch)`: supplied fields replace the stored ones; a
      link sent as null is removed. */
  function ApplyNotePatch(n: Note, p: NotePatch, now: int): Note {
    n.(title := p.title.GetOr(n.title),
       content := p.content.GetOr(n.content),
       visibility := p.visibility.GetOr(n.visibility),
       tags := p.tags.GetOr(n.tags),
       linkedSessionId := Edited(p.linkedSessionId, n.linkedSessionId),
       linkedCharacterId := Edited(p.linkedCharacterId, n.linkedCharacterId),
       updatedAt := now)
  }

  /** Filter `{ userId }`. */
  function OwnedBy(userId: Id): Note -> bool {
    (n: Note) => n.userId == userId
  }

  /** Filter `{ visibility: 'public' }`. */
  function IsPublicNote(n: Note): bool {
    n.visibility == Public
  }

  /** Filter `{ linkedSessionId }`. */
  function LinkedToSession(sessionId: Id): Note -> bool {
    (n: Note) => n.linkedSessionId == Some(sessionId)
  }

  /** Filter `{ linkedCharacterId }`. */
  function LinkedToCharacter(characterId: Id): Note -> bool {
    (n: Note) => n.linkedCharacterId == Some(characterId)
  }

  /** What `create` defaults and what it keeps from its input. */
  lemma NewNoteDefaults(id: Id, userId: Id, data: NoteData, now: int)
    ensures NewNote(id, userId, data, now).userId == userId
    ensures data.visibility == None ==> NewNote(id, userId, data, now).visibility == Private
    ensures data.tags == None ==> NewNote(id, userId, data, now).tags == []
    ensures data.visibility.Some? ==> NewNote(id, userId, data, now).visibility == data.visibility.value
    ensures data.tags.Some? ==> NewNote(id, userId, data, now).tags == data.tags.value
  {
  }

  /** An update never moves a note to another identifier, owner or creation time. */
  lemma NotePatchKeepsIdentity(n: Note, p: NotePatch, now: int)
    ensures ApplyNotePatch(n, p, now).id == n.id
    ensures ApplyNotePatch(n, p, now).userId == n.userId
    ensures ApplyNotePatch(n, p, now).createdAt == n.createdAt
  {
  }

  /** A link is kept when the update leaves it out, removed when it is sent as
      null, and replaced when it is sent with a value; the owner never changes. */
  lemma NoteLinkEdits(n: Note, p: NotePatch, now: int)
    ensures p.linkedSessionId.Keep? ==> ApplyNotePatch(n, p, now).linkedSessionId == n.linkedSessionId
    ensures p.linkedSessionId.Clear? ==> ApplyNotePatch(n, p, now).linkedSessionId.None?
    ensures p.linkedSessionId.SetTo? ==> ApplyNotePatch(n, p, now).linkedSessionId == Some(p.linkedSessionId.value)
    ensures p.linkedCharacterId.Keep? ==> ApplyNotePatch(n, p, now).linkedCharacterId == n.linkedCharacterId
    ensures p.linkedCharacterId.Clear? ==> ApplyNotePatch(n, p, now).linkedCharacterId.None?
    ensures p.linkedCharacterId.SetTo? ==> ApplyNotePatch(n, p, now).linkedCharacterId == Some(p.linkedCharacterId.value)
  {
  }

  /** A linked note stops matching its session's query once an update unlinks it. */
  lemma {:induction false} UnlinkedNoteLeavesSessionQuery(n: Note, p: NotePatch, now: int, sessionId: Id)
    requires p.linkedSessionId.Clear?
    ensures !LinkedToSession(sessionId)(ApplyNotePatch(n, p, now))
  {
  }

  class MongoNoteRepository {
    var notes: map<Id, Note>
    var nextId: nat

    ghost predicate Valid()
      reads this
    {
      KeyedBy(notes, NoteId) && forall k :: k in notes ==> |k| <= nextId
    }

    constructor ()
      ensures Valid() && notes == map[]
    {
      notes := map[];
      nextId := 0;
    }

    /** `findById`: the note stored under `id`, or null. */
    method FindById(id: Id) returns (r: Option<Note>)
      ensures r.Some? <==> id in notes
      ensures r.Some? ==> r.value == notes[id]
    {
      r := if id in notes then Some(notes[id]) else None;
    }

    /** `findByUserId`: exactly the user's notes, newest first. */
    method FindByUserId(userId: Id) returns (r: seq<Note>)
      requires Valid()
      ensures IsSelection(notes, NoteId, OwnedBy(userId), r)
      ensures SortedBy(r, NoteCreatedAt, Descending)
    {
      r := Select(notes, NoteId, OwnedBy(userId), NoteCreatedAt, Descending);
    }

    /** `findPublic`: exactly the public notes, newest first. */
    method FindPublic() returns (r: seq<Note>)
      requires Valid()
      ensures IsSelection(notes, NoteId, IsPublicNote, r)
      ensures SortedBy(r, NoteCreatedAt, Descending)
    {
      r := Select(notes, NoteId, IsPublicNote, NoteCreatedAt, Descending);
    }

    /** `findBySessionId`: exactly the notes linked to the session, newest first. */
    method FindBySessionId(sessionId: Id) returns (r: seq<Note>)
      requires Valid()
      ensures IsSelection(notes, NoteId, LinkedToSession(sessionId), r)
      ensures SortedBy(r, NoteCreatedAt, Descending)
    {
      r := Select(notes, NoteId, LinkedToSession(sessionId), NoteCreatedAt, Descending);
    }

    /** `findByCharacterId`: exactly the notes linked to the character, newest first. */
    method FindByCharacterId(characterId: Id) returns (r: seq<Note>)
      requires Valid()
      ensures IsSelection(notes, NoteId, LinkedToCharacter(characterId), r)
      ensures SortedBy(r, NoteCreatedAt, Descending)
    {
      r := Select(notes, NoteId, LinkedToCharacter(characterId), NoteCreatedAt, Descending);
    }

    /** `create`: stores `NewNote` under a fresh identifier. */
    method Create(userId: Id, data: NoteData, now: int) returns (n: Note)
      requires Valid()
      modifies this
      ensures Valid()
      ensures n.id !in old(notes) && n == NewNote(n.id, userId, data, now)
      ensures notes == old(notes)[n.id := n]
    {
      n := NewNote(IdOf(nextId), userId, data, now);
      notes := notes[n.id := n];
      nextId := nextId + 1;
    }

    /** `update`: null for an unknown id (nothing changes), else the patched note. */
    method Update(id: Id, patch: NotePatch, now: int) returns (r: Option<Note>)
      requires Valid()
      modifies this
      ensures Valid()
      ensures id !in old(notes) ==> r == None && notes == old(notes)
      ensures id in old(notes) ==> r == Some(ApplyNotePatch(old(notes)[id], patch, now)) && notes == old(notes)[id := r.value]
    {
      if id in notes {
        var n := ApplyNotePatch(notes[id], patch, now);
        notes := notes[id := n];
        r := Some(n);
      } else {
        r := None;
      }
    }

    /** `delete`: whether a note with that id existed; afterwards there is none. */
    method Delete(id: Id) returns (existed: bool)
      requires Valid()
      modifies this
      ensures Valid()
      ensures existed == (id in old(notes))
      ensures notes == old(notes) - {id}
    {
      existed := id in notes;
      notes := notes - {id};
    }
  }
}
