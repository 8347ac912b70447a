/** The note handlers: who may read, change and delete a note, and what each
    handler does to the shared note collection. */
module NoteController {
  import opened Common
  import opened Notes
  import opened Ordering
  import opened Store
  import opened Http
  import opened Access
  import opened NoteRepository

  const NoteNotFound := "Note not found"
  const TitleAndContentRequired := "Title and content are required"

  datatype NoteAction = ReadNote | EditNote | RemoveNote

  /** A public note, or a private one read by its owner. */
  predicate ReadableBy(n: Note, caller: Option<Principal>) {
    n.visibility == Public || (caller.Some? && caller.value.userId == n.userId)
  }

  /** What each action requires of the caller once the note exists. */
  predicate Permitted(action: NoteAction, n: Note, caller: Option<Principal>) {
    match action
    case ReadNote => ReadableBy(n, caller)
    case EditNote => caller.Some? && caller.value.userId == n.userId
    case RemoveNote => caller.Some? && (caller.value.userId == n.userId || caller.value.role == Keeper)
  }

  /** The decision table of the note handlers. Reading needs no caller; changing
      and deleting do. A missing note is reported before ownership is looked at.
      Only the owner may change a note; the owner or a keeper may delete it. */
  function NoteAccess(action: NoteAction, stored: Option<Note>, caller: Option<Principal>): (a: Access)
    ensures a == Unauthenticated <==> !action.ReadNote? && caller.None?
    ensures a == Missing <==> (action.ReadNote? || caller.Some?) && stored.None?
    ensures a == Allowed <==> stored.Some? && Permitted(action, stored.value, caller)
  {
    if !action.ReadNote? && caller.None? then Unauthenticated
    else if stored.None? then Missing
    else
      var n := stored.value;
      match action
      case ReadNote =>
        if n.visibility == Private && !(caller.Some? && caller.value.userId == n.userId) then Denied else Allowed
      case EditNote =>
        if n.userId != caller.value.userId then Denied else Allowed
      case RemoveNote =>
        if n.userId != caller.value.userId && caller.value.role != Keeper then Denied else Allowed
  }

  /** A keeper who does not own a note may delete it but not change it. */
  lemma KeeperMayDeleteButNotEdit(n: Note, keeper: Principal)
    requires keeper.role == Keeper && keeper.userId != n.userId
    ensures NoteAccess(RemoveNote, Some(n), Some(keeper)) == Allowed
    ensures NoteAccess(EditNote, Some(n), Some(keeper)) == Denied
  {
  }

  /** A private note is refused to everyone but its owner, keepers included. */
  lemma PrivateNoteHiddenFromOthers(n: Note, caller: Option<Principal>)
    requires n.visibility == Private
    ensures NoteAccess(ReadNote, Some(n), caller) == Allowed <==> caller.Some? && caller.value.userId == n.userId
    ensures caller.None? ==> NoteAccess(ReadNote, Some(n), caller) == Denied
  {
  }

  /** A public note is returned to any caller, signed in or not. */
  lemma PublicNoteReadableByAll(n: Note, caller: Option<Principal>)
    requires n.visibility == Public
    ensures NoteAccess(ReadNote, Some(n), caller) == Allowed
  {
  }

  /** The owner may do anything with a note; a player who is not the owner may
      only read it, and only when it is public. */
  lemma {:induction false} OwnerAndStrangers(n: Note, owner: Principal, player: Principal, action: NoteAction)
    requires owner.userId == n.userId
    requires player.role == Player && player.userId != n.userId
    ensures NoteAccess(action, Some(n), Some(owner)) == Allowed
    ensures NoteAccess(action, Some(n), Some(player)) == Allowed <==> action.ReadNote? && n.visibility == Public
  {
  }

  /** Whatever the caller, a missing note is a 404, never a 403. */
  lemma MissingBeforeOwnership(action: NoteAction, caller: Principal)
    ensures NoteAccess(action, None, Some(caller)) == Missing
  {
  }

  /** The body of a create request; any field may be missing. */
  datatype NoteRequest = NoteRequest(
    title: Option<string>,
    content: Option<string>,
    visibility: Option<Visibility>,
    tags: Option<seq<string>>,
    linkedSessionId: Option<Id>,
    linkedCharacterId: Option<Id>)

  /** The handlers share one note collection. */
  class NoteController {
    const repo: MongoNoteRepository

    constructor(repo: MongoNoteRepository)
      ensures this.repo == repo
    {
      this.repo := repo;
    }

    /** `getMyNotes`: the caller's notes, newest first. */
    method GetMyNotes(caller: Option<Principal>) returns (r: Reply<seq<Note>>)
      requires repo.Valid()
      ensures caller.None? ==> r == Reply(401, ErrorJson(NotAuthenticated))
      ensures caller.Some? ==> r.status == 200 && r.body.Payload?
      ensures caller.Some? ==> IsSelection(repo.notes, NoteId, OwnedBy(caller.value.userId), r.body.value)
      ensures caller.Some? ==> SortedBy(r.body.value, NoteCreatedAt, Descending)
    {
      if caller.None? {
        return Reply(401, ErrorJson(NotAuthenticated));
      }
      var notes := repo.FindByUserId(caller.value.userId);
      r := Reply(200, Payload(notes));
    }

    /** `getPublicNotes`: every public note, newest first, whoever asks. */
    method GetPublicNotes() returns (r: Reply<seq<Note>>)
      requires repo.Valid()
      ensures r.status == 200 && r.body.Payload?
      ensures IsSelection(repo.notes, NoteId, IsPublicNote, r.body.value)
      ensures SortedBy(r.body.value, NoteCreatedAt, Descending)
    {
      var notes := repo.FindPublic();
      r := Reply(200, Payload(notes));
    }

    /** `getNoteById`: the note, when the read rule lets the caller see it. */
    method GetNoteById(caller: Option<Principal>, id: Id) returns (r: Reply<Note>)
      ensures var a := NoteAccess(ReadNote, Find(repo.notes, id), caller);
        if a == Allowed then r == Reply(200, Payload(repo.notes[id])) else r == Refusal(a, NoteNotFound)
    {
      var note := repo.FindById(id);
      if note.None? {
        return Reply(404, ErrorJson(NoteNotFound));
      }
      if note.value.visibility == Private && !(caller.Some? && caller.value.userId == note.value.userId) {
        return Reply(403, ErrorJson(AccessDenied));
      }
      r := Reply(200, Payload(note.value));
    }

    /** `createNote`: a note needs a title and content; it belongs to the caller. */
    method CreateNote(caller: Option<Principal>, body: NoteRequest, now: int) returns (r: Reply<Note>)
      requires repo.Valid()
      modifies repo
      ensures repo.Valid()
      ensures caller.None? ==> r == Reply(401, ErrorJson(NotAuthenticated)) && repo.notes == old(repo.notes)
      ensures caller.Some? && !(Truthy(body.title) && Truthy(body.content)) ==>
        r == Reply(400, ErrorJson(TitleAndContentRequired)) && repo.notes == old(repo.notes)
      ensures caller.Some? && Truthy(body.title) && Truthy(body.content) ==>
        && r.status == 201 && r.body.Payload?
        && r.body.value.id !in old(repo.notes)
        && r.body.value.userId == caller.value.userId
        && r.body.value == NewNote(r.body.value.id, caller.value.userId,
                                   NoteData(body.title.value, body.content.value, body.visibility, body.tags,
                                            body.linkedSessionId, body.linkedCharacterId), now)
        && repo.notes == old(repo.notes)[r.body.value.id := r.body.value]
    {
      if caller.None? {
        return Reply(401, ErrorJson(NotAuthenticated));
      }
      if !Truthy(body.title) || !Truthy(body.content) {
        return Reply(400, ErrorJson(TitleAndContentRequired));
      }
      var data := NoteData(body.title.value, body.content.value, body.visibility, body.tags, body.linkedSessionId, body.linkedCharacterId);
      var note := repo.Create(caller.value.userId, data, now);
      r := Reply(201, Payload(note));
    }

    /** `updateNote`: only the owner may change a note; a refusal changes nothing. */
    method UpdateNote(caller: Option<Principal>, id: Id, patch: NotePatch, now: int) returns (r: Reply<Note>)
      requires repo.Valid()
      modifies repo
      ensures repo.Valid()
      ensures var a := NoteAccess(EditNote, Find(old(repo.notes), id), caller);
        if a == Allowed then
          && r == Reply(200, Payload(ApplyNotePatch(old(repo.notes)[id], patch, now)))
          && repo.notes == old(repo.notes)[id := r.body.value]
        else r == Refusal(a, NoteNotFound) && repo.notes == old(repo.notes)
    {
      if caller.None? {
        return Reply(401, ErrorJson(NotAuthenticated));
      }
      var existing := repo.FindById(id);
      if existing.None? {
        return Reply(404, ErrorJson(NoteNotFound));
      }
      if existing.value.userId != caller.value.userId {
        return Reply(403, ErrorJson(AccessDenied));
      }
      var note := repo.Update(id, patch, now);
      r := Reply(200, Payload(note.value));
    }

    /** `deleteNote`: the owner or a keeper may delete a note; it is then gone. */
    method DeleteNote(caller: Option<Principal>, id: Id) returns (r: Reply<()>)
      requires repo.Valid()
      modifies repo
      ensures repo.Valid()
      ensures var a := NoteAccess(RemoveNote, Find(old(repo.notes), id), caller);
        if a == Allowed then r == Reply(204, NoContent) && repo.notes == old(repo.notes) - {id}
        else r == Refusal(a, NoteNotFound) && repo.notes == old(repo.notes)
    {
      if caller.None? {
        return Reply(401, ErrorJson(NotAuthenticated));
      }
      var existing := repo.FindById(id);
      if existing.None? {
        return Reply(404, ErrorJson(NoteNotFound));
      }
      if existing.value.userId != caller.value.userId && caller.value.role != Keeper {
        return Reply(403, ErrorJson(AccessDenied));
      }
      var _ := repo.Delete(id);
      r := Reply(204, NoContent);
    }
  }
}
