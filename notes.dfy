/** The note entity and the payloads that create and update one. */
module Notes {
  import opened Common

  /** A stored note; `userId` is its owner. */
  datatype Note = Note(
    id: Id,
    title: string,
    content: string,
    userId: Id,
    visibility: Visibility,
    tags: seq<string>,
    linkedSessionId: Option<Id>,
    linkedCharacterId: Option<Id>,
    createdAt: int,
    updatedAt: int)

  /** `CreateNoteDTO`. */
  datatype NoteData = NoteData(
    title: string,
    content: string,
    visibility: Option<Visibility>,
    tags: Option<seq<string>>,
    linkedSessionId: Option<Id>,
    linkedCharacterId: Option<Id>)

  /** `UpdateNoteDTO`: every field may be left out; a link may also be sent as
      null, which unlinks the note. */
  datatype NotePatch = NotePatch(
    title: Option<string>,
    content: Option<string>,
    visibility: Option<Visibility>,
    tags: Option<seq<string>>,
    linkedSessionId: Edit<Id>,
    linkedCharacterId: Edit<Id>)

  function NoteId(n: Note): Id { n.id }
  function NoteCreatedAt(n: Note): int { n.createdAt }
}
