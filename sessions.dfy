/** The game session aggregate: a session with its embedded clues and items.
    The session date is an instant in milliseconds. */
module Sessions {
  import opened Common

  datatype Clue = Clue(
    name: string,
    description: string,
    clueType: string,
    image: Option<string>,
    tag: Option<string>,
    location: Option<string>)

  datatype Item = Item(name: string, description: string, itemType: string)

  datatype Session = Session(
    id: Id,
    title: string,
    date: int,
    location: string,
    summary: string,
    details: string,
    tags: seq<string>,
    images: seq<string>,
    clues: seq<Clue>,
    items: seq<Item>,
    createdAt: int,
    updatedAt: int)

  /** `Omit<Session, 'id' | 'createdAt' | 'updatedAt'>`: what create stores. */
  datatype SessionData = SessionData(
    title: string,
    date: int,
    location: string,
    summary: string,
    details: string,
    tags: seq<string>,
    images: seq<string>,
    clues: seq<Clue>,
    items: seq<Item>)

  /** The partial form of `SessionData` that update receives. */
  datatype SessionPatch = SessionPatch(
    title: Option<string>,
    date: Option<int>,
    location: Option<string>,
    summary: Option<string>,
    details: Option<string>,
    tags: Option<seq<string>>,
    images: Option<seq<string>>,
    clues: Option<seq<Clue>>,
    items: Option<seq<Item>>)

  function SessionId(s: Session): Id { s.id }
  function SessionDate(s: Session): int { s.date }
}
