/** The calendar event entity and the payloads that create and update one.
    Dates are instants in milliseconds. */
module Events {
  import opened Common

  datatype EventType = SessionEvent | Reminder | Milestone | Other

  /** A stored event; `createdBy` is its creator. */
  datatype CalendarEvent = CalendarEvent(
    id: Id,
    title: string,
    description: Option<string>,
    date: int,
    endDate: Option<int>,
    eventType: EventType,
    createdBy: Id,
    visibility: Visibility,
    color: string,
    createdAt: int,
    updatedAt: int)

  /** `CreateEventDTO`. */
  datatype EventData = EventData(
    title: string,
    description: Option<string>,
    date: int,
    endDate: Option<int>,
    eventType: Option<EventType>,
    visibility: Option<Visibility>,
    color: Option<string>)

  /** `UpdateEventDTO`: every field may be left out; the end date may also be
      cleared. */
  datatype EventPatch = EventPatch(
    title: Option<string>,
    description: Option<string>,
    date: Option<int>,
    endDate: Edit<int>,
    eventType: Option<EventType>,
    visibility: Option<Visibility>,
    color: Option<string>)

  function EventId(e: CalendarEvent): Id { e.id }
  function EventDate(e: CalendarEvent): int { e.date }
}
