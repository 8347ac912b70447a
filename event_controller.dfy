/** The calendar event handlers: the merged list a caller sees, who may read,
    change and delete an event, and what the handlers do to the shared event
    collection. Turning a date string into an instant is a parameter (`toDate`). */
module EventController {
  import opened Common
  import opened Events
  import opened Ordering
  import opened Store
  import opened Http
  import opened Access
  import opened EventRepository

  const EventNotFound := "Event not found"
  const TitleAndDateRequired := "Title and date are required"

  datatype EventAction = ReadEvent | ChangeEvent

  /** Filter used on the caller's own events: `e.visibility === 'private'`. */
  function IsPrivateEvent(e: CalendarEvent): bool {
    e.visibility == Private
  }

  /** The events a signed-in caller sees in the calendar: every public event and
      the caller's own private ones. */
  function VisibleTo(userId: Id): CalendarEvent -> bool {
    (e: CalendarEvent) => e.visibility == Public || (e.createdBy == userId && e.visibility == Private)
  }

  /** A public event, or a private one read by its creator. */
  predicate ReadableBy(e: CalendarEvent, caller: Option<Principal>) {
    e.visibility == Public || (caller.Some? && caller.value.userId == e.createdBy)
  }

  /** What each action requires of the caller once the event exists: the creator
      or a keeper may change or delete it. */
  predicate Permitted(action: EventAction, e: CalendarEvent, caller: Option<Principal>) {
    match action
    case ReadEvent => ReadableBy(e, caller)
    case ChangeEvent => caller.Some? && (caller.value.userId == e.createdBy || caller.value.role == Keeper)
  }

  /** The decision table of the event handlers. Reading needs no caller; changing
      and deleting do, and a missing event is reported before the creator is
      looked at. */
  function EventAccess(action: EventAction, stored: Option<CalendarEvent>, caller: Option<Principal>): (a: Access)
    ensures a == Unauthenticated <==> action.ChangeEvent? && caller.None?
    ensures a == Missing <==> (action.ReadEvent? || caller.Some?) && stored.None?
    ensures a == Allowed <==> stored.Some? && Permitted(action, stored.value, caller)
  {
    if action.ChangeEvent? && caller.None? then Unauthenticated
    else if stored.None? then Missing
    else
      var e := stored.value;
      match action
      case ReadEvent =>
        if e.visibility == Private && !(caller.Some? && caller.value.userId == e.createdBy) then Denied else Allowed
      case ChangeEvent =>
        if e.createdBy != caller.value.userId && caller.value.role != Keeper then Denied else Allowed
  }

  /** Unlike notes, a keeper may change any event; a player only those they created. */
  lemma {:induction false} KeepersMayChangeAnyEvent(e: CalendarEvent, c: Principal)
    ensures c.role == Keeper ==> EventAccess(ChangeEvent, Some(e), Some(c)) == Allowed
    ensures c.role == Player ==> (EventAccess(ChangeEvent, Some(e), Some(c)) == Allowed <==> c.userId == e.createdBy)
  {
  }

  /** A private event is refused to everyone but its creator, keepers included. */
  lemma PrivateEventHiddenFromOthers(e: CalendarEvent, caller: Option<Principal>)
    requires e.visibility == Private
    ensures EventAccess(ReadEvent, Some(e), caller) == Allowed <==> caller.Some? && caller.value.userId == e.createdBy
  {
  }

  /** The body of a create or update request: dates arrive as strings. */
  datatype EventRequest = EventRequest(
    title: Option<string>,
    description: Option<string>,
    date: Option<string>,
    endDate: Option<string>,
    eventType: Option<EventType>,
    visibility: Option<Visibility>,
    color: Option<string>)

  /** The data `createEvent` stores: the dates converted, an empty end date dropped. */
  function EventDataOf(body: EventRequest, toDate: string -> int): (d: EventData)
    requires Truthy(body.title) && Truthy(body.date)
    ensures d.title == body.title.value && d.date == toDate(body.date.value)
    ensures d.endDate.Some? <==> Truthy(body.endDate)
    ensures d.endDate.Some? ==> d.endDate.value == toDate(body.endDate.value)
    ensures d.eventType == body.eventType && d.visibility == body.visibility
  {
    EventData(body.title.value, body.description, toDate(body.date.value),
              if Truthy(body.endDate) then Some(toDate(body.endDate.value)) else None,
              body.eventType, body.visibility, body.color)
  }

  /** The `$set` `updateEvent` sends: the body with its dates converted when they
      are given and not empty. An empty end date is sent as it is, and the date
      cast turns it into null: the stored end date is cleared. */
  function EventPatchOf(body: EventRequest, toDate: string -> int): (p: EventPatch)
    ensures p.title == body.title && p.description == body.description && p.color == body.color
    ensures p.date.Some? <==> Truthy(body.date)
    ensures p.date.Some? ==> p.date.value == toDate(body.date.value)
    ensures p.endDate.Keep? <==> body.endDate.None?
    ensures p.endDate.Clear? <==> body.endDate == Some("")
    ensures p.endDate.SetTo? <==> Truthy(body.endDate)
    ensures p.endDate.SetTo? ==> p.endDate.value == toDate(body.endDate.value)
    ensures p.eventType == body.eventType && p.visibility == body.visibility
  {
    EventPatch(body.title, body.description,
               if Truthy(body.date) then Some(toDate(body.date.value)) else None,
               match body.endDate
                 case None => Keep
                 case Some(s) => if s == "" then Clear else SetTo(toDate(s)),
               body.eventType, body.visibility, body.color)
  }

  /** An update body whose end date is the empty string removes the stored end
      date; one without an end date keeps it. */
  lemma EmptyEndDateClears(e: CalendarEvent, body: EventRequest, toDate: string -> int, now: int)
    ensures body.endDate == Some("") ==> ApplyEventPatch(e, EventPatchOf(body, toDate), now).endDate.None?
    ensures body.endDate.None? ==> ApplyEventPatch(e, EventPatchOf(body, toDate), now).endDate == e.endDate
  {
  }

  /** The handlers share one event collection. */
  class EventController {
    const repo: MongoCalendarEventRepository

    constructor(repo: MongoCalendarEventRepository)
      ensures this.repo == repo
    {
      this.repo := repo;
    }

    /** `getAllEvents`: with `mine=true` a caller gets their own events; otherwise
        a caller gets the public events and their own private ones, and anyone
        else the public events. Every list is ordered by ascending date. */
    method GetAllEvents(caller: Option<Principal>, mine: Option<string>) returns (r: Reply<seq<CalendarEvent>>)
      requires repo.Valid()
      ensures r.status == 200 && r.body.Payload?
      ensures SortedBy(r.body.value, EventDate, Ascending)
      ensures caller.Some? && mine == Some("true") ==> IsSelection(repo.events, EventId, CreatedBy(caller.value.userId), r.body.value)
      ensures caller.Some? && mine != Some("true") ==> IsSelection(repo.events, EventId, VisibleTo(caller.value.userId), r.body.value)
      ensures caller.None? ==> IsSelection(repo.events, EventId, IsPublicEvent, r.body.value)
    {
      if mine == Some("true") && caller.Some? {
        var events := repo.FindByUserId(caller.value.userId);
        return Reply(200, Payload(events));
      }
      var publicEvents := repo.FindPublic();
      if caller.Some? {
        var uid := caller.value.userId;
        var userEvents := repo.FindByUserId(uid);
        var privateUserEvents := Filter(userEvents, IsPrivateEvent);
        FilteredSelection(repo.events, EventId, CreatedBy(uid), IsPrivateEvent, (e: CalendarEvent) => e.createdBy == uid && e.visibility == Private, userEvents);
        var allEvents := SortBy(publicEvents + privateUserEvents, EventDate, Ascending);
        SelectionOfUnion(repo.events, EventId, IsPublicEvent, (e: CalendarEvent) => e.createdBy == uid && e.visibility == Private,
                         VisibleTo(uid), publicEvents, privateUserEvents, allEvents);
        return Reply(200, Payload(allEvents));
      }
      r := Reply(200, Payload(publicEvents));
    }

    /** `getEventById`: the event, when the read rule lets the caller see it. */
    method GetEventById(caller: Option<Principal>, id: Id) returns (r: Reply<CalendarEvent>)
      ensures var a := EventAccess(ReadEvent, Find(repo.events, id), caller);
        if a == Allowed then r == Reply(200, Payload(repo.events[id])) else r == Refusal(a, EventNotFound)
    {
      var event := repo.FindById(id);
      if event.None? {
        return Reply(404, ErrorJson(EventNotFound));
      }
      if event.value.visibility == Private && !(caller.Some? && caller.value.userId == event.value.createdBy) {
        return Reply(403, ErrorJson(AccessDenied));
      }
      r := Reply(200, Payload(event.value));
    }

    /** `createEvent`: an event needs a title and a date; its creator is the caller. */
    method CreateEvent(caller: Option<Principal>, body: EventRequest, toDate: string -> int, now: int) returns (r: Reply<CalendarEvent>)
      requires repo.Valid()
      modifies repo
      ensures repo.Valid()
      ensures caller.None? ==> r == Reply(401, ErrorJson(NotAuthenticated)) && repo.events == old(repo.events)
      ensures caller.Some? && !(Truthy(body.title) && Truthy(body.date)) ==>
        r == Reply(400, ErrorJson(TitleAndDateRequired)) && repo.events == old(repo.events)
      ensures caller.Some? && Truthy(body.title) && Truthy(body.date) ==>
        && r.status == 201 && r.body.Payload?
        && r.body.value.id !in old(repo.events)
        && r.body.value.createdBy == caller.value.userId
        && r.body.value == NewEvent(r.body.value.id, caller.value.userId, EventDataOf(body, toDate), now)
        && repo.events == old(repo.events)[r.body.value.id := r.body.value]
    {
      if caller.None? {
        return Reply(401, ErrorJson(NotAuthenticated));
      }
      if !Truthy(body.title) || !Truthy(body.date) {
        return Reply(400, ErrorJson(TitleAndDateRequired));
      }
      var event := repo.Create(caller.value.userId, EventDataOf(body, toDate), now);
      r := Reply(201, Payload(event));
    }

    /** `updateEvent`: the creator or a keeper may change an event; a refusal
        changes nothing. */
    method UpdateEvent(caller: Option<Principal>, id: Id, body: EventRequest, toDate: string -> int, now: int) returns (r: Reply<CalendarEvent>)
      requires repo.Valid()
      modifies repo
      ensures repo.Valid()
      ensures var a := EventAccess(ChangeEvent, Find(old(repo.events), id), caller);
        if a == Allowed then
          && r == Reply(200, Payload(ApplyEventPatch(old(repo.events)[id], EventPatchOf(body, toDate), now)))
          && repo.events == old(repo.events)[id := r.body.value]
        else r == Refusal(a, EventNotFound) && repo.events == old(repo.events)
    {
      if caller.None? {
        return Reply(401, ErrorJson(NotAuthenticated));
      }
      var existing := repo.FindById(id);
      if existing.None? {
        return Reply(404, ErrorJson(EventNotFound));
      }
      if existing.value.createdBy != caller.value.userId && caller.value.role != Keeper {
        return Reply(403, ErrorJson(AccessDenied));
      }
      var event := repo.Update(id, EventPatchOf(body, toDate), now);
      r := Reply(200, Payload(event.value));
    }

    /** `deleteEvent`: the creator or a keeper may delete an event; it is then gone. */
    method DeleteEvent(caller: Option<Principal>, id: Id) returns (r: Reply<()>)
      requires repo.Valid()
      modifies repo
      ensures repo.Valid()
      ensures var a := EventAccess(ChangeEvent, Find(old(repo.events), id), caller);
        if a == Allowed then r == Reply(204, NoContent) && repo.events == old(repo.events) - {id} && id !in repo.events
        else r == Refusal(a, EventNotFound) && repo.events == old(repo.events)
    {
      if caller.None? {
        return Reply(401, ErrorJson(NotAuthenticated));
      }
      var existing := repo.FindById(id);
      if existing.None? {
        return Reply(404, ErrorJson(EventNotFound));
      }
      if existing.value.createdBy != caller.value.userId && caller.value.role != Keeper {
        return Reply(403, ErrorJson(AccessDenied));
      }
      var _ := repo.Delete(id);
      r := Reply(204, NoContent);
    }
  }
}
