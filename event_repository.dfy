/** The calendar event collection. Every query returns events by ascending date. */
module EventRepository {
  import opened Common
  import opened Events
  import opened Ordering
  import opened Store

  /** The colour an event is stored with when none is given (the primary gold). */
  const DefaultColor := "#c9a55c"

  /** The event `create` stores: the creator is the given user, the type defaults
      to 'other', the visibility to public and the colour to `DefaultColor`. */
  function NewEvent(id: Id, userId: Id, data: EventData, now: int): CalendarEvent {
    CalendarEvent(id, data.title, data.description, data.date, data.endDate, data.eventType.GetOr(Other),
                  userId, data.visibility.GetOr(Public), data.color.GetOr(DefaultColor), now, now)
  }

  /** `findByIdAndUpdate(id, patch)`: supplied fields replace the stored ones; an
      end date the cast turns into null is cleared. */
  function ApplyEventPatch(e: CalendarEvent, p: EventPatch, now: int): CalendarEvent {
    e.(title := p.title.GetOr(e.title),
       description := p.description.OrElse(e.description),
       date := p.date.GetOr(e.date),
       endDate := Edited(p.endDate, e.endDate),
       eventType := p.eventType.GetOr(e.eventType),
       visibility := p.visibility.GetOr(e.visibility),
       color := p.color.GetOr(e.color),
       updatedAt := now)
  }

  /** Filter `{ createdBy }`. */
  function CreatedBy(userId: Id): CalendarEvent -> bool {
    (e: CalendarEvent) => e.createdBy == userId
  }

  /** Filter `{ visibility: 'public' }`. */
  function IsPublicEvent(e: CalendarEvent): bool {
    e.visibility == Public
  }

  /** Filter `{ date: { $gte: start, $lte: end } }`: both bounds inclusive. */
  function DatedBetween(start: int, end: int): CalendarEvent -> bool {
    (e: CalendarEvent) => start <= e.date <= end
  }

  function AnyEvent(e: CalendarEvent): bool { true }

  /** What `create` defaults and what it keeps from its input. */
  lemma NewEventDefaults(id: Id, userId: Id, data: EventData, now: int)
    ensures NewEvent(id, userId, data, now).createdBy == userId
    ensures data.eventType == None ==> NewEvent(id, userId, data, now).eventType == Other
    ensures data.visibility == None ==> NewEvent(id, userId, data, now).visibility == Public
    ensures data.eventType.Some? ==> NewEvent(id, userId, data, now).eventType == data.eventType.value
    ensures data.visibility.Some? ==> NewEvent(id, userId, data, now).visibility == data.visibility.value
    ensures data.color == None ==> NewEvent(id, userId, data, now).color == DefaultColor
    ensures data.color.Some? ==> NewEvent(id, userId, data, now).color == data.color.value
  {
  }

  /** The three end-date edits: keeping leaves the stored end date, clearing
      removes it, and setting replaces it; no edit touches the start date. */
  lemma EndDateEdits(e: CalendarEvent, p: EventPatch, now: int)
    ensures p.endDate.Keep? ==> ApplyEventPatch(e, p, now).endDate == e.endDate
    ensures p.endDate.Clear? ==> ApplyEventPatch(e, p, now).endDate.None?
    ensures p.endDate.SetTo? ==> ApplyEventPatch(e, p, now).endDate == Some(p.endDate.value)
    ensures p.date.None? ==> ApplyEventPatch(e, p, now).date == e.date
  {
  }

  class MongoCalendarEventRepository {
    var events: map<Id, CalendarEvent>
    var nextId: nat

    ghost predicate Valid()
      reads this
    {
      KeyedBy(events, EventId) && forall k :: k in events ==> |k| <= nextId
    }

    constructor ()
      ensures Valid() && events == map[]
    {
      events := map[];
      nextId := 0;
    }

    /** `findById`: the event stored under `id`, or null. */
    method FindById(id: Id) returns (r: Option<CalendarEvent>)
      ensures r.Some? <==> id in events
      ensures r.Some? ==> r.value == events[id]
    {
      r := if id in events then Some(events[id]) else None;
    }

    /** `findByUserId`: exactly the events the user created, by ascending date. */
    method FindByUserId(userId: Id) returns (r: seq<CalendarEvent>)
      requires Valid()
      ensures IsSelection(events, EventId, CreatedBy(userId), r)
      ensures SortedBy(r, EventDate, Ascending)
    {
      r := Select(events, EventId, CreatedBy(userId), EventDate, Ascending);
    }

    /** `findPublic`: exactly the public events, by ascending date. */
    method FindPublic() returns (r: seq<CalendarEvent>)
      requires Valid()
      ensures IsSelection(events, EventId, IsPublicEvent, r)
      ensures SortedBy(r, EventDate, Ascending)
    {
      r := Select(events, EventId, IsPublicEvent, EventDate, Ascending);
    }

    /** `findByDateRange`: exactly the events with start <= date <= end, by ascending date. */
    method FindByDateRange(start: int, end: int) returns (r: seq<CalendarEvent>)
      requires Valid()
      ensures IsSelection(events, EventId, DatedBetween(start, end), r)
      ensures SortedBy(r, EventDate, Ascending)
    {
      r := Select(events, EventId, DatedBetween(start, end), EventDate, Ascending);
    }

    /** `findAll`: every event, by ascending date. */
    method FindAll() returns (r: seq<CalendarEvent>)
      requires Valid()
      ensures IsSelection(events, EventId, AnyEvent, r)
      ensures SortedBy(r, EventDate, Ascending)
    {
      r := Select(events, EventId, AnyEvent, EventDate, Ascending);
    }

    /** `create`: stores `NewEvent` under a fresh identifier. */
    method Create(userId: Id, data: EventData, now: int) returns (e: CalendarEvent)
      requires Valid()
      modifies this
      ensures Valid()
      ensures e.id !in old(events) && e == NewEvent(e.id, userId, data, now)
      ensures events == old(events)[e.id := e]
    {
      e := NewEvent(IdOf(nextId), userId, data, now);
      events := events[e.id := e];
      nextId := nextId + 1;
    }

    /** `update`: null for an unknown id (nothing changes), else the patched event. */
    method Update(id: Id, patch: EventPatch, now: int) returns (r: Option<CalendarEvent>)
      requires Valid()
      modifies this
      ensures Valid()
      ensures id !in old(events) ==> r == None && events == old(events)
      ensures id in old(events) ==> r == Some(ApplyEventPatch(old(events)[id], patch, now)) && events == old(events)[id := r.value]
    {
      if id in events {
        var e := ApplyEventPatch(events[id], patch, now);
        events := events[id := e];
        r := Some(e);
      } else {
        r := None;
      }
    }

    /** `delete`: whether an event with that id existed; afterwards there is none. */
    method Delete(id: Id) returns (existed: bool)
      requires Valid()
      modifies this
      ensures Valid()
      ensures existed == (id in old(events))
      ensures events == old(events) - {id}
    {
      existed := id in events;
      events := events - {id};
    }
  }
}
