/** How the event read routes reach their handlers. Both read handlers look at the
    caller (private events, `mine=true`), yet the two read routes are mounted
    without any authentication step, so the handlers never see one. This module
    states that wiring and the optional authentication the handlers evidently
    expect; the rest of the model uses the handlers with an explicit caller. */
module EventRoutes {
  import opened Common
  import opened Events
  import opened Ordering
  import opened Store
  import opened Http
  import opened Access
  import opened AuthMiddleware
  import opened EventRepository
  import opened EventController

  /** The caller a read route would attach if it authenticated optionally: the
      claims of a valid bearer token, and no caller (rather than a 401) otherwise. */
  function OptionalCaller(header: Option<string>, verify: string -> Option<Principal>): (c: Option<Principal>)
    ensures c.Some? <==> AuthenticateStep(header, verify).Next?
    ensures c.Some? ==> c == AuthenticateStep(header, verify).claims
    ensures header.None? ==> c.None?
  {
    var token := BearerToken(header);
    if token.Some? then verify(token.value) else None
  }

  /** `GET /:id` as mounted: the header is never read, so the handler runs
      without a caller. */
  method GetEventByIdAsWired(controller: EventController, header: Option<string>, id: Id)
    returns (r: Reply<CalendarEvent>)
    ensures var a := EventAccess(ReadEvent, Find(controller.repo.events, id), None);
      if a == Allowed then r == Reply(200, Payload(controller.repo.events[id])) else r == Refusal(a, EventNotFound)
    ensures id in controller.repo.events && controller.repo.events[id].visibility == Private ==> r.status == 403
  {
    r := controller.GetEventById(None, id);
  }

  /** `GET /` as mounted: without a caller every request, `mine=true` included,
      lists only the public events. */
  method GetAllEventsAsWired(controller: EventController, header: Option<string>, mine: Option<string>)
    returns (r: Reply<seq<CalendarEvent>>)
    requires controller.repo.Valid()
    ensures r.status == 200 && r.body.Payload?
    ensures IsSelection(controller.repo.events, EventId, IsPublicEvent, r.body.value)
    ensures SortedBy(r.body.value, EventDate, Ascending)
  {
    r := controller.GetAllEvents(None, mine);
  }

  /** `GET /:id` with optional authentication: the creator of a private event, or
      anyone for a public one. */
  method GetEventByIdOptionalAuth(controller: EventController, header: Option<string>,
                                  verify: string -> Option<Principal>, id: Id)
    returns (r: Reply<CalendarEvent>)
    ensures var a := EventAccess(ReadEvent, Find(controller.repo.events, id), OptionalCaller(header, verify));
      if a == Allowed then r == Reply(200, Payload(controller.repo.events[id])) else r == Refusal(a, EventNotFound)
  {
    r := controller.GetEventById(OptionalCaller(header, verify), id);
  }

  /** `GET /` with optional authentication: a signed-in caller's calendar, or
      their own events with `mine=true`; an anonymous request still gets the
      public events. */
  method GetAllEventsOptionalAuth(controller: EventController, header: Option<string>,
                                  verify: string -> Option<Principal>, mine: Option<string>)
    returns (r: Reply<seq<CalendarEvent>>)
    requires controller.repo.Valid()
    ensures r.status == 200 && r.body.Payload?
    ensures SortedBy(r.body.value, EventDate, Ascending)
    ensures var c := OptionalCaller(header, verify);
      && (c.Some? && mine == Some("true") ==> IsSelection(controller.repo.events, EventId, CreatedBy(c.value.userId), r.body.value))
      && (c.Some? && mine != Some("true") ==> IsSelection(controller.repo.events, EventId, VisibleTo(c.value.userId), r.body.value))
      && (c.None? ==> IsSelection(controller.repo.events, EventId, IsPublicEvent, r.body.value))
  {
    r := controller.GetAllEvents(OptionalCaller(header, verify), mine);
  }

  /** The discrepancy on one input: the creator of a private event presents a
      valid token. As mounted the event is refused; with optional authentication
      it is returned. */
  lemma {:induction false} CreatorOfPrivateEventRefusedAsWired(e: CalendarEvent, token: string,
                                                               verify: string -> Option<Principal>, c: Principal)
    requires e.visibility == Private && c.userId == e.createdBy
    requires verify(token) == Some(c)
    ensures EventAccess(ReadEvent, Some(e), None) == Denied
    ensures EventAccess(ReadEvent, Some(e), OptionalCaller(Some(BearerPrefix + token), verify)) == Allowed
  {
    BearerRoundTrip(token);
  }

  /** Optional authentication only ever widens what a read route returns: an event
      readable without a caller stays readable with any header. */
  lemma {:induction false} OptionalAuthOnlyWidens(e: CalendarEvent, header: Option<string>, verify: string -> Option<Principal>)
    ensures EventAccess(ReadEvent, Some(e), None) == Allowed ==> EventAccess(ReadEvent, Some(e), OptionalCaller(header, verify)) == Allowed
    ensures OptionalCaller(None, verify) == None
  {
  }
}
