/** The session handlers: listing, tag filter, text search, and the validated
    create and update; an application error becomes its own status and message. */
module SessionController {
  import opened Common
  import opened Joi
  import opened Ordering
  import opened Store
  import opened Http
  import opened Sessions
  import opened SessionRepository
  import opened SessionValidator
  import opened SessionUseCases
  import ErrorHandler

  const SearchTermRequired := "Search term is required"

  /** A query-string parameter as the framework parses it: missing, given once,
      or repeated. */
  datatype QueryValue = Absent | Single(s: string) | Repeated(items: seq<string>)

  /** `(Array.isArray(tags) ? tags : [tags]).map(String)`: a repeated parameter
      keeps its values; a single one becomes a one-element list; a missing one
      becomes the one-element list holding the text "undefined". */
  function TagArray(q: QueryValue): (r: seq<string>)
    ensures q.Repeated? ==> r == q.items
    ensures !q.Repeated? ==> |r| == 1
    ensures q.Single? ==> r[0] == q.s
  {
    match q
    case Absent => ["undefined"]
    case Single(s) => [s]
    case Repeated(items) => items
  }

  /** A request with no `tags` parameter filters on the tag "undefined": it finds
      exactly the sessions carrying that literal tag, not all sessions. */
  lemma {:induction false} MissingTagsFilterOnUndefined(s: Session)
    ensures SharesTag(TagArray(Absent))(s) <==> "undefined" in s.tags
  {
    if "undefined" in s.tags {
      assert "undefined" in s.tags && "undefined" in TagArray(Absent);
    }
  }

  /** The term a search runs with: present, given once and not empty. */
  function SearchTerm(q: QueryValue): (r: Option<string>)
    ensures r.Some? <==> q.Single? && q.s != ""
    ensures r.Some? ==> r.value == q.s
  {
    if q.Single? && q.s != "" then Some(q.s) else None
  }

  /** An application error thrown by a use case, as the handlers send it. */
  function ErrorReply<T>(e: AppError): (r: Reply<T>)
    ensures r.status == e.statusCode && r.body == MessageJson(e.message)
  {
    Reply(e.statusCode, MessageJson(e.message))
  }

  /** A listing handler's answer as the code is written. The three listing queries
      end in `.lean()`, which returns plain objects: they carry `_id` but not the
      `id` getter, so `documentToEntity` throws on `doc.id.toString()` for the
      first session there is, and the handler's catch answers 500. Only an empty
      selection gets through. */
  function LeanListingReply(selected: seq<Session>): (r: Reply<seq<Session>>)
    ensures r.status == 200 <==> selected == []
    ensures r.status == 200 ==> r.body == Payload([])
    ensures r.status != 200 ==> r == Reply(500, MessageJson(ErrorHandler.InternalServerError))
  {
    if selected == [] then Reply(200, Payload([])) else Reply(500, MessageJson(ErrorHandler.InternalServerError))
  }

  /** As written, a listing fails exactly when some stored session matches its
      filter: no listing ever returns a session. */
  lemma {:induction false} LeanListingFailsOnAnyMatch(store: map<Id, Session>, keep: Session -> bool, selected: seq<Session>)
    requires IsSelection(store, SessionId, keep, selected)
    ensures LeanListingReply(selected).status == 500 <==> exists k :: k in store && keep(store[k])
    ensures LeanListingReply(selected).body.Payload? ==> LeanListingReply(selected).body.value == []
  {
    if exists k :: k in store && keep(store[k]) {
      var k :| k in store && keep(store[k]);
      assert store[k] in selected;
    }
    if selected != [] {
      var x := selected[0];
      assert x in selected;
      assert SessionId(x) in store && keep(store[SessionId(x)]);
    }
  }

  class SessionController {
    const repo: MongoSessionRepository

    constructor(repo: MongoSessionRepository)
      ensures this.repo == repo
    {
      this.repo := repo;
    }

    /** `getAllSessions`: every session once, latest first. */
    method GetAllSessions() returns (r: Reply<seq<Session>>)
      requires repo.Valid()
      ensures r.status == 200 && r.body.Payload?
      ensures IsSelection(repo.sessions, SessionId, AnySession, r.body.value)
      ensures SortedBy(r.body.value, SessionDate, Descending)
    {
      var sessions := repo.FindAll();
      r := Reply(200, Payload(sessions));
    }

    /** `getAllSessions` as written: 500 as soon as any session is stored, an empty
        list otherwise. */
    method GetAllSessionsAsWritten() returns (r: Reply<seq<Session>>)
      requires repo.Valid()
      ensures r.status == 500 <==> repo.sessions != map[]
      ensures r.status != 500 ==> r == Reply(200, Payload([]))
    {
      var sessions := repo.FindAll();
      LeanListingFailsOnAnyMatch(repo.sessions, AnySession, sessions);
      r := LeanListingReply(sessions);
      if repo.sessions != map[] {
        var k :| k in repo.sessions;
        assert AnySession(repo.sessions[k]);
      }
    }

    /** `getSessionById`: the session, or the not-found error's status and message. */
    method GetSessionById(id: Id) returns (r: Reply<Option<Session>>)
      ensures id in repo.sessions ==> r == Reply(200, Payload(Some(repo.sessions[id])))
      ensures id !in repo.sessions ==> r == Reply(404, MessageJson("Session not found"))
    {
      var session := SessionUseCases.GetSessionById(repo, id);
      if session.Err? {
        return ErrorReply(session.error);
      }
      r := Reply(200, Payload(session.value));
    }

    /** `getSessionsByTags`: the sessions sharing a tag with the normalised list. */
    method GetSessionsByTags(tags: QueryValue) returns (r: Reply<seq<Session>>)
      requires repo.Valid()
      ensures r.status == 200 && r.body.Payload?
      ensures IsSelection(repo.sessions, SessionId, SharesTag(TagArray(tags)), r.body.value)
      ensures SortedBy(r.body.value, SessionDate, Descending)
    {
      var sessions := repo.FindByTags(TagArray(tags));
      r := Reply(200, Payload(sessions));
    }

    /** `getSessionsByTags` as written: 500 as soon as a stored session shares a
        tag with the normalised list, an empty list otherwise. */
    method GetSessionsByTagsAsWritten(tags: QueryValue) returns (r: Reply<seq<Session>>)
      requires repo.Valid()
      ensures r.status == 500 <==> exists k :: k in repo.sessions && SharesTag(TagArray(tags))(repo.sessions[k])
      ensures r.status != 500 ==> r == Reply(200, Payload([]))
    {
      var sessions := repo.FindByTags(TagArray(tags));
      LeanListingFailsOnAnyMatch(repo.sessions, SharesTag(TagArray(tags)), sessions);
      r := LeanListingReply(sessions);
    }

    /** `searchSessions`: refused unless the term is one non-empty string; then the
        sessions the text index matches, best first. The index is the parameter
        pair `matches`/`score`. */
    method SearchSessions(term: QueryValue, matches: string -> Session -> bool, score: string -> Session -> int)
      returns (r: Reply<seq<Session>>)
      requires repo.Valid()
      ensures SearchTerm(term).None? <==> r.status == 400
      ensures SearchTerm(term).None? ==> r.body == MessageJson(SearchTermRequired)
      ensures SearchTerm(term).Some? ==>
        && r.status == 200 && r.body.Payload?
        && IsSelection(repo.sessions, SessionId, matches(term.s), r.body.value)
        && SortedBy(r.body.value, score(term.s), Descending)
    {
      if !term.Single? || term.s == "" {
        return Reply(400, MessageJson(SearchTermRequired));
      }
      var sessions := repo.Search(matches(term.s), score(term.s));
      r := Reply(200, Payload(sessions));
    }

    /** `searchSessions` as written: the same refusal of a missing term; then 500
        as soon as the text index matches a stored session, an empty list
        otherwise. */
    method SearchSessionsAsWritten(term: QueryValue, matches: string -> Session -> bool, score: string -> Session -> int)
      returns (r: Reply<seq<Session>>)
      requires repo.Valid()
      ensures SearchTerm(term).None? ==> r == Reply(400, MessageJson(SearchTermRequired))
      ensures SearchTerm(term).Some? ==>
        && (r.status == 500 <==> exists k :: k in repo.sessions && matches(term.s)(repo.sessions[k]))
        && (r.status != 500 ==> r == Reply(200, Payload([])))
    {
      if !term.Single? || term.s == "" {
        return Reply(400, MessageJson(SearchTermRequired));
      }
      var sessions := repo.Search(matches(term.s), score(term.s));
      LeanListingFailsOnAnyMatch(repo.sessions, matches(term.s), sessions);
      r := LeanListingReply(sessions);
    }

    /** `createSession`: a body the schema refuses is answered 400 with the
        violations and their details, and nothing is stored; otherwise the filled
        body is stored under a fresh identifier. */
    method CreateSession(body: Json, parseDate: string -> int, now: int) returns (r: Reply<Session>)
      requires repo.Valid()
      modifies repo
      ensures repo.Valid()
      ensures !Conforms(CreateSessionSchema(), body) ==>
        && r == Reply(400, InvalidWithDetails(Violations(CreateSessionSchema(), body)))
        && repo.sessions == old(repo.sessions)
      ensures Conforms(CreateSessionSchema(), body) ==>
        && r.status == 201 && r.body.Payload?
        && var s := r.body.value;
        && s.id !in old(repo.sessions)
        && s == NewSession(s.id, SessionDataOf(Fill(CreateSessionSchema(), body), parseDate), now)
        && repo.sessions == old(repo.sessions)[s.id := s]
    {
      var validation := ValidateCreateSession(body);
      if validation.Refused? {
        return Reply(400, InvalidWithDetails(validation.violations));
      }
      var session := repo.Create(SessionDataOf(validation.value, parseDate), now);
      r := Reply(201, Payload(session));
    }

    /** `updateSession`: a refused body is answered 400 and nothing changes; an
        unknown id is answered 404 and nothing changes; otherwise exactly the
        keys sent are set. */
    method UpdateSession(id: Id, body: Json, parseDate: string -> int, now: int) returns (r: Reply<Session>)
      requires repo.Valid()
      modifies repo
      ensures repo.Valid()
      ensures !Conforms(UpdateSessionSchema(), body) ==>
        r == Reply(400, Invalid(Violations(UpdateSessionSchema(), body))) && repo.sessions == old(repo.sessions)
      ensures Conforms(UpdateSessionSchema(), body) && id !in old(repo.sessions) ==>
        r == Reply(404, MessageJson("Session not found")) && repo.sessions == old(repo.sessions)
      ensures Conforms(UpdateSessionSchema(), body) && id in old(repo.sessions) ==>
        var updated := ApplySessionPatch(old(repo.sessions)[id], SessionPatchOf(Fill(UpdateSessionSchema(), body), parseDate), now);
        && r == Reply(200, Payload(updated))
        && repo.sessions == old(repo.sessions)[id := updated]
    {
      var validation := ValidateUpdateSession(body);
      if validation.Refused? {
        return Reply(400, Invalid(validation.violations));
      }
      var session := SessionUseCases.UpdateSession(repo, id, SessionPatchOf(validation.value, parseDate), now);
      if session.Err? {
        return ErrorReply(session.error);
      }
      r := Reply(200, Payload(session.value));
    }

    /** `deleteSession`: 204 when the session existed, 404 otherwise; it is gone
        either way. */
    method DeleteSession(id: Id) returns (r: Reply<()>)
      requires repo.Valid()
      modifies repo
      ensures repo.Valid()
      ensures id in old(repo.sessions) ==> r == Reply(204, NoContent)
      ensures id !in old(repo.sessions) ==> r == Reply(404, MessageJson("Session not found"))
      ensures repo.sessions == old(repo.sessions) - {id}
    {
      var deleted := SessionUseCases.DeleteSession(repo, id);
      if deleted.Err? {
        return ErrorReply(deleted.error);
      }
      r := Reply(204, NoContent);
    }
  }
}
