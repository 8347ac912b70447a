/** The game session collection. Listings come back latest session first. */
module SessionRepository {
  import opened Common
  import opened Sessions
  import opened Ordering
  import opened Store

  /** The session `create` stores: exactly the given data. */
  function NewSession(id: Id, data: SessionData, now: int): Session {
    Session(id, data.title, data.date, data.location, data.summary, data.details, data.tags,
            data.images, data.clues, data.items, now, now)
  }

  /** `findByIdAndUpdate(id, { $set: patch })`: supplied fields replace the stored ones. */
  function ApplySessionPatch(s: Session, p: SessionPatch, now: int): Session {
    s.(title := p.title.GetOr(s.title),
       date := p.date.GetOr(s.date),
       location := p.location.GetOr(s.location),
       summary := p.summary.GetOr(s.summary),
       details := p.details.GetOr(s.details),
       tags := p.tags.GetOr(s.tags),
       images := p.images.GetOr(s.images),
       clues := p.clues.GetOr(s.clues),
       items := p.items.GetOr(s.items),
       updatedAt := now)
  }

  /** The patch that supplies no field. */
  const NoSessionChanges := SessionPatch(None, None, None, None, None, None, None, None, None)

  /** Filter `{}`. */
  function AnySession(s: Session): bool { true }

  /** Filter `{ tags: { $in: tags } }`: the session carries at least one of the tags. */
  function SharesTag(tags: seq<string>): Session -> bool {
    (s: Session) => exists t :: t in s.tags && t in tags
  }

  /** A `$set` with no fields only touches the update time. */
  lemma EmptySessionPatch(s: Session, now: int)
    ensures ApplySessionPatch(s, NoSessionChanges, now) == s.(updatedAt := now)
  {
  }

  /** Repeating an update changes nothing more. */
  lemma SessionPatchIdempotent(s: Session, p: SessionPatch, now: int)
    ensures ApplySessionPatch(ApplySessionPatch(s, p, now), p, now) == ApplySessionPatch(s, p, now)
  {
  }

  /** An update never moves a session to another identifier or creation time. */
  lemma SessionPatchKeepsIdentity(s: Session, p: SessionPatch, now: int)
    ensures ApplySessionPatch(s, p, now).id == s.id
    ensures ApplySessionPatch(s, p, now).createdAt == s.createdAt
  {
  }

  /** An empty tag list matches no session at all. */
  lemma {:induction false} NoTagsMatchNothing(s: Session)
    ensures !SharesTag([])(s)
  {
  }

  class MongoSessionRepository {
    var sessions: map<Id, Session>
    var nextId: nat

    ghost predicate Valid()
      reads this
    {
      KeyedBy(sessions, SessionId) && forall k :: k in sessions ==> |k| <= nextId
    }

    constructor ()
      ensures Valid() && sessions == map[]
    {
      sessions := map[];
      nextId := 0;
    }

    /** `findAll`: every session, latest date first. */
    method FindAll() returns (r: seq<Session>)
      requires Valid()
      ensures IsSelection(sessions, SessionId, AnySession, r)
      ensures SortedBy(r, SessionDate, Descending)
    {
      r := Select(sessions, SessionId, AnySession, SessionDate, Descending);
    }

    /** `findById`: the session stored under `id`, or null. */
    method FindById(id: Id) returns (r: Option<Session>)
      ensures r.Some? <==> id in sessions
      ensures r.Some? ==> r.value == sessions[id]
    {
      r := if id in sessions then Some(sessions[id]) else None;
    }

    /** `findByTags`: exactly the sessions sharing a tag with `tags`, latest first. */
    method FindByTags(tags: seq<string>) returns (r: seq<Session>)
      requires Valid()
      ensures IsSelection(sessions, SessionId, SharesTag(tags), r)
      ensures SortedBy(r, SessionDate, Descending)
    {
      r := Select(sessions, SessionId, SharesTag(tags), SessionDate, Descending);
    }

    /** `search`: the text index decides which sessions match the term and how
        well; the matches come back best score first. */
    method Search(matches: Session -> bool, score: Session -> int) returns (r: seq<Session>)
      requires Valid()
      ensures IsSelection(sessions, SessionId, matches, r)
      ensures SortedBy(r, score, Descending)
    {
      r := Select(sessions, SessionId, matches, score, Descending);
    }

    /** `create`: stores `NewSession` under a fresh identifier. */
    method Create(data: SessionData, now: int) returns (s: Session)
      requires Valid()
      modifies this
      ensures Valid()
      ensures s.id !in old(sessions) && s == NewSession(s.id, data, now)
      ensures sessions == old(sessions)[s.id := s]
    {
      s := NewSession(IdOf(nextId), data, now);
      sessions := sessions[s.id := s];
      nextId := nextId + 1;
    }

    /** `update`: null for an unknown id (nothing changes), else the patched session. */
    method Update(id: Id, patch: SessionPatch, now: int) returns (r: Option<Session>)
      requires Valid()
      modifies this
      ensures Valid()
      ensures id !in old(sessions) ==> r == None && sessions == old(sessions)
      ensures id in old(sessions) ==> r == Some(ApplySessionPatch(old(sessions)[id], patch, now)) && sessions == old(sessions)[id := r.value]
    {
      if id in sessions {
        var s := ApplySessionPatch(sessions[id], patch, now);
        sessions := sessions[id := s];
        r := Some(s);
      } else {
        r := None;
      }
    }

    /** `delete`: whether a session with that id existed; afterwards there is none. */
    method Delete(id: Id) returns (existed: bool)
      requires Valid()
      modifies this
      ensures Valid()
      ensures existed == (id in old(sessions))
      ensures sessions == old(sessions) - {id}
    {
      existed := id in sessions;
      sessions := sessions - {id};
    }
  }
}
