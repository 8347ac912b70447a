/** The session use cases that turn an absent record into a not-found error. */
module SessionUseCases {
  import opened Common
  import opened Sessions
  import opened SessionRepository

  const SessionNotFound := NotFoundError("Session not found")

  /** `GetSessionById.execute`: a missing session is a not-found error; otherwise
      the session is read a second time and that read is returned (the declared
      result may be null, though the store did not change in between). */
  method GetSessionById(repo: MongoSessionRepository, id: Id) returns (r: Result<Option<Session>>)
    ensures id !in repo.sessions <==> r.Err?
    ensures r.Err? ==> r.error == SessionNotFound && r.error.statusCode == 404
    ensures r.Ok? ==> r.value == Some(repo.sessions[id])
  {
    var session := repo.FindById(id);
    if session.None? {
      return Err(SessionNotFound);
    }
    var again := repo.FindById(id);
    r := Ok(again);
  }

  /** `UpdateSessionUseCase.execute`: the repository's result, or not-found when it
      had no such session; the id and the changes are passed on as they are. */
  method UpdateSession(repo: MongoSessionRepository, id: Id, patch: SessionPatch, now: int) returns (r: Result<Session>)
    requires repo.Valid()
    modifies repo
    ensures repo.Valid()
    ensures id !in old(repo.sessions) ==> r == Err(SessionNotFound) && repo.sessions == old(repo.sessions)
    ensures id in old(repo.sessions) ==>
      && r == Ok(ApplySessionPatch(old(repo.sessions)[id], patch, now))
      && repo.sessions == old(repo.sessions)[id := r.value]
  {
    var updated := repo.Update(id, patch, now);
    if updated.None? {
      return Err(SessionNotFound);
    }
    r := Ok(updated.value);
  }

  /** `DeleteSessionUseCase.execute`: not-found when there was no such session;
      either way the session is absent afterwards, so deleting it again fails. */
  method DeleteSession(repo: MongoSessionRepository, id: Id) returns (r: Result<()>)
    requires repo.Valid()
    modifies repo
    ensures repo.Valid()
    ensures r.Err? <==> id !in old(repo.sessions)
    ensures r.Err? ==> r.error == SessionNotFound
    ensures repo.sessions == old(repo.sessions) - {id} && id !in repo.sessions
  {
    var deleted := repo.Delete(id);
    if !deleted {
      return Err(SessionNotFound);
    }
    r := Ok(());
  }
}
