/** The account handlers: registration behind the keeper gate, login, the current
    account and the keeper's list of accounts. */
module AuthController {
  import opened Common
  import opened Users
  import opened Store
  import opened Http
  import opened Access
  import opened UserRepository
  import opened AuthUseCases

  const OnlyKeepersCreateKeepers := "Only keepers can create other keepers"

  /** Asking for a keeper account needs a keeper caller; any other request passes. */
  predicate MayRequestRole(role: Option<Role>, caller: Option<Principal>) {
    !(role == Some(Keeper) && !(caller.Some? && caller.value.role == Keeper))
  }

  /** One entry of the account list: no hash, no profile, no timestamps. */
  function SummaryOf(u: User): (s: UserSummary)
    ensures s.id == u.id && s.username == u.username && s.email == u.email
    ensures s.role == u.role && s.characterId == u.characterId
  {
    UserSummary(u.id, u.username, u.email, u.role, u.characterId)
  }

  /** `users.map(...)`: one summary per account, in the same order. */
  function Summaries(users: seq<User>): (r: seq<UserSummary>)
    ensures |r| == |users|
    ensures forall i :: 0 <= i < |users| ==> r[i] == SummaryOf(users[i])
  {
    if users == [] then [] else [SummaryOf(users[0])] + Summaries(users[1..])
  }

  /** The list is unaffected by password hashes: two stores that differ only in
      hashes produce the same list. */
  lemma {:induction false} SummariesIgnoreHashes(users: seq<User>, hashes: seq<string>)
    requires |hashes| == |users|
    ensures Summaries(seq(|users|, i requires 0 <= i < |users| => users[i].(passwordHash := hashes[i]))) == Summaries(users)
  {
    var rehashed := seq(|users|, i requires 0 <= i < |users| => users[i].(passwordHash := hashes[i]));
    assert forall i :: 0 <= i < |users| ==> SummaryOf(rehashed[i]) == SummaryOf(users[i]);
  }

  /** The handlers share one account collection. */
  class AuthController {
    const repo: MongoUserRepository

    constructor(repo: MongoUserRepository)
      ensures this.repo == repo
    {
      this.repo := repo;
    }

    /** `register`: a keeper account may only be asked for by a keeper; then the
        registration's failure is a 400 with its message, and its success a 201
        with the new account's public view. */
    method Register(caller: Option<Principal>, body: RegisterInput, hash: string -> string, now: int) returns (r: Reply<UserPublic>)
      requires repo.Valid()
      modifies repo
      ensures repo.Valid()
      ensures !MayRequestRole(body.role, caller) ==> r == Reply(403, ErrorJson(OnlyKeepersCreateKeepers)) && repo.users == old(repo.users)
      ensures MayRequestRole(body.role, caller) && RegistrationError(old(repo.users), body).Some? ==>
        r == Reply(400, ErrorJson(RegistrationError(old(repo.users), body).value)) && repo.users == old(repo.users)
      ensures MayRequestRole(body.role, caller) && RegistrationError(old(repo.users), body).None? ==>
        && r.status == 201 && r.body.Payload?
        && r.body.value.id !in old(repo.users)
        && repo.users == old(repo.users)[r.body.value.id := User(r.body.value.id, body.username.value, ToLower(body.email.value),
                                                                 hash(body.password.value), body.role.GetOr(Player), body.characterId,
                                                                 None, None, None, Some(DefaultSettings), now, now)]
        && r.body.value == ToUserPublic(repo.users[r.body.value.id])
    {
      if body.role == Some(Keeper) && !(caller.Some? && caller.value.role == Keeper) {
        r := Reply(403, ErrorJson(OnlyKeepersCreateKeepers));
      } else {
        var result := RegisterUser(repo, body, hash, now);
        if result.Failure? {
          r := Reply(400, ErrorJson(result.error));
        } else {
          r := Reply(201, Payload(result.value));
        }
      }
    }

    /** `login`: a failed login is a 401 with the use case's message; a successful
        one a 200 with the token and the public view. */
    method Login(body: LoginInput, compare: (string, string) -> bool, sign: Principal -> string) returns (r: Reply<Session>)
      requires repo.Valid()
      ensures var outcome := AuthUseCases.Login(repo.users, body, compare, sign);
        && (outcome.Failure? ==> r == Reply(401, ErrorJson(outcome.error)))
        && (outcome.Success? ==> r == Reply(200, Payload(outcome.value)))
      ensures r.status == 401 ==> r.body.error in {CredentialsRequired, InvalidCredentials}
    {
      var result := AuthUseCases.Login(repo.users, body, compare, sign);
      if result.Failure? {
        return Reply(401, ErrorJson(result.error));
      }
      r := Reply(200, Payload(result.value));
    }

    /** `me`: the signed-in caller's public view. */
    method Me(caller: Option<Principal>) returns (r: Reply<UserPublic>)
      ensures caller.None? ==> r == Reply(401, ErrorJson(NotAuthenticated))
      ensures caller.Some? && caller.value.userId == "" ==> r == Reply(404, ErrorJson(UserIdRequired))
      ensures caller.Some? && caller.value.userId != "" && caller.value.userId !in repo.users ==> r == Reply(404, ErrorJson(UserNotFound))
      ensures caller.Some? && caller.value.userId != "" && caller.value.userId in repo.users ==>
        r == Reply(200, Payload(ToUserPublic(repo.users[caller.value.userId])))
    {
      if caller.None? {
        return Reply(401, ErrorJson(NotAuthenticated));
      }
      var result := GetCurrentUser(repo.users, caller.value.userId);
      if result.Failure? {
        return Reply(404, ErrorJson(result.error));
      }
      r := Reply(200, Payload(result.value));
    }

    /** `getAllUsers`: every account once, each reduced to its summary. */
    method GetAllUsers() returns (r: Reply<seq<UserSummary>>)
      requires repo.Valid()
      ensures r.status == 200 && r.body.Payload?
      ensures exists users: seq<User> :: IsSelection(repo.users, UserId, Everyone, users) && r.body.value == Summaries(users)
      ensures forall s :: s in r.body.value ==> s.id in repo.users && s == SummaryOf(repo.users[s.id])
      ensures forall k :: k in repo.users ==> SummaryOf(repo.users[k]) in r.body.value
    {
      var users := repo.FindAll();
      var summaries := Summaries(users);
      forall s | s in summaries ensures s.id in repo.users && s == SummaryOf(repo.users[s.id]) {
        var i :| 0 <= i < |summaries| && summaries[i] == s;
        assert users[i] in users;
      }
      forall k | k in repo.users ensures SummaryOf(repo.users[k]) in summaries {
        var i :| 0 <= i < |users| && users[i] == repo.users[k];
        assert summaries[i] == SummaryOf(repo.users[k]);
      }
      r := Reply(200, Payload(summaries));
    }
  }
}
