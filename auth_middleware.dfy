/** The authentication middleware: reading a bearer token from the `Authorization`
    header, attaching the verified claims to the request, and the role gate that
    runs after it. Token verification itself is a parameter (`verify`): it yields
    the claims of a valid, unexpired token and nothing otherwise. */
module AuthMiddleware {
  import opened Common
  import opened Http

  const BearerPrefix := "Bearer "

  /** The token of a header of the form `Bearer <token>`, or nothing when the
      header is missing or has another form. */
  function BearerToken(header: Option<string>): (t: Option<string>)
    ensures t.Some? <==> header.Some? && |header.value| >= |BearerPrefix| && header.value[..|BearerPrefix|] == BearerPrefix
    ensures t.Some? ==> BearerPrefix + t.value == header.value
  {
    if header.Some? && |header.value| >= |BearerPrefix| && header.value[..|BearerPrefix|] == BearerPrefix
    then Some(header.value[|BearerPrefix|..])
    else None
  }

  /** Building a bearer header and reading it back gives the token, whatever it is. */
  lemma BearerRoundTrip(token: string)
    ensures BearerToken(Some(BearerPrefix + token)) == Some(token)
  {
    assert (BearerPrefix + token)[..|BearerPrefix|] == BearerPrefix;
    assert (BearerPrefix + token)[|BearerPrefix|..] == token;
  }

  /** The prefix is case-sensitive and must include the space. */
  lemma BearerPrefixIsExact(token: string)
    ensures BearerToken(Some("bearer " + token)) == None
    ensures BearerToken(Some("Bearer" + token)).Some? ==> |token| > 0 && token[0] == ' '
    ensures BearerToken(None) == None && BearerToken(Some("")) == None
  {
    assert ("bearer " + token)[0] == 'b';
    if BearerToken(Some("Bearer" + token)).Some? {
      assert ("Bearer" + token)[6] == ' ';
    }
  }

  /** What a middleware does with a request: hand it on, with the claims it
      established if any, or answer it and stop. */
  datatype Step = Next(claims: Option<Principal>) | Halt(reply: Reply<()>)

  const NoTokenProvided: Reply<()> := Reply(401, ErrorJson("No token provided"))
  const InvalidToken: Reply<()> := Reply(401, ErrorJson("Invalid or expired token"))
  const AuthenticationRequired: Reply<()> := Reply(401, ErrorJson("Authentication required"))
  const InsufficientPermissions: Reply<()> := Reply(403, ErrorJson("Insufficient permissions"))

  /** `authenticate`: a request passes exactly when its header carries a bearer
      token that verifies, and then carries the token's claims. */
  function AuthenticateStep(header: Option<string>, verify: string -> Option<Principal>): (s: Step)
    ensures s.Next? <==> BearerToken(header).Some? && verify(BearerToken(header).value).Some?
    ensures s.Next? ==> s.claims == verify(BearerToken(header).value)
    ensures BearerToken(header).None? ==> s == Halt(NoTokenProvided)
    ensures BearerToken(header).Some? && verify(BearerToken(header).value).None? ==> s == Halt(InvalidToken)
  {
    match BearerToken(header)
    case None => Halt(NoTokenProvided)
    case Some(token) =>
      match verify(token)
      case None => Halt(InvalidToken)
      case Some(p) => Next(Some(p))
  }

  /** `requireRole(...roles)`: an unauthenticated request is refused with 401, one
      whose role is not listed with 403; any other is handed on unchanged. */
  function RoleStep(user: Option<Principal>, roles: seq<Role>): (s: Step)
    ensures s.Next? <==> user.Some? && user.value.role in roles
    ensures s.Next? ==> s.claims == user
    ensures user.None? ==> s == Halt(AuthenticationRequired)
    ensures user.Some? && user.value.role !in roles ==> s == Halt(InsufficientPermissions)
  {
    if user.None? then Halt(AuthenticationRequired)
    else if user.value.role !in roles then Halt(InsufficientPermissions)
    else Next(user)
  }

  /** `requireKeeper`. */
  const KeeperOnly := [Keeper]

  /** The keeper gate admits exactly keepers; a player is refused with 403. */
  lemma RequireKeeperAdmitsKeepers(p: Principal)
    ensures RoleStep(Some(p), KeeperOnly).Next? <==> p.role == Keeper
    ensures p.role == Player ==> RoleStep(Some(p), KeeperOnly) == Halt(InsufficientPermissions)
  {
  }

  /** Authentication followed by the keeper gate lets a request through exactly
      when its token verifies to a keeper's claims. */
  lemma {:induction false} KeeperRouteGate(header: Option<string>, verify: string -> Option<Principal>)
    ensures var a := AuthenticateStep(header, verify);
      (a.Next? && RoleStep(a.claims, KeeperOnly).Next?) <==>
        BearerToken(header).Some? && verify(BearerToken(header).value).Some? && verify(BearerToken(header).value).value.role == Keeper
  {
  }

  /** The state of one request as the middleware chain sees it: the header it came
      with, the claims attached so far, the reply sent if any, and how many times
      the chain was continued. */
  class Exchange {
    const authorization: Option<string>
    var user: Option<Principal>
    var reply: Option<Reply<()>>
    var nextCalls: nat

    constructor(authorization: Option<string>)
      ensures this.authorization == authorization
      ensures user == None && reply == None && nextCalls == 0
    {
      this.authorization := authorization;
      user := None;
      reply := None;
      nextCalls := 0;
    }

    /** `authenticate(req, res, next)`: on success sets `req.user` and calls `next`
        once; otherwise sends the 401 and leaves `req.user` and `next` alone. */
    method Authenticate(verify: string -> Option<Principal>)
      modifies this
      ensures match AuthenticateStep(authorization, verify)
        case Next(claims) => user == claims && reply == old(reply) && nextCalls == old(nextCalls) + 1
        case Halt(r) => user == old(user) && reply == Some(r) && nextCalls == old(nextCalls)
    {
      var token := BearerToken(authorization);
      if token.None? {
        reply := Some(NoTokenProvided);
        return;
      }
      var payload := verify(token.value);
      if payload.None? {
        reply := Some(InvalidToken);
        return;
      }
      user := payload;
      nextCalls := nextCalls + 1;
    }

    /** `requireRole(...roles)(req, res, next)`. */
    method RequireRole(roles: seq<Role>)
      modifies this
      ensures user == old(user)
      ensures match RoleStep(old(user), roles)
        case Next(_) => reply == old(reply) && nextCalls == old(nextCalls) + 1
        case Halt(r) => reply == Some(r) && nextCalls == old(nextCalls)
    {
      if user.None? {
        reply := Some(AuthenticationRequired);
        return;
      }
      if user.value.role !in roles {
        reply := Some(InsufficientPermissions);
        return;
      }
      nextCalls := nextCalls + 1;
    }
  }
}
