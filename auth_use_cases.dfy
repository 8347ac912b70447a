/** Registration, login and the current-user lookup. Password hashing, password
    comparison and token signing are parameters: `hash` and `compare` stand for the
    password service, `sign` for the token service. */
module AuthUseCases {
  import opened Common
  import opened Users
  import opened Store
  import opened UserRepository

  /** What the three use cases return: `{ success: true, ... }` or
      `{ success: false, error }`. */
  datatype Outcome<+T> = Success(value: T) | Failure(error: string)

  /** The registration request; any field may be missing. */
  datatype RegisterInput = RegisterInput(
    username: Option<string>,
    email: Option<string>,
    password: Option<string>,
    role: Option<Role>,
    characterId: Option<Id>)

  const UsernameTooShort := "Username must be at least 3 characters"
  const InvalidEmail := "Invalid email address"
  const PasswordTooShort := "Password must be at least 6 characters"
  const EmailRegistered := "Email already registered"
  const UsernameTaken := "Username already taken"

  /** A username of at least three characters, counted in UTF-16 code units. */
  predicate UsernameOk(username: Option<string>) {
    username.Some? && Utf16Length(username.value) >= 3
  }

  /** The check counts code units, not characters: any three characters pass,
      and so do two when the second lies beyond the Basic Multilingual Plane. */
  lemma {:induction false} UsernameCountsCodeUnits(u: string)
    ensures |u| >= 3 ==> UsernameOk(Some(u))
    ensures |u| == 2 && u[1] as int >= 0x1_0000 ==> UsernameOk(Some(u))
  {
  }

  /** An address containing an `@`. */
  predicate EmailOk(email: Option<string>) {
    email.Some? && '@' in email.value
  }

  /** A password of at least six characters, counted in UTF-16 code units. */
  predicate PasswordOk(password: Option<string>) {
    password.Some? && Utf16Length(password.value) >= 6
  }

  /** Some account already has this address, compared case-insensitively. */
  predicate EmailInUse(users: map<Id, User>, email: string) {
    exists k :: k in users && users[k].email == ToLower(email)
  }

  /** Some account already has exactly this username. */
  predicate UsernameInUse(users: map<Id, User>, username: string) {
    exists k :: k in users && users[k].username == username
  }

  /** The first failing registration check, in the order the use case runs them:
      username, e-mail, password, e-mail in use, username in use. */
  function RegistrationError(users: map<Id, User>, input: RegisterInput): (r: Option<string>)
    ensures r.None? <==>
      && UsernameOk(input.username) && EmailOk(input.email) && PasswordOk(input.password)
      && !EmailInUse(users, input.email.value) && !UsernameInUse(users, input.username.value)
    ensures r.Some? ==> r.value in {UsernameTooShort, InvalidEmail, PasswordTooShort, EmailRegistered, UsernameTaken}
  {
    if !UsernameOk(input.username) then Some(UsernameTooShort)
    else if !EmailOk(input.email) then Some(InvalidEmail)
    else if !PasswordOk(input.password) then Some(PasswordTooShort)
    else if EmailInUse(users, input.email.value) then Some(EmailRegistered)
    else if UsernameInUse(users, input.username.value) then Some(UsernameTaken)
    else None
  }

  /** The first failure is the one reported: a short username is reported whatever
      the other fields and the store hold, a bad address whatever the password and
      the store hold, and a short password whatever the store holds. */
  lemma {:induction false} FirstFailureReported(users: map<Id, User>, other: map<Id, User>, input: RegisterInput, email: Option<string>, password: Option<string>)
    ensures !UsernameOk(input.username) ==>
      RegistrationError(other, input.(email := email, password := password)) == Some(UsernameTooShort)
    ensures UsernameOk(input.username) && !EmailOk(input.email) ==>
      RegistrationError(other, input.(password := password)) == Some(InvalidEmail)
    ensures UsernameOk(input.username) && EmailOk(input.email) && !PasswordOk(input.password) ==>
      RegistrationError(other, input) == RegistrationError(users, input) == Some(PasswordTooShort)
  {
  }

  /** An address already registered in any letter case is refused, before the
      username is looked at. */
  lemma {:induction false} RegisteredEmailRefused(users: map<Id, User>, input: RegisterInput, k: Id)
    requires UsernameOk(input.username) && EmailOk(input.email) && PasswordOk(input.password)
    requires k in users && users[k].email == ToLower(input.email.value)
    ensures RegistrationError(users, input) == Some(EmailRegistered)
  {
  }

  /** `RegisterUser.execute`: on failure the store is untouched and the first failed
      check is reported; on success exactly one account is added, with the hashed
      password, the lower-cased address and the requested role (player by default),
      and its public view is returned. */
  method RegisterUser(repo: MongoUserRepository, input: RegisterInput, hash: string -> string, now: int)
    returns (r: Outcome<UserPublic>)
    requires repo.Valid()
    modifies repo
    ensures repo.Valid()
    ensures r.Failure? <==> RegistrationError(old(repo.users), input).Some?
    ensures r.Failure? ==> r.error == RegistrationError(old(repo.users), input).value && repo.users == old(repo.users)
    ensures r.Success? ==>
      && r.value.id !in old(repo.users)
      && repo.users == old(repo.users)[r.value.id := User(r.value.id, input.username.value, ToLower(input.email.value),
                                                         hash(input.password.value), input.role.GetOr(Player), input.characterId,
                                                         None, None, None, Some(DefaultSettings), now, now)]
      && r.value == ToUserPublic(repo.users[r.value.id])
    ensures r.Success? ==> repo.users.Keys == old(repo.users).Keys + {r.value.id}
  {
    var error := CheckRegistration(repo, input);
    if error.Some? {
      return Failure(error.value);
    }
    r := AddAccount(repo, input, hash, now);
  }

  /** The creating half of `RegisterUser.execute`, once every check has passed. */
  method AddAccount(repo: MongoUserRepository, input: RegisterInput, hash: string -> string, now: int)
    returns (r: Outcome<UserPublic>)
    requires repo.Valid() && RegistrationError(repo.users, input).None?
    modifies repo
    ensures repo.Valid() && r.Success?
    ensures r.value.id !in old(repo.users)
    ensures repo.users == old(repo.users)[r.value.id := User(r.value.id, input.username.value, ToLower(input.email.value),
                                                             hash(input.password.value), input.role.GetOr(Player), input.characterId,
                                                             None, None, None, Some(DefaultSettings), now, now)]
    ensures r.value == ToUserPublic(repo.users[r.value.id])
  {
    var passwordHash := hash(input.password.value);
    var data := NewUser(input.username.value, input.email.value, passwordHash, input.role.GetOr(Player), input.characterId);
    assert !EmailInUse(repo.users, data.email) && !UsernameInUse(repo.users, data.username);
    var user := repo.Create(data, now);
    r := Success(ToUserPublic(user));
  }

  /** The checks of `RegisterUser.execute` before anything is created: three
      checks of the request, then a lookup by address and one by username. */
  method CheckRegistration(repo: MongoUserRepository, input: RegisterInput) returns (error: Option<string>)
    requires repo.Valid()
    ensures error == RegistrationError(repo.users, input)
  {
    if !UsernameOk(input.username) {
      return Some(UsernameTooShort);
    }
    if !EmailOk(input.email) {
      return Some(InvalidEmail);
    }
    if !PasswordOk(input.password) {
      return Some(PasswordTooShort);
    }
    var existingEmail := repo.FindByEmail(input.email.value);
    if existingEmail.Some? {
      assert EmailInUse(repo.users, input.email.value);
      return Some(EmailRegistered);
    }
    var existingUsername := repo.FindByUsername(input.username.value);
    if existingUsername.Some? {
      return Some(UsernameTaken);
    }
    error := None;
  }

  /** The login request. */
  datatype LoginInput = LoginInput(email: Option<string>, password: Option<string>)

  /** A successful login: the signed token and the account's public view. */
  datatype Session = Session(token: string, user: UserPublic)

  const CredentialsRequired := "Email and password are required"
  const InvalidCredentials := "Invalid credentials"

  /** The claims a login token is signed over. */
  function ClaimsOf(u: User): (p: Principal)
    ensures p.userId == u.id && p.email == u.email && p.role == u.role
  {
    Principal(u.id, u.email, u.role)
  }

  /** `LoginUser.execute`, a read of the store: both fields are required; then the
      address must belong to an account whose hash matches the password. */
  function Login(users: map<Id, User>, input: LoginInput, compare: (string, string) -> bool, sign: Principal -> string): (r: Outcome<Session>)
    requires KeyedBy(users, UserId) && UniqueEmails(users)
    ensures !Truthy(input.email) || !Truthy(input.password) ==> r == Failure(CredentialsRequired)
    ensures Truthy(input.email) && Truthy(input.password) ==>
      match UserWithEmail(users, ToLower(input.email.value))
      case None => r == Failure(InvalidCredentials)
      case Some(u) =>
        if compare(input.password.value, u.passwordHash) then r == Success(Session(sign(ClaimsOf(u)), ToUserPublic(u)))
        else r == Failure(InvalidCredentials)
  {
    if !Truthy(input.email) || !Truthy(input.password) then Failure(CredentialsRequired)
    else
      match UserWithEmail(users, ToLower(input.email.value))
      case None => Failure(InvalidCredentials)
      case Some(u) =>
        if !compare(input.password.value, u.passwordHash) then Failure(InvalidCredentials)
        else Success(Session(sign(ClaimsOf(u)), ToUserPublic(u)))
  }

  /** An unknown address and a wrong password get the same answer, so a failed
      login does not tell whether the address is registered. */
  lemma {:induction false} LoginFailureIsUniform(users: map<Id, User>, input: LoginInput, compare: (string, string) -> bool, sign: Principal -> string)
    requires KeyedBy(users, UserId) && UniqueEmails(users)
    requires Truthy(input.email) && Truthy(input.password)
    ensures Login(users, input, compare, sign).Failure? ==> Login(users, input, compare, sign) == Failure(InvalidCredentials)
    ensures !EmailInUse(users, input.email.value) ==> Login(users, input, compare, sign) == Failure(InvalidCredentials)
  {
  }

  /** A successful login's token carries the stored account's id, address and role,
      and the reply carries its public view. */
  lemma {:induction false} LoginTokenClaims(users: map<Id, User>, input: LoginInput, compare: (string, string) -> bool, sign: Principal -> string)
    requires KeyedBy(users, UserId) && UniqueEmails(users)
    ensures var r := Login(users, input, compare, sign);
      r.Success? ==> exists k :: k in users && users[k].email == ToLower(input.email.value)
                       && r.value.token == sign(Principal(k, users[k].email, users[k].role))
                       && r.value.user == ToUserPublic(users[k])
  {
    var r := Login(users, input, compare, sign);
    if r.Success? {
      var u := UserWithEmail(users, ToLower(input.email.value)).value;
      assert u.id in users && users[u.id] == u;
    }
  }

  /** Logging in with the password an account was registered with succeeds, with
      the address typed in any letter case, provided the password service accepts a
      password against its own hash. */
  lemma {:induction false} RegisteredUserCanLogIn(users: map<Id, User>, u: User, email: string, password: string,
                                                  hash: string -> string, compare: (string, string) -> bool, sign: Principal -> string)
    requires KeyedBy(users, UserId) && UniqueEmails(users)
    requires u.id in users && users[u.id] == u
    requires u.email == ToLower(email) && u.passwordHash == hash(password)
    requires email != "" && password != ""
    requires forall p :: compare(p, hash(p))
    ensures Login(users, LoginInput(Some(email), Some(password)), compare, sign) == Success(Session(sign(ClaimsOf(u)), ToUserPublic(u)))
  {
    var found := UserWithEmail(users, ToLower(email));
    assert found.Some?;
    assert found.value == u;
  }

  const UserIdRequired := "User ID is required"
  const UserNotFound := "User not found"

  /** `GetCurrentUser.execute`, a read of the store. */
  function GetCurrentUser(users: map<Id, User>, userId: Id): (r: Outcome<UserPublic>)
    ensures userId == "" ==> r == Failure(UserIdRequired)
    ensures userId != "" && userId !in users ==> r == Failure(UserNotFound)
    ensures userId != "" && userId in users ==> r == Success(ToUserPublic(users[userId]))
  {
    if userId == "" then Failure(UserIdRequired)
    else if userId !in users then Failure(UserNotFound)
    else Success(ToUserPublic(users[userId]))
  }

  /** The account a stored user's token names is found again by its id. */
  lemma {:induction false} CurrentUserOfOwnClaims(users: map<Id, User>, k: Id)
    requires KeyedBy(users, UserId) && k in users && k != ""
    ensures GetCurrentUser(users, ClaimsOf(users[k]).userId) == Success(ToUserPublic(users[k]))
  {
  }
}
