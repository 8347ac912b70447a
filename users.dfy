/** The user account entity, its public view and the two smaller projections the
    controllers send out. */
module Users {
  import opened Common

  datatype Theme = Dark | Light

  datatype Settings = Settings(emailNotifications: bool, theme: Theme)

  /** The settings every new account is stored with: the schema's default empty
      object, filled in by the sub-schema's own defaults (notifications on, dark
      theme). */
  const DefaultSettings := Settings(true, Dark)

  /** A stored account. `passwordHash` is the only credential kept. */
  datatype User = User(
    id: Id,
    username: string,
    email: string,
    passwordHash: string,
    role: Role,
    characterId: Option<Id>,
    displayName: Option<string>,
    avatar: Option<string>,
    bio: Option<string>,
    settings: Option<Settings>,
    createdAt: int,
    updatedAt: int)

  /** What the API returns for an account: there is no field for the password
      hash or the timestamps, so no public view can carry them. */
  datatype UserPublic = UserPublic(
    id: Id,
    username: string,
    email: string,
    role: Role,
    characterId: Option<Id>,
    displayName: Option<string>,
    avatar: Option<string>,
    bio: Option<string>,
    settings: Option<Settings>)

  function UserId(u: User): Id { u.id }

  /** One entry of the keeper's user list. */
  datatype UserSummary = UserSummary(id: Id, username: string, email: string, role: Role, characterId: Option<Id>)

  /** The profile anyone may look up: no email, no hash. */
  datatype PublicProfile = PublicProfile(
    id: Id,
    username: string,
    displayName: Option<string>,
    avatar: Option<string>,
    bio: Option<string>,
    role: Role)

  /** `toUserPublic`: the account without its credential and timestamps. */
  function ToUserPublic(u: User): UserPublic {
    UserPublic(u.id, u.username, u.email, u.role, u.characterId, u.displayName, u.avatar, u.bio, u.settings)
  }

  /** Two accounts that differ only in hash and timestamps. */
  predicate SameProfile(u: User, v: User) {
    u.(passwordHash := v.passwordHash, createdAt := v.createdAt, updatedAt := v.updatedAt) == v
  }

  /** The public view does not depend on the password hash or the timestamps:
      changing them never changes what is sent out. */
  lemma PublicViewHidesCredentials(u: User, hash: string, created: int, updated: int)
    ensures ToUserPublic(u.(passwordHash := hash, createdAt := created, updatedAt := updated)) == ToUserPublic(u)
  {
  }

  /** Every other field is copied unchanged, absent optional fields included:
      two accounts have the same public view exactly when they agree on everything
      but the hash and the timestamps. */
  lemma PublicViewDeterminesProfile(u: User, v: User)
    ensures ToUserPublic(u) == ToUserPublic(v) <==> SameProfile(u, v)
  {
  }
}
