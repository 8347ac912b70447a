/** The user collection: a map from identifiers to accounts. E-mail addresses are
    stored lower-cased; e-mail addresses and usernames are unique (the collection's
    unique indexes). */
module UserRepository {
  import opened Common
  import opened Users
  import opened Ordering
  import opened Store

  /** The account data `create` receives from registration. */
  datatype NewUser = NewUser(username: string, email: string, passwordHash: string, role: Role, characterId: Option<Id>)

  /** The partial profile update `update` receives: each field is left out, set,
      or sent as null, which clears it. */
  datatype ProfilePatch = ProfilePatch(
    displayName: Edit<string>,
    avatar: Edit<string>,
    bio: Edit<string>,
    characterId: Edit<Id>,
    settings: Edit<Settings>)

  /** `findByIdAndUpdate(id, patch)`: supplied fields replace the stored ones, and
      null ones are cleared. */
  function ApplyProfilePatch(u: User, p: ProfilePatch, now: int): User {
    u.(displayName := Edited(p.displayName, u.displayName),
       avatar := Edited(p.avatar, u.avatar),
       bio := Edited(p.bio, u.bio),
       characterId := Edited(p.characterId, u.characterId),
       settings := Edited(p.settings, u.settings),
       updatedAt := now)
  }

  /** A profile update touches only the profile fields: the identifier, the
      credentials, the role and the creation time stay. A linked character is
      kept when left out, unlinked by null, and replaced by a value. */
  lemma ProfilePatchEdits(u: User, p: ProfilePatch, now: int)
    ensures var v := ApplyProfilePatch(u, p, now);
      v.id == u.id && v.username == u.username && v.email == u.email && v.passwordHash == u.passwordHash
      && v.role == u.role && v.createdAt == u.createdAt
    ensures p.characterId.Keep? ==> ApplyProfilePatch(u, p, now).characterId == u.characterId
    ensures p.characterId.Clear? ==> ApplyProfilePatch(u, p, now).characterId.None?
    ensures p.characterId.SetTo? ==> ApplyProfilePatch(u, p, now).characterId == Some(p.characterId.value)
  {
  }

  /** No two stored accounts share an e-mail address (a unique index). */
  ghost predicate UniqueEmails(users: map<Id, User>) {
    forall a, b :: a in users && b in users && users[a].email == users[b].email ==> a == b
  }

  /** The account stored with exactly this e-mail address, if there is one. */
  function UserWithEmail(users: map<Id, User>, email: string): (r: Option<User>)
    requires UniqueEmails(users)
    ensures r.Some? <==> exists k :: k in users && users[k].email == email
    ensures r.Some? ==> r.value.id in users && users[r.value.id] == r.value && r.value.email == email
    requires KeyedBy(users, UserId)
  {
    if exists k :: k in users && users[k].email == email then
      var k :| k in users && users[k].email == email;
      Some(users[k])
    else None
  }

  function Everyone(u: User): bool { true }

  function Anywhere(u: User): int { 0 }

  class MongoUserRepository {
    var users: map<Id, User>
    var nextId: nat

    ghost predicate Valid()
      reads this
    {
      && KeyedBy(users, UserId)
      && (forall k :: k in users ==> |k| <= nextId && IsLower(users[k].email))
      && UniqueEmails(users)
      && (forall a, b :: a in users && b in users && users[a].username == users[b].username ==> a == b)
    }

    constructor ()
      ensures Valid() && users == map[]
    {
      users := map[];
      nextId := 0;
    }

    /** `findById`: the account stored under `id`, or null. */
    method FindById(id: Id) returns (r: Option<User>)
      ensures r.Some? <==> id in users
      ensures r.Some? ==> r.value == users[id]
    {
      r := if id in users then Some(users[id]) else None;
    }

    /** `findByEmail`: looks the lower-cased address up, so the lookup ignores case. */
    method FindByEmail(email: string) returns (r: Option<User>)
      requires Valid()
      ensures r == UserWithEmail(users, ToLower(email))
    {
      r := UserWithEmail(users, ToLower(email));
    }

    /** `findByUsername`: exact, case-sensitive match. */
    method FindByUsername(username: string) returns (r: Option<User>)
      requires Valid()
      ensures r.Some? <==> exists k :: k in users && users[k].username == username
      ensures r.Some? ==> r.value.id in users && users[r.value.id] == r.value && r.value.username == username
    {
      if k :| k in users && users[k].username == username {
        r := Some(users[k]);
      } else {
        r := None;
      }
    }

    /** `findAll`: every account once, in no particular order. */
    method FindAll() returns (r: seq<User>)
      requires Valid()
      ensures IsSelection(users, UserId, Everyone, r)
    {
      r := Select(users, UserId, Everyone, Anywhere, Ascending);
    }

    /** `create`: stores the account under a fresh identifier, e-mail lower-cased. */
    method Create(data: NewUser, now: int) returns (u: User)
      requires Valid()
      requires forall k :: k in users ==> users[k].email != ToLower(data.email) && users[k].username != data.username
      modifies this
      ensures Valid()
      ensures u.id !in old(users) && users == old(users)[u.id := u]
      ensures u == User(u.id, data.username, ToLower(data.email), data.passwordHash, data.role, data.characterId,
                        None, None, None, Some(DefaultSettings), now, now)
    {
      ToLowerNormalises(data.email);
      var id := IdOf(nextId);
      u := User(id, data.username, ToLower(data.email), data.passwordHash, data.role, data.characterId,
                None, None, None, Some(DefaultSettings), now, now);
      users := users[id := u];
      nextId := nextId + 1;
    }

    /** `update`: null for an unknown id (nothing changes), else the patched account. */
    method Update(id: Id, patch: ProfilePatch, now: int) returns (r: Option<User>)
      requires Valid()
      modifies this
      ensures Valid()
      ensures id !in old(users) ==> r == None && users == old(users)
      ensures id in old(users) ==> r == Some(ApplyProfilePatch(old(users)[id], patch, now)) && users == old(users)[id := r.value]
    {
      if id in users {
        var u := ApplyProfilePatch(users[id], patch, now);
        users := users[id := u];
        r := Some(u);
      } else {
        r := None;
      }
    }

    /** `delete`: whether an account with that id existed; afterwards there is none. */
    method Delete(id: Id) returns (existed: bool)
      requires Valid()
      modifies this
      ensures Valid()
      ensures existed == (id in old(users))
      ensures users == old(users) - {id}
    {
      existed := id in users;
      users := users - {id};
    }
  }
}
