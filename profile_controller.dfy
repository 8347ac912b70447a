/** The profile handlers: the caller's own profile, its update with length limits
    and a fixed whitelist of fields, and the public profile anyone may look up. */
module ProfileController {
  import opened Common
  import opened Users
  import opened Store
  import opened Http
  import opened Access
  import opened UserRepository

  const UserNotFound := "User not found"
  const DisplayNameTooLong := "Display name too long (max 100 characters)"
  const BioTooLong := "Bio too long (max 500 characters)"
  const MaxDisplayName := 100
  const MaxBio := 500

  /** The body of a profile update: the five keys the handler reads, each absent
      (`Keep`), null (`Clear`) or given (`SetTo`). */
  datatype ProfileRequest = ProfileRequest(
    displayName: Edit<string>,
    avatar: Edit<string>,
    bio: Edit<string>,
    characterId: Edit<Id>,
    settings: Edit<Settings>)

  /** The first length limit the request breaks, lengths counted in UTF-16 code
      units: the display name is checked before the biography. A null field
      breaks no limit. */
  function ProfileLimitError(body: ProfileRequest): (r: Option<string>)
    ensures r.None? <==> (!body.displayName.SetTo? || Utf16Length(body.displayName.value) <= MaxDisplayName)
                         && (!body.bio.SetTo? || Utf16Length(body.bio.value) <= MaxBio)
    ensures body.displayName.SetTo? && Utf16Length(body.displayName.value) > MaxDisplayName ==> r == Some(DisplayNameTooLong)
  {
    if body.displayName.SetTo? && Utf16Length(body.displayName.value) > MaxDisplayName then Some(DisplayNameTooLong)
    else if body.bio.SetTo? && Utf16Length(body.bio.value) > MaxBio then Some(BioTooLong)
    else None
  }

  /** What anyone may see of an account: no address, no hash, no settings. */
  function PublicProfileOf(u: User): (p: PublicProfile)
    ensures p.id == u.id && p.username == u.username && p.role == u.role
    ensures p.displayName == u.displayName && p.avatar == u.avatar && p.bio == u.bio
  {
    PublicProfile(u.id, u.username, u.displayName, u.avatar, u.bio, u.role)
  }

  /** The public profile does not depend on the address, the hash, the settings
      or the linked character. */
  lemma PublicProfileHidesPrivateFields(u: User, email: string, hash: string, settings: Option<Settings>, characterId: Option<Id>)
    ensures PublicProfileOf(u.(email := email, passwordHash := hash, settings := settings, characterId := characterId)) == PublicProfileOf(u)
  {
  }

  /** The handlers share one account collection. */
  class ProfileController {
    const repo: MongoUserRepository

    constructor(repo: MongoUserRepository)
      ensures this.repo == repo
    {
      this.repo := repo;
    }

    /** `getProfile`: the signed-in caller's public view. */
    method GetProfile(caller: Option<Principal>) returns (r: Reply<UserPublic>)
      ensures caller.None? ==> r == Reply(401, ErrorJson(NotAuthenticated))
      ensures caller.Some? && caller.value.userId !in repo.users ==> r == Reply(404, ErrorJson(UserNotFound))
      ensures caller.Some? && caller.value.userId in repo.users ==> r == Reply(200, Payload(ToUserPublic(repo.users[caller.value.userId])))
    {
      if caller.None? {
        return Reply(401, ErrorJson(NotAuthenticated));
      }
      var user := repo.FindById(caller.value.userId);
      if user.None? {
        return Reply(404, ErrorJson(UserNotFound));
      }
      r := Reply(200, Payload(ToUserPublic(user.value)));
    }

    /** `updateProfile`: the length limits first, in order; then exactly the five
        profile fields that were sent are set, and nothing else. */
    method UpdateProfile(caller: Option<Principal>, body: ProfileRequest, now: int) returns (r: Reply<UserPublic>)
      requires repo.Valid()
      modifies repo
      ensures repo.Valid()
      ensures caller.None? ==> r == Reply(401, ErrorJson(NotAuthenticated)) && repo.users == old(repo.users)
      ensures caller.Some? && ProfileLimitError(body).Some? ==>
        r == Reply(400, ErrorJson(ProfileLimitError(body).value)) && repo.users == old(repo.users)
      ensures caller.Some? && ProfileLimitError(body).None? && caller.value.userId !in old(repo.users) ==>
        r == Reply(404, ErrorJson(UserNotFound)) && repo.users == old(repo.users)
      ensures caller.Some? && ProfileLimitError(body).None? && caller.value.userId in old(repo.users) ==>
        var id := caller.value.userId;
        var updated := ApplyProfilePatch(old(repo.users)[id],
                         ProfilePatch(body.displayName, body.avatar, body.bio, body.characterId, body.settings), now);
        && repo.users == old(repo.users)[id := updated]
        && r == Reply(200, Payload(ToUserPublic(updated)))
    {
      if caller.None? {
        return Reply(401, ErrorJson(NotAuthenticated));
      }
      if body.displayName.SetTo? && body.displayName.value != "" && Utf16Length(body.displayName.value) > MaxDisplayName {
        return Reply(400, ErrorJson(DisplayNameTooLong));
      }
      if body.bio.SetTo? && body.bio.value != "" && Utf16Length(body.bio.value) > MaxBio {
        return Reply(400, ErrorJson(BioTooLong));
      }
      var updateData := ProfilePatch(Keep, Keep, Keep, Keep, Keep);
      if !body.displayName.Keep? { updateData := updateData.(displayName := body.displayName); }
      if !body.avatar.Keep? { updateData := updateData.(avatar := body.avatar); }
      if !body.bio.Keep? { updateData := updateData.(bio := body.bio); }
      if !body.characterId.Keep? { updateData := updateData.(characterId := body.characterId); }
      if !body.settings.Keep? { updateData := updateData.(settings := body.settings); }
      var user := repo.Update(caller.value.userId, updateData, now);
      if user.None? {
        return Reply(404, ErrorJson(UserNotFound));
      }
      r := Reply(200, Payload(ToUserPublic(user.value)));
    }

    /** `getPublicProfile`: the public profile of any account, signed in or not. */
    method GetPublicProfile(userId: Id) returns (r: Reply<PublicProfile>)
      ensures userId !in repo.users ==> r == Reply(404, ErrorJson(UserNotFound))
      ensures userId in repo.users ==> r == Reply(200, Payload(PublicProfileOf(repo.users[userId])))
    {
      var user := repo.FindById(userId);
      if user.None? {
        return Reply(404, ErrorJson(UserNotFound));
      }
      r := Reply(200, Payload(PublicProfileOf(user.value)));
    }
  }
}
