/** The character handlers: the validated create and update, and reads and deletes
    whose application errors become their own status and message. */
module CharacterController {
  import opened Common
  import opened Joi
  import opened Store
  import opened Http
  import opened Characters
  import opened CharacterRepository
  import opened CharacterValidator
  import opened CharacterUseCases

  /** `{ characters }`: the list is sent wrapped in an object. */
  datatype CharacterList = CharacterList(characters: seq<Character>)

  class CharacterController {
    const repo: MongoCharacterRepository

    constructor(repo: MongoCharacterRepository)
      ensures this.repo == repo
    {
      this.repo := repo;
    }

    /** `getAllCharacters`: every character once, inside the wrapper object. */
    method GetAllCharacters() returns (r: Reply<CharacterList>)
      requires repo.Valid()
      ensures r.status == 200 && r.body.Payload?
      ensures IsSelection(repo.characters, CharacterId, AnyCharacter, r.body.value.characters)
    {
      var characters := repo.FindAll();
      r := Reply(200, Payload(CharacterList(characters)));
    }

    /** `getCharacterById`: the character, or 404 with the not-found message. */
    method GetCharacterById(id: Id) returns (r: Reply<Character>)
      ensures id in repo.characters ==> r == Reply(200, Payload(repo.characters[id]))
      ensures id !in repo.characters ==> r == Reply(404, MessageJson("Character not found"))
    {
      var character := CharacterUseCases.GetCharacterById(repo, id);
      if character.Err? {
        return Reply(character.error.statusCode, MessageJson(character.error.message));
      }
      r := Reply(200, Payload(character.value));
    }

    /** `createCharacter`: a refused body is answered 400 and nothing is stored;
        otherwise the filled body is stored under a fresh identifier. */
    method CreateCharacter(body: Json, now: int) returns (r: Reply<Character>)
      requires repo.Valid()
      modifies repo
      ensures repo.Valid()
      ensures !Conforms(CreateCharacterSchema(), body) ==>
        r == Reply(400, Invalid(Violations(CreateCharacterSchema(), body))) && repo.characters == old(repo.characters)
      ensures Conforms(CreateCharacterSchema(), body) ==>
        && r.status == 201 && r.body.Payload?
        && var c := r.body.value;
        && c.id !in old(repo.characters)
        && c == NewCharacter(c.id, CharacterDataOf(Fill(CreateCharacterSchema(), body)), now)
        && repo.characters == old(repo.characters)[c.id := c]
    {
      var validation := ValidateCreateCharacter(body);
      if validation.Refused? {
        return Reply(400, Invalid(validation.violations));
      }
      var character := repo.Create(CharacterDataOf(validation.value), now);
      r := Reply(201, Payload(character));
    }

    /** `updateCharacter`: a refused body is answered 400, an unknown id 404, and
        in both cases nothing changes; otherwise the keys sent are set. */
    method UpdateCharacter(id: Id, body: Json, now: int) returns (r: Reply<Character>)
      requires repo.Valid()
      modifies repo
      ensures repo.Valid()
      ensures !Conforms(UpdateCharacterSchema(), body) ==>
        r == Reply(400, Invalid(Violations(UpdateCharacterSchema(), body))) && repo.characters == old(repo.characters)
      ensures Conforms(UpdateCharacterSchema(), body) && id !in old(repo.characters) ==>
        r == Reply(404, MessageJson("Character not found")) && repo.characters == old(repo.characters)
      ensures Conforms(UpdateCharacterSchema(), body) && id in old(repo.characters) ==>
        var updated := ApplyCharacterPatch(old(repo.characters)[id], CharacterPatchOf(Fill(UpdateCharacterSchema(), body)), now);
        && r == Reply(200, Payload(updated))
        && repo.characters == old(repo.characters)[id := updated]
    {
      var validation := ValidateUpdateCharacter(body);
      if validation.Refused? {
        return Reply(400, Invalid(validation.violations));
      }
      var character := CharacterUseCases.UpdateCharacter(repo, id, CharacterPatchOf(validation.value), now);
      if character.Err? {
        return Reply(character.error.statusCode, MessageJson(character.error.message));
      }
      r := Reply(200, Payload(character.value));
    }

    /** `deleteCharacter`: 204 when the character existed, 404 otherwise; it is
        gone either way. */
    method DeleteCharacter(id: Id) returns (r: Reply<()>)
      requires repo.Valid()
      modifies repo
      ensures repo.Valid()
      ensures id in old(repo.characters) ==> r == Reply(204, NoContent)
      ensures id !in old(repo.characters) ==> r == Reply(404, MessageJson("Character not found"))
      ensures repo.characters == old(repo.characters) - {id}
    {
      var deleted := CharacterUseCases.DeleteCharacter(repo, id);
      if deleted.Err? {
        return Reply(deleted.error.statusCode, MessageJson(deleted.error.message));
      }
      r := Reply(204, NoContent);
    }
  }
}
