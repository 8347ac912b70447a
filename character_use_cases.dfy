/** The character use cases that turn an absent record into a not-found error. */
module CharacterUseCases {
  import opened Common
  import opened Characters
  import opened CharacterRepository

  const CharacterNotFound := NotFoundError("Character not found")

  /** `GetCharacterByIdUseCase.execute`: the stored character, never null. */
  method GetCharacterById(repo: MongoCharacterRepository, id: Id) returns (r: Result<Character>)
    ensures id !in repo.characters <==> r.Err?
    ensures r.Err? ==> r.error == CharacterNotFound && r.error.statusCode == 404
    ensures r.Ok? ==> r.value == repo.characters[id]
  {
    var character := repo.FindById(id);
    if character.None? {
      return Err(CharacterNotFound);
    }
    r := Ok(character.value);
  }

  /** `UpdateCharacterUseCase.execute`. */
  method UpdateCharacter(repo: MongoCharacterRepository, id: Id, patch: CharacterPatch, now: int) returns (r: Result<Character>)
    requires repo.Valid()
    modifies repo
    ensures repo.Valid()
    ensures id !in old(repo.characters) ==> r == Err(CharacterNotFound) && repo.characters == old(repo.characters)
    ensures id in old(repo.characters) ==>
      && r == Ok(ApplyCharacterPatch(old(repo.characters)[id], patch, now))
      && repo.characters == old(repo.characters)[id := r.value]
  {
    var updated := repo.Update(id, patch, now);
    if updated.None? {
      return Err(CharacterNotFound);
    }
    r := Ok(updated.value);
  }

  /** `DeleteCharacterUseCase.execute`: deleting a character a second time fails. */
  method DeleteCharacter(repo: MongoCharacterRepository, id: Id) returns (r: Result<()>)
    requires repo.Valid()
    modifies repo
    ensures repo.Valid()
    ensures r.Err? <==> id !in old(repo.characters)
    ensures r.Err? ==> r.error == CharacterNotFound
    ensures repo.characters == old(repo.characters) - {id} && id !in repo.characters
  {
    var deleted := repo.Delete(id);
    if !deleted {
      return Err(CharacterNotFound);
    }
    r := Ok(());
  }
}
