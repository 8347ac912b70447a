/** The investigator collection. `findAll` applies no sort, so its order is unspecified. */
module CharacterRepository {
  import opened Common
  import opened Characters
  import opened Store

  /** Casting a sent sanity object to the schema in strict mode: the keys the
      schema does not declare, `tempSanity` and `indefiniteSanity`, are dropped,
      and the flags it does declare take their default, false. */
  function StoreMentalHealth(m: MentalHealth): (s: StoredMentalHealth)
    ensures s.sanity == m.sanity && s.maxSanity == m.maxSanity
    ensures s.phobias == m.phobias && s.manias == m.manias
    ensures !s.temporaryInSanity && !s.indefiniteInSanity
  {
    StoredMentalHealth(m.sanity, m.maxSanity, false, false, m.phobias, m.manias)
  }

  /** A stored sanity sub-document read under the entity's flag names. */
  function ReadMentalHealth(s: StoredMentalHealth): MentalHealth {
    MentalHealth(s.sanity, s.maxSanity, s.temporaryInSanity, s.indefiniteInSanity, s.phobias, s.manias)
  }

  /** The evident intent of the two namings: each entity flag persisted under the
      schema's name for it. */
  function StoreMentalHealthIntended(m: MentalHealth): StoredMentalHealth {
    StoredMentalHealth(m.sanity, m.maxSanity, m.tempSanity, m.indefiniteSanity, m.phobias, m.manias)
  }

  /** As written, the flags a client sends never reach the store: a sanity object
      is stored as if both its flags were lowered, so a raised flag is not read
      back. */
  lemma {:induction false} SentSanityFlagsLost(m: MentalHealth)
    ensures StoreMentalHealth(m) == StoreMentalHealth(m.(tempSanity := false, indefiniteSanity := false))
    ensures m.tempSanity || m.indefiniteSanity ==> ReadMentalHealth(StoreMentalHealth(m)) != m
  {
  }

  /** With the names matched, storing and reading back are inverse: what the
      client sends is what it gets back, and every stored form is reachable. */
  lemma {:induction false} IntendedSanityRoundTrip(m: MentalHealth, s: StoredMentalHealth)
    ensures ReadMentalHealth(StoreMentalHealthIntended(m)) == m
    ensures StoreMentalHealthIntended(ReadMentalHealth(s)) == s
  {
  }

  /** The character `create` stores: the given data, its sanity object cast to the
      schema. */
  function NewCharacter(id: Id, data: CharacterData, now: int): Character {
    Character(id, data.name, data.occupation, data.image, data.stats, data.background, StoreMentalHealth(data.mentalHealth),
              data.skills, data.equipment, data.pulpTalents, data.wounds, data.maxHealth, now, now)
  }

  /** `findByIdAndUpdate(id, { $set: patch })`: supplied fields replace the stored
      ones; a supplied sanity object is cast to the schema as on create. */
  function ApplyCharacterPatch(c: Character, p: CharacterPatch, now: int): Character {
    c.(name := p.name.GetOr(c.name),
       occupation := p.occupation.GetOr(c.occupation),
       image := p.image.GetOr(c.image),
       stats := p.stats.GetOr(c.stats),
       background := p.background.GetOr(c.background),
       mentalHealth := if p.mentalHealth.Some? then StoreMentalHealth(p.mentalHealth.value) else c.mentalHealth,
       skills := p.skills.GetOr(c.skills),
       equipment := p.equipment.GetOr(c.equipment),
       pulpTalents := p.pulpTalents.GetOr(c.pulpTalents),
       wounds := p.wounds.GetOr(c.wounds),
       maxHealth := p.maxHealth.GetOr(c.maxHealth),
       updatedAt := now)
  }

  /** The patch that supplies no field. */
  const NoCharacterChanges := CharacterPatch(None, None, None, None, None, None, None, None, None, None, None)

  /** Filter `{}`. */
  function AnyCharacter(c: Character): bool { true }

  /** A `$set` with no fields only touches the update time. */
  lemma EmptyCharacterPatch(c: Character, now: int)
    ensures ApplyCharacterPatch(c, NoCharacterChanges, now) == c.(updatedAt := now)
  {
  }

  /** Repeating an update changes nothing more. */
  lemma CharacterPatchIdempotent(c: Character, p: CharacterPatch, now: int)
    ensures ApplyCharacterPatch(ApplyCharacterPatch(c, p, now), p, now) == ApplyCharacterPatch(c, p, now)
  {
  }

  /** An update never moves a character to another identifier or creation time. */
  lemma CharacterPatchKeepsIdentity(c: Character, p: CharacterPatch, now: int)
    ensures ApplyCharacterPatch(c, p, now).id == c.id
    ensures ApplyCharacterPatch(c, p, now).createdAt == c.createdAt
  {
  }

  class MongoCharacterRepository {
    var characters: map<Id, Character>
    var nextId: nat

    ghost predicate Valid()
      reads this
    {
      KeyedBy(characters, CharacterId) && forall k :: k in characters ==> |k| <= nextId
    }

    constructor ()
      ensures Valid() && characters == map[]
    {
      characters := map[];
      nextId := 0;
    }

    /** `findAll`: every character exactly once. */
    method FindAll() returns (r: seq<Character>)
      requires Valid()
      ensures IsSelection(characters, CharacterId, AnyCharacter, r)
    {
      r := [];
      var todo := characters.Keys;
      while todo != {}
        invariant todo <= characters.Keys
        invariant forall c :: c in r ==> c.id in characters && c.id !in todo && characters[c.id] == c
        invariant forall k :: k in characters && k !in todo ==> characters[k] in r
        invariant forall c :: multiset(r)[c] <= 1
        decreases |todo|
      {
        var k :| k in todo;
        assert characters[k] !in r;
        r := r + [characters[k]];
        todo := todo - {k};
      }
    }

    /** `findById`: the character stored under `id`, or null. */
    method FindById(id: Id) returns (r: Option<Character>)
      ensures r.Some? <==> id in characters
      ensures r.Some? ==> r.value == characters[id]
    {
      r := if id in characters then Some(characters[id]) else None;
    }

    /** `create`: stores `NewCharacter` under a fresh identifier. */
    method Create(data: CharacterData, now: int) returns (c: Character)
      requires Valid()
      modifies this
      ensures Valid()
      ensures c.id !in old(characters) && c == NewCharacter(c.id, data, now)
      ensures characters == old(characters)[c.id := c]
    {
      c := NewCharacter(IdOf(nextId), data, now);
      characters := characters[c.id := c];
      nextId := nextId + 1;
    }

    /** `update`: null for an unknown id (nothing changes), else the patched character. */
    method Update(id: Id, patch: CharacterPatch, now: int) returns (r: Option<Character>)
      requires Valid()
      modifies this
      ensures Valid()
      ensures id !in old(characters) ==> r == None && characters == old(characters)
      ensures id in old(characters) ==> r == Some(ApplyCharacterPatch(old(characters)[id], patch, now)) && characters == old(characters)[id := r.value]
    {
      if id in characters {
        var c := ApplyCharacterPatch(characters[id], patch, now);
        characters := characters[id := c];
        r := Some(c);
      } else {
        r := None;
      }
    }

    /** `delete`: whether a character with that id existed; afterwards there is none. */
    method Delete(id: Id) returns (existed: bool)
      requires Valid()
      modifies this
      ensures Valid()
      ensures existed == (id in old(characters))
      ensures characters == old(characters) - {id}
    {
      existed := id in characters;
      characters := characters - {id};
    }
  }
}
