/** The investigator (player character) entity. Numbers are integers here. */
module Characters {
  import opened Common

  /** The eight characteristics, under the names the API uses. */
  datatype Stats = Stats(For: int, Con: int, Tam: int, Des: int, Apa: int, Edu: int, Int: int, Pod: int)

  datatype MentalHealth = MentalHealth(
    sanity: int,
    maxSanity: int,
    tempSanity: bool,
    indefiniteSanity: bool,
    phobias: seq<string>,
    manias: seq<string>)

  /** The sanity sub-document as the database schema declares it. Its two flags
      are named `temporaryInSanity` and `indefiniteInSanity`, not `tempSanity` and
      `indefiniteSanity` as in the entity and the request body, and default to
      false. A stored character carries this form. */
  datatype StoredMentalHealth = StoredMentalHealth(
    sanity: int,
    maxSanity: int,
    temporaryInSanity: bool,
    indefiniteInSanity: bool,
    phobias: seq<string>,
    manias: seq<string>)

  /** The four skill categories; 'pratical' is spelled as the API spells it. */
  datatype SkillCategory = Combat | Academic | Pratical | Social

  datatype Skill = Skill(name: string, value: int, category: SkillCategory)

  datatype EquipmentType = Weapon | Tool | Book | Artifact

  datatype Equipment = Equipment(name: string, description: string, equipmentType: EquipmentType)

  datatype Character = Character(
    id: Id,
    name: string,
    occupation: string,
    image: string,
    stats: Stats,
    background: string,
    mentalHealth: StoredMentalHealth,
    skills: seq<Skill>,
    equipment: seq<Equipment>,
    pulpTalents: seq<string>,
    wounds: int,
    maxHealth: int,
    createdAt: int,
    updatedAt: int)

  /** `Omit<Character, 'id' | 'createdAt' | 'updatedAt'>`: what create stores. */
  datatype CharacterData = CharacterData(
    name: string,
    occupation: string,
    image: string,
    stats: Stats,
    background: string,
    mentalHealth: MentalHealth,
    skills: seq<Skill>,
    equipment: seq<Equipment>,
    pulpTalents: seq<string>,
    wounds: int,
    maxHealth: int)

  /** The partial form of `CharacterData` that update receives. */
  datatype CharacterPatch = CharacterPatch(
    name: Option<string>,
    occupation: Option<string>,
    image: Option<string>,
    stats: Option<Stats>,
    background: Option<string>,
    mentalHealth: Option<MentalHealth>,
    skills: Option<seq<Skill>>,
    equipment: Option<seq<Equipment>>,
    pulpTalents: Option<seq<string>>,
    wounds: Option<int>,
    maxHealth: Option<int>)

  function CharacterId(c: Character): Id { c.id }
}
