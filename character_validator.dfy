/** The request-body schemas for investigators, and how an accepted body becomes the
    data the character store receives. */
module CharacterValidator {
  import opened Common
  import opened Joi
  import opened Characters
  import opened CharacterRepository

  /** The eight characteristics, each a required number. */
  function StatsSchema(): Schema {
    Obj([
      Field("For", Num, Required),
      Field("Con", Num, Required),
      Field("Tam", Num, Required),
      Field("Des", Num, Required),
      Field("Apa", Num, Required),
      Field("Edu", Num, Required),
      Field("Int", Num, Required),
      Field("Pod", Num, Required)])
  }

  /** Sanity: two required numbers; the two flags default to false and the two
      lists to []. */
  function MentalHealthSchema(): Schema {
    Obj([
      Field("sanity", Num, Required),
      Field("maxSanity", Num, Required),
      Field("tempSanity", Bool, Default(JBool(false))),
      Field("indefiniteSanity", Bool, Default(JBool(false))),
      Field("phobias", Arr(Str(false)), Default(JArr([]))),
      Field("manias", Arr(Str(false)), Default(JArr([])))])
  }

  const SkillCategories := ["combat", "academic", "pratical", "social"]

  const EquipmentTypes := ["weapon", "tool", "book", "artifact"]

  function SkillSchema(): Schema {
    Obj([
      Field("name", Str(false), Required),
      Field("value", Num, Required),
      Field("category", OneOf(SkillCategories), Required)])
  }

  function EquipmentSchema(): Schema {
    Obj([
      Field("name", Str(false), Required),
      Field("description", Str(false), Required),
      Field("type", OneOf(EquipmentTypes), Required)])
  }

  /** A new investigator: eight required keys, three lists defaulting to []. */
  function CreateCharacterSchema(): Schema {
    Obj([
      Field("name", Str(false), Required),
      Field("occupation", Str(false), Required),
      Field("image", Str(false), Required),
      Field("stats", StatsSchema(), Required),
      Field("background", Str(false), Required),
      Field("mentalHealth", MentalHealthSchema(), Required),
      Field("skills", Arr(SkillSchema()), Default(JArr([]))),
      Field("equipment", Arr(EquipmentSchema()), Default(JArr([]))),
      Field("pulpTalents", Arr(Str(false)), Default(JArr([]))),
      Field("wounds", Num, Required),
      Field("maxHealth", Num, Required)])
  }

  /** An investigator update: the same keys, all optional. */
  function UpdateCharacterSchema(): Schema {
    Obj([
      Field("name", Str(false), Optional),
      Field("occupation", Str(false), Optional),
      Field("image", Str(false), Optional),
      Field("stats", StatsSchema(), Optional),
      Field("background", Str(false), Optional),
      Field("mentalHealth", MentalHealthSchema(), Optional),
      Field("skills", Arr(SkillSchema()), Optional),
      Field("equipment", Arr(EquipmentSchema()), Optional),
      Field("pulpTalents", Arr(Str(false)), Optional),
      Field("wounds", Num, Optional),
      Field("maxHealth", Num, Optional)])
  }

  /** `validateCreateCharacter`. */
  function ValidateCreateCharacter(body: Json): Validation {
    Validate(CreateCharacterSchema(), body)
  }

  /** `validateUpdateCharacter`. */
  function ValidateUpdateCharacter(body: Json): Validation {
    Validate(UpdateCharacterSchema(), body)
  }

  /** The API spelling of each skill category. */
  function CategoryName(c: SkillCategory): string {
    match c
    case Combat => "combat"
    case Academic => "academic"
    case Pratical => "pratical"
    case Social => "social"
  }

  /** The skill category an accepted spelling names. */
  function CategoryOf(s: string): (c: SkillCategory)
    ensures s in SkillCategories ==> CategoryName(c) == s
  {
    if s == "combat" then Combat
    else if s == "academic" then Academic
    else if s == "pratical" then Pratical
    else Social
  }

  /** The API spelling of each equipment type. */
  function EquipmentTypeName(t: EquipmentType): string {
    match t
    case Weapon => "weapon"
    case Tool => "tool"
    case Book => "book"
    case Artifact => "artifact"
  }

  /** The equipment type an accepted spelling names. */
  function EquipmentTypeOf(s: string): (t: EquipmentType)
    ensures s in EquipmentTypes ==> EquipmentTypeName(t) == s
  {
    if s == "weapon" then Weapon
    else if s == "tool" then Tool
    else if s == "book" then Book
    else Artifact
  }

  /** Spelling a category and reading it back gives the category, and every
      spelling is one the schema accepts. */
  lemma CategoryRoundTrip(c: SkillCategory)
    ensures CategoryName(c) in SkillCategories && CategoryOf(CategoryName(c)) == c
  {
  }

  lemma EquipmentTypeRoundTrip(t: EquipmentType)
    ensures EquipmentTypeName(t) in EquipmentTypes && EquipmentTypeOf(EquipmentTypeName(t)) == t
  {
  }

  function StatsOf(j: Json): Stats {
    Stats(NumAt(j, "For"), NumAt(j, "Con"), NumAt(j, "Tam"), NumAt(j, "Des"),
          NumAt(j, "Apa"), NumAt(j, "Edu"), NumAt(j, "Int"), NumAt(j, "Pod"))
  }

  function MentalHealthOf(j: Json): MentalHealth {
    MentalHealth(NumAt(j, "sanity"), NumAt(j, "maxSanity"), BoolAt(j, "tempSanity"), BoolAt(j, "indefiniteSanity"),
                 Strings(ArrAt(j, "phobias")), Strings(ArrAt(j, "manias")))
  }

  function SkillOf(j: Json): Skill {
    Skill(StrAt(j, "name"), NumAt(j, "value"), CategoryOf(StrAt(j, "category")))
  }

  function EquipmentOf(j: Json): Equipment {
    Equipment(StrAt(j, "name"), StrAt(j, "description"), EquipmentTypeOf(StrAt(j, "type")))
  }

  function SkillsOf(items: seq<Json>): (r: seq<Skill>)
    ensures |r| == |items|
  {
    seq(|items|, i requires 0 <= i < |items| => SkillOf(items[i]))
  }

  function EquipmentListOf(items: seq<Json>): (r: seq<Equipment>)
    ensures |r| == |items|
  {
    seq(|items|, i requires 0 <= i < |items| => EquipmentOf(items[i]))
  }

  /** The data the create use case stores for an accepted, filled body. */
  function CharacterDataOf(value: Json): CharacterData {
    CharacterData(StrAt(value, "name"), StrAt(value, "occupation"), StrAt(value, "image"),
                  StatsOf(At(value, "stats")), StrAt(value, "background"), MentalHealthOf(At(value, "mentalHealth")),
                  SkillsOf(ArrAt(value, "skills")), EquipmentListOf(ArrAt(value, "equipment")),
                  Strings(ArrAt(value, "pulpTalents")), NumAt(value, "wounds"), NumAt(value, "maxHealth"))
  }

  /** The `$set` the update use case receives: exactly the keys present in the body. */
  function CharacterPatchOf(value: Json): CharacterPatch {
    CharacterPatch(
      if "name" in Keys(value) then Some(StrAt(value, "name")) else None,
      if "occupation" in Keys(value) then Some(StrAt(value, "occupation")) else None,
      if "image" in Keys(value) then Some(StrAt(value, "image")) else None,
      if "stats" in Keys(value) then Some(StatsOf(At(value, "stats"))) else None,
      if "background" in Keys(value) then Some(StrAt(value, "background")) else None,
      if "mentalHealth" in Keys(value) then Some(MentalHealthOf(At(value, "mentalHealth"))) else None,
      if "skills" in Keys(value) then Some(SkillsOf(ArrAt(value, "skills"))) else None,
      if "equipment" in Keys(value) then Some(EquipmentListOf(ArrAt(value, "equipment"))) else None,
      if "pulpTalents" in Keys(value) then Some(Strings(ArrAt(value, "pulpTalents"))) else None,
      if "wounds" in Keys(value) then Some(NumAt(value, "wounds")) else None,
      if "maxHealth" in Keys(value) then Some(NumAt(value, "maxHealth")) else None)
  }

  lemma StatsSchemaWellFormed()
    ensures WellFormed(StatsSchema())
  {
  }

  /** The sanity schema's defaults are a false flag and an empty list, both accepted. */
  lemma {:induction false} MentalHealthSchemaWellFormed()
    ensures WellFormed(MentalHealthSchema())
  {
    var fs := MentalHealthSchema().fields;
    assert UniqueNames(fs);
    EmptyArrayFilled(Str(false));
  }

  lemma SkillSchemaWellFormed()
    ensures WellFormed(SkillSchema())
  {
  }

  lemma EquipmentSchemaWellFormed()
    ensures WellFormed(EquipmentSchema())
  {
  }

  /** The create schema has unique keys, and its defaults are empty lists it accepts. */
  lemma {:induction false} CreateCharacterSchemaWellFormed()
    ensures WellFormed(CreateCharacterSchema())
  {
    var fs := CreateCharacterSchema().fields;
    assert UniqueNames(fs);
    forall i | 0 <= i < |fs|
      ensures WellFormed(fs[i].schema)
      ensures fs[i].presence.Default? ==>
        Conforms(fs[i].schema, fs[i].presence.value) && Fill(fs[i].schema, fs[i].presence.value) == fs[i].presence.value
    {
      CreateCharacterFieldWellFormed(i);
    }
  }

  /** One field of the create schema: a well-formed schema, and a default it
      accepts and leaves as it is. */
  lemma {:induction false} CreateCharacterFieldWellFormed(i: nat)
    requires i < |CreateCharacterSchema().fields|
    ensures var f := CreateCharacterSchema().fields[i];
      && WellFormed(f.schema)
      && (f.presence.Default? ==> Conforms(f.schema, f.presence.value) && Fill(f.schema, f.presence.value) == f.presence.value)
  {
    var fs := CreateCharacterSchema().fields;
    if i == 3 {
      StatsSchemaWellFormed();
    } else if i == 5 {
      MentalHealthSchemaWellFormed();
    } else if i == 6 {
      SkillSchemaWellFormed();
      EmptyArrayFilled(SkillSchema());
    } else if i == 7 {
      EquipmentSchemaWellFormed();
      EmptyArrayFilled(EquipmentSchema());
    } else if i == 8 {
      EmptyArrayFilled(Str(false));
    }
  }

  /** Every key of a new investigator is required except the three lists; by
      `RequiredKeysPresent`, an accepted body carries each of the eight. */
  lemma {:induction false} CreateCharacterRequiredKeys()
    ensures var fs := CreateCharacterSchema().fields;
      && |fs| == 11
      && fs[0].name == "name" && fs[1].name == "occupation" && fs[2].name == "image" && fs[3].name == "stats"
      && fs[4].name == "background" && fs[5].name == "mentalHealth" && fs[9].name == "wounds" && fs[10].name == "maxHealth"
      && (forall i :: 0 <= i < |fs| ==> (fs[i].presence.Required? <==> i !in {6, 7, 8}))
  {
  }

  /** All eight characteristics are required numbers. */
  lemma {:induction false} StatsAllRequired(j: Json)
    requires Conforms(StatsSchema(), j)
    ensures j.JObj? && forall i :: 0 <= i < 8 ==> StatsSchema().fields[i].name in j.fields && j.fields[StatsSchema().fields[i].name].JNum?
  {
  }

  /** An accepted skill names one of the four categories, and the stored category
      spells back to it. */
  lemma {:induction false} SkillCategoryAccepted(j: Json)
    requires Conforms(SkillSchema(), j)
    ensures "category" in j.fields && j.fields["category"].JStr? && j.fields["category"].s in SkillCategories
    ensures CategoryName(SkillOf(j).category) == j.fields["category"].s
  {
    assert SkillSchema().fields[2].name == "category";
  }

  /** An accepted equipment entry names one of the four types, and the stored type
      spells back to it. */
  lemma {:induction false} EquipmentTypeAccepted(j: Json)
    requires Conforms(EquipmentSchema(), j)
    ensures "type" in j.fields && j.fields["type"].JStr? && j.fields["type"].s in EquipmentTypes
    ensures EquipmentTypeName(EquipmentOf(j).equipmentType) == j.fields["type"].s
  {
    assert EquipmentSchema().fields[2].name == "type";
  }

  /** Sanity sent without its flags and lists is stored with false flags and empty lists. */
  lemma {:induction false} MentalHealthDefaults(j: Json)
    requires j.JObj?
    requires "tempSanity" !in j.fields && "indefiniteSanity" !in j.fields
    requires "phobias" !in j.fields && "manias" !in j.fields
    ensures var m := MentalHealthOf(Fill(MentalHealthSchema(), j));
      !m.tempSanity && !m.indefiniteSanity && m.phobias == [] && m.manias == []
  {
    var fs := MentalHealthSchema().fields;
    assert UniqueNames(fs);
    FillObjectField(fs, j.fields, 2);
    FillObjectField(fs, j.fields, 3);
    FillObjectField(fs, j.fields, 4);
    FillObjectField(fs, j.fields, 5);
  }

  /** Filling a new investigator's body adds an empty list for each list not sent. */
  lemma {:induction false} CreateCharacterFillDefaults(body: Json)
    requires body.JObj?
    ensures var r := Fill(CreateCharacterSchema(), body);
      && r.JObj?
      && ("skills" !in body.fields ==> "skills" in r.fields && r.fields["skills"] == JArr([]))
      && ("equipment" !in body.fields ==> "equipment" in r.fields && r.fields["equipment"] == JArr([]))
      && ("pulpTalents" !in body.fields ==> "pulpTalents" in r.fields && r.fields["pulpTalents"] == JArr([]))
  {
    var fs := CreateCharacterSchema().fields;
    assert UniqueNames(fs);
    FillObjectField(fs, body.fields, 6);
    FillObjectField(fs, body.fields, 7);
    FillObjectField(fs, body.fields, 8);
  }

  /** A new investigator sent without lists is stored with empty ones. */
  lemma {:induction false} CreatedCharacterListsDefault(body: Json)
    requires body.JObj?
    ensures var d := CharacterDataOf(Fill(CreateCharacterSchema(), body));
      && ("skills" !in body.fields ==> d.skills == [])
      && ("equipment" !in body.fields ==> d.equipment == [])
      && ("pulpTalents" !in body.fields ==> d.pulpTalents == [])
  {
    CreateCharacterFillDefaults(body);
  }

  /** Every key of the update schema is optional, so the empty body is accepted and
      asks for no change. */
  lemma {:induction false} EmptyCharacterUpdateAccepted()
    ensures Conforms(UpdateCharacterSchema(), JObj(map[]))
    ensures CharacterPatchOf(Fill(UpdateCharacterSchema(), JObj(map[]))) == NoCharacterChanges
  {
    var fs := UpdateCharacterSchema().fields;
    assert DefaultedKeys(fs) == {};
    FillObjectKeys(fs, map[]);
  }

  /** Filling an update body adds no top-level key: every key is optional. */
  lemma {:induction false} UpdateCharacterFillKeys(body: Json)
    requires body.JObj?
    ensures Keys(Fill(UpdateCharacterSchema(), body)) == body.fields.Keys
  {
    var fs := UpdateCharacterSchema().fields;
    assert DefaultedKeys(fs) == {};
    FillObjectKeys(fs, body.fields);
  }

  /** Filling an update body keeps a scalar field as sent. */
  lemma {:induction false} UpdateCharacterFillScalar(body: Json, i: nat)
    requires body.JObj? && i in {0, 1, 2, 4, 9, 10}
    ensures var k := UpdateCharacterSchema().fields[i].name;
      k in body.fields ==> At(Fill(UpdateCharacterSchema(), body), k) == body.fields[k]
  {
    var fs := UpdateCharacterSchema().fields;
    assert UniqueNames(fs);
    FillObjectField(fs, body.fields, i);
  }

  /** An update sets exactly the keys the body carries, with the values sent
      (nested defaults only fill inside a sanity object that was sent). */
  lemma {:induction false} CharacterUpdateSetsSentKeys(body: Json)
    requires body.JObj?
    ensures var p := CharacterPatchOf(Fill(UpdateCharacterSchema(), body));
      && (p.name.Some? <==> "name" in body.fields)
      && (p.occupation.Some? <==> "occupation" in body.fields)
      && (p.image.Some? <==> "image" in body.fields)
      && (p.stats.Some? <==> "stats" in body.fields)
      && (p.background.Some? <==> "background" in body.fields)
      && (p.mentalHealth.Some? <==> "mentalHealth" in body.fields)
      && (p.skills.Some? <==> "skills" in body.fields)
      && (p.equipment.Some? <==> "equipment" in body.fields)
      && (p.pulpTalents.Some? <==> "pulpTalents" in body.fields)
      && (p.wounds.Some? <==> "wounds" in body.fields)
      && (p.maxHealth.Some? <==> "maxHealth" in body.fields)
      && (p.name.Some? ==> p.name.value == StrAt(body, "name"))
      && (p.wounds.Some? ==> p.wounds.value == NumAt(body, "wounds"))
  {
    UpdateCharacterFillKeys(body);
    UpdateCharacterFillScalar(body, 0);
    UpdateCharacterFillScalar(body, 9);
    var r := Fill(UpdateCharacterSchema(), body);
    assert StrAt(r, "name") == StrAt(body, "name");
    assert NumAt(r, "wounds") == NumAt(body, "wounds");
  }
}
