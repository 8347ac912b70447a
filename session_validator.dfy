/** The request-body schemas for sessions, and how an accepted body becomes the
    data the session store receives. */
module SessionValidator {
  import opened Common
  import opened Joi
  import opened Sessions
  import opened SessionRepository

  /** A clue: name, description and type are required; the id the front end may
      send, and image, tag and location, are optional, the last three possibly "". */
  function ClueSchema(): Schema {
    Obj([
    Field("id", Str(false), Optional),
    Field("name", Str(false), Required),
    Field("description", Str(false), Required),
    Field("type", Str(false), Required),
    Field("image", Str(true), Optional),
    Field("tag", Str(true), Optional),
    Field("location", Str(true), Optional)])
  }

  /** An item: name, description and type are required; the id is optional. */
  function ItemSchema(): Schema {
    Obj([
    Field("id", Str(false), Optional),
    Field("name", Str(false), Required),
    Field("description", Str(false), Required),
    Field("type", Str(false), Required)])
  }

  /** A new session: five required strings, four lists defaulting to []. The date
      is validated as a string. */
  function CreateSessionSchema(): Schema {
    Obj([
    Field("title", Str(false), Required),
    Field("date", Str(false), Required),
    Field("location", Str(false), Required),
    Field("summary", Str(false), Required),
    Field("details", Str(false), Required),
    Field("tags", Arr(Str(false)), Default(JArr([]))),
    Field("images", Arr(Str(false)), Default(JArr([]))),
    Field("clues", Arr(ClueSchema()), Default(JArr([]))),
    Field("items", Arr(ItemSchema()), Default(JArr([])))])
  }

  /** A session update: the same keys, all optional, no defaults. */
  function UpdateSessionSchema(): Schema {
    Obj([
    Field("title", Str(false), Optional),
    Field("date", Str(false), Optional),
    Field("location", Str(false), Optional),
    Field("summary", Str(false), Optional),
    Field("details", Str(false), Optional),
    Field("tags", Arr(Str(false)), Optional),
    Field("images", Arr(Str(false)), Optional),
    Field("clues", Arr(ClueSchema()), Optional),
    Field("items", Arr(ItemSchema()), Optional)])
  }

  /** The five keys a new session must carry. */
  const RequiredSessionKeys := ["title", "date", "location", "summary", "details"]

  /** The four list keys that default to []. */
  const SessionListKeys := ["tags", "images", "clues", "items"]

  /** `validateCreateSession`. */
  function ValidateCreateSession(body: Json): Validation {
    Validate(CreateSessionSchema(), body)
  }

  /** `validateUpdateSession`. */
  function ValidateUpdateSession(body: Json): Validation {
    Validate(UpdateSessionSchema(), body)
  }

  /** A clue as the store keeps it; the id the client sent is not kept. */
  function ClueOf(j: Json): Clue {
    Clue(StrAt(j, "name"), StrAt(j, "description"), StrAt(j, "type"),
         OptStrAt(j, "image"), OptStrAt(j, "tag"), OptStrAt(j, "location"))
  }

  function ItemOf(j: Json): Item {
    Item(StrAt(j, "name"), StrAt(j, "description"), StrAt(j, "type"))
  }

  function CluesOf(items: seq<Json>): (r: seq<Clue>)
    ensures |r| == |items|
  {
    seq(|items|, i requires 0 <= i < |items| => ClueOf(items[i]))
  }

  function ItemsOf(items: seq<Json>): (r: seq<Item>)
    ensures |r| == |items|
  {
    seq(|items|, i requires 0 <= i < |items| => ItemOf(items[i]))
  }

  /** The data the create use case stores for an accepted, filled body; the date
      string is parsed into an instant by `parseDate`. */
  function SessionDataOf(value: Json, parseDate: string -> int): SessionData {
    SessionData(StrAt(value, "title"), parseDate(StrAt(value, "date")), StrAt(value, "location"),
                StrAt(value, "summary"), StrAt(value, "details"), Strings(ArrAt(value, "tags")),
                Strings(ArrAt(value, "images")), CluesOf(ArrAt(value, "clues")), ItemsOf(ArrAt(value, "items")))
  }

  /** The `$set` the update use case receives: exactly the keys present in the body. */
  function SessionPatchOf(value: Json, parseDate: string -> int): SessionPatch {
    SessionPatch(
      if "title" in Keys(value) then Some(StrAt(value, "title")) else None,
      if "date" in Keys(value) then Some(parseDate(StrAt(value, "date"))) else None,
      if "location" in Keys(value) then Some(StrAt(value, "location")) else None,
      if "summary" in Keys(value) then Some(StrAt(value, "summary")) else None,
      if "details" in Keys(value) then Some(StrAt(value, "details")) else None,
      if "tags" in Keys(value) then Some(Strings(ArrAt(value, "tags"))) else None,
      if "images" in Keys(value) then Some(Strings(ArrAt(value, "images"))) else None,
      if "clues" in Keys(value) then Some(CluesOf(ArrAt(value, "clues"))) else None,
      if "items" in Keys(value) then Some(ItemsOf(ArrAt(value, "items"))) else None)
  }

  lemma ClueSchemaWellFormed()
    ensures WellFormed(ClueSchema())
  {
  }

  lemma ItemSchemaWellFormed()
    ensures WellFormed(ItemSchema())
  {
  }

  /** The create schema has unique keys, and its defaults are empty lists it accepts. */
  lemma {:induction false} CreateSessionSchemaWellFormed()
    ensures WellFormed(CreateSessionSchema())
  {
    var fs := CreateSessionSchema().fields;
    assert UniqueNames(fs);
    forall i | 0 <= i < |fs|
      ensures WellFormed(fs[i].schema)
      ensures fs[i].presence.Default? ==>
        Conforms(fs[i].schema, fs[i].presence.value) && Fill(fs[i].schema, fs[i].presence.value) == fs[i].presence.value
    {
      CreateSessionFieldWellFormed(i);
    }
  }

  /** One field of the create schema: a well-formed schema, and a default it
      accepts and leaves as it is. */
  lemma {:induction false} CreateSessionFieldWellFormed(i: nat)
    requires i < |CreateSessionSchema().fields|
    ensures var f := CreateSessionSchema().fields[i];
      && WellFormed(f.schema)
      && (f.presence.Default? ==> Conforms(f.schema, f.presence.value) && Fill(f.schema, f.presence.value) == f.presence.value)
  {
    if i < 5 {
    } else if i < 7 {
      EmptyArrayFilled(Str(false));
    } else if i == 7 {
      ClueSchemaWellFormed();
      EmptyArrayFilled(ClueSchema());
    } else {
      ItemSchemaWellFormed();
      EmptyArrayFilled(ItemSchema());
    }
  }

  /** The update schema has unique keys and no defaults. */
  lemma {:induction false} UpdateSessionSchemaWellFormed()
    ensures WellFormed(UpdateSessionSchema())
  {
    var fs := UpdateSessionSchema().fields;
    assert UniqueNames(fs);
    ClueSchemaWellFormed();
    ItemSchemaWellFormed();
    forall i | 0 <= i < |fs| ensures WellFormed(fs[i].schema) && !fs[i].presence.Default? {
    }
  }

  /** An accepted new session carries the five required keys as non-empty strings. */
  lemma {:induction false} CreateSessionRequiredKeys(body: Json)
    requires Conforms(CreateSessionSchema(), body)
    ensures body.JObj?
    ensures forall k :: k in RequiredSessionKeys ==> k in body.fields && body.fields[k].JStr? && body.fields[k].s != ""
  {
    var fs := CreateSessionSchema().fields;
    forall k | k in RequiredSessionKeys ensures k in body.fields && body.fields[k].JStr? && body.fields[k].s != "" {
      var i :| 0 <= i < 5 && RequiredSessionKeys[i] == k;
      assert fs[i].name == k && fs[i].presence.Required? && fs[i].schema == Str(false);
    }
  }

  /** Filling a new session gives each absent list key the empty list. */
  lemma {:induction false} CreateSessionDefaults(body: Json)
    requires body.JObj?
    ensures var r := Fill(CreateSessionSchema(), body);
      && r.JObj?
      && ("tags" !in body.fields ==> "tags" in r.fields && r.fields["tags"] == JArr([]))
      && ("images" !in body.fields ==> "images" in r.fields && r.fields["images"] == JArr([]))
      && ("clues" !in body.fields ==> "clues" in r.fields && r.fields["clues"] == JArr([]))
      && ("items" !in body.fields ==> "items" in r.fields && r.fields["items"] == JArr([]))
  {
    var fs := CreateSessionSchema().fields;
    assert UniqueNames(fs);
    FillObjectField(fs, body.fields, 5);
    FillObjectField(fs, body.fields, 6);
    FillObjectField(fs, body.fields, 7);
    FillObjectField(fs, body.fields, 8);
  }

  /** Filling leaves a required string of a new session as it was sent. */
  lemma {:induction false} CreateSessionFillKeepsString(body: Json, i: nat)
    requires body.JObj? && i < 5 && RequiredSessionKeys[i] in body.fields
    ensures At(Fill(CreateSessionSchema(), body), RequiredSessionKeys[i]) == body.fields[RequiredSessionKeys[i]]
  {
    var fs := CreateSessionSchema().fields;
    assert UniqueNames(fs);
    assert fs[i].name == RequiredSessionKeys[i] && fs[i].schema == Str(false);
    FillObjectField(fs, body.fields, i);
  }

  /** The session data read from any value that holds the five strings sent. */
  lemma {:induction false} SessionDataReadsStrings(r: Json, body: Json, parseDate: string -> int)
    requires body.JObj? && forall k :: k in RequiredSessionKeys ==> k in body.fields && At(r, k) == body.fields[k]
    ensures var d := SessionDataOf(r, parseDate);
      && d.title == StrAt(body, "title")
      && d.date == parseDate(StrAt(body, "date"))
      && d.location == StrAt(body, "location")
      && d.summary == StrAt(body, "summary")
      && d.details == StrAt(body, "details")
  {
    assert "title" in RequiredSessionKeys && "date" in RequiredSessionKeys && "location" in RequiredSessionKeys;
    assert "summary" in RequiredSessionKeys && "details" in RequiredSessionKeys;
  }

  /** A new session is stored with the strings that were sent and the date parsed.
      Every accepted body carries the five strings (`CreateSessionRequiredKeys`). */
  lemma {:induction false} CreatedSessionKeepsStrings(body: Json, parseDate: string -> int)
    requires body.JObj? && forall k :: k in RequiredSessionKeys ==> k in body.fields
    ensures var d := SessionDataOf(Fill(CreateSessionSchema(), body), parseDate);
      && d.title == StrAt(body, "title")
      && d.date == parseDate(StrAt(body, "date"))
      && d.location == StrAt(body, "location")
      && d.summary == StrAt(body, "summary")
      && d.details == StrAt(body, "details")
  {
    var r := Fill(CreateSessionSchema(), body);
    forall k | k in RequiredSessionKeys ensures k in body.fields && At(r, k) == body.fields[k] {
      var i :| 0 <= i < 5 && RequiredSessionKeys[i] == k;
      CreateSessionFillKeepsString(body, i);
    }
    SessionDataReadsStrings(r, body, parseDate);
  }

  /** A new session sent without lists gets empty ones. */
  lemma {:induction false} CreatedSessionListsDefault(body: Json, parseDate: string -> int)
    requires body.JObj?
    ensures var d := SessionDataOf(Fill(CreateSessionSchema(), body), parseDate);
      && ("tags" !in body.fields ==> d.tags == [])
      && ("images" !in body.fields ==> d.images == [])
      && ("clues" !in body.fields ==> d.clues == [])
      && ("items" !in body.fields ==> d.items == [])
  {
    CreateSessionDefaults(body);
  }

  /** A clue with its three required strings and an empty image is accepted. */
  lemma {:induction false} ClueAcceptsEmptyImage(name: string, description: string, kind: string)
    requires name != "" && description != "" && kind != ""
    ensures Conforms(ClueSchema(), JObj(map["name" := JStr(name), "description" := JStr(description), "type" := JStr(kind), "image" := JStr("")]))
  {
    var fs := ClueSchema().fields;
    var m := map["name" := JStr(name), "description" := JStr(description), "type" := JStr(kind), "image" := JStr("")];
    forall k | k in m ensures Declared(fs, k) {
      if k == "name" { assert fs[1].name == k; }
      else if k == "description" { assert fs[2].name == k; }
      else if k == "type" { assert fs[3].name == k; }
      else { assert fs[4].name == k; }
    }
    forall i | 0 <= i < |fs|
      ensures if fs[i].name in m then Conforms(fs[i].schema, m[fs[i].name]) else !fs[i].presence.Required?
    {
    }
  }

  /** A clue whose name is empty is refused. */
  lemma {:induction false} ClueRefusesEmptyName(description: string, kind: string)
    ensures !Conforms(ClueSchema(), JObj(map["name" := JStr(""), "description" := JStr(description), "type" := JStr(kind)]))
  {
    var fs := ClueSchema().fields;
    assert fs[1].name == "name" && fs[1].schema == Str(false);
  }

  lemma UpdateSessionSchemaHasNoDefaults()
    ensures !HasDefaults(UpdateSessionSchema())
  {
  }

  /** Every key of the update schema is optional, so the empty body is accepted and
      asks for no change. */
  lemma {:induction false} EmptySessionUpdateAccepted(parseDate: string -> int)
    ensures Conforms(UpdateSessionSchema(), JObj(map[]))
    ensures SessionPatchOf(Fill(UpdateSessionSchema(), JObj(map[])), parseDate) == NoSessionChanges
  {
    UpdateSessionSchemaHasNoDefaults();
    FillWithoutDefaults(UpdateSessionSchema(), JObj(map[]));
  }

  /** Filling an update body adds no key. */
  lemma {:induction false} UpdateSessionFillKeys(body: Json)
    requires body.JObj?
    ensures Keys(Fill(UpdateSessionSchema(), body)) == body.fields.Keys
  {
    var fs := UpdateSessionSchema().fields;
    assert DefaultedKeys(fs) == {};
    FillObjectKeys(fs, body.fields);
  }

  /** Filling an update body keeps each of the five strings as sent. */
  lemma {:induction false} UpdateSessionFillString(body: Json, i: nat)
    requires body.JObj? && i < 5
    ensures var k := RequiredSessionKeys[i];
      k in body.fields ==> At(Fill(UpdateSessionSchema(), body), k) == body.fields[k]
  {
    var fs := UpdateSessionSchema().fields;
    assert UniqueNames(fs);
    assert fs[i].name == RequiredSessionKeys[i] && fs[i].schema == Str(false);
    FillObjectField(fs, body.fields, i);
  }

  /** An update sets exactly the keys the body carries, with the values sent. */
  lemma {:induction false} SessionUpdateSetsSentKeys(body: Json, parseDate: string -> int)
    requires body.JObj?
    ensures var p := SessionPatchOf(Fill(UpdateSessionSchema(), body), parseDate);
      && (p.title.Some? <==> "title" in body.fields)
      && (p.date.Some? <==> "date" in body.fields)
      && (p.location.Some? <==> "location" in body.fields)
      && (p.summary.Some? <==> "summary" in body.fields)
      && (p.details.Some? <==> "details" in body.fields)
      && (p.tags.Some? <==> "tags" in body.fields)
      && (p.images.Some? <==> "images" in body.fields)
      && (p.clues.Some? <==> "clues" in body.fields)
      && (p.items.Some? <==> "items" in body.fields)
      && (p.title.Some? ==> p.title.value == StrAt(body, "title"))
      && (p.date.Some? ==> p.date.value == parseDate(StrAt(body, "date")))
      && (p.location.Some? ==> p.location.value == StrAt(body, "location"))
  {
    UpdateSessionFillKeys(body);
    UpdateSessionFillString(body, 0);
    UpdateSessionFillString(body, 1);
    UpdateSessionFillString(body, 2);
    var r := Fill(UpdateSessionSchema(), body);
    assert StrAt(r, "title") == StrAt(body, "title");
    assert StrAt(r, "date") == StrAt(body, "date");
    assert StrAt(r, "location") == StrAt(body, "location");
  }
}
