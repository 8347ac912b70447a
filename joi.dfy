/** The part of Joi the validators use, as a small schema interpreter over JSON
    values: required/optional keys, defaults, strings (empty only when allowed),
    numbers, booleans, string enumerations, arrays of items and objects that
    reject unknown keys. Validation collects every violation (`abortEarly: false`). */
module Joi {
  import opened Common

  /** A parsed request body. Numbers are integers in this model. */
  datatype Json =
    | JNull
    | JBool(b: bool)
    | JNum(n: int)
    | JStr(s: string)
    | JArr(items: seq<Json>)
    | JObj(fields: map<string, Json>)

  /** The keys a body sends: those of an object, none for any other value. */
  function Keys(j: Json): set<string> {
    if j.JObj? then j.fields.Keys else {}
  }

  /** One step of the path Joi reports for a violation. */
  datatype Seg = Key(key: string) | Index(index: nat)

  type Path = seq<Seg>

  /** `.required()`, `.optional()` (Joi's default) or `.default(value)`. */
  datatype Presence = Required | Optional | Default(value: Json)

  datatype Schema =
    | Str(allowEmpty: bool)        // Joi.string(), with `.allow('')` when allowEmpty
    | Num                          // Joi.number()
    | Bool                         // Joi.boolean()
    | OneOf(options: seq<string>)  // Joi.string().valid(...)
    | Arr(item: Schema)            // Joi.array().items(item)
    | Obj(fields: seq<Field>)      // Joi.object({...}); unknown keys are refused

  datatype Field = Field(name: string, schema: Schema, presence: Presence)

  /** The key `k` is declared by one of `fields`. */
  predicate Declared(fields: seq<Field>, k: string) {
    exists i :: 0 <= i < |fields| && fields[i].name == k
  }

  /** Where `k` is declared in `fields`, or -1. */
  function FieldIndex(fields: seq<Field>, k: string): (i: int)
    ensures -1 <= i < |fields|
    ensures 0 <= i ==> fields[i].name == k
    ensures i < 0 <==> !Declared(fields, k)
  {
    if fields == [] then -1
    else if fields[0].name == k then 0
    else
      var i := FieldIndex(fields[1..], k);
      if i < 0 then -1 else i + 1
  }

  /** The reference meaning of a schema: `j` is a value the schema accepts. */
  predicate Conforms(s: Schema, j: Json)
    decreases s
  {
    match s
    case Str(allowEmpty) => j.JStr? && (allowEmpty || j.s != "")
    case Num => j.JNum?
    case Bool => j.JBool?
    case OneOf(options) => j.JStr? && j.s in options
    case Arr(item) => j.JArr? && forall i :: 0 <= i < |j.items| ==> Conforms(item, j.items[i])
    case Obj(fields) =>
      && j.JObj?
      && (forall k :: k in j.fields ==> Declared(fields, k))
      && (forall i :: 0 <= i < |fields| ==>
            if fields[i].name in j.fields then Conforms(fields[i].schema, j.fields[fields[i].name])
            else !fields[i].presence.Required?)
  }

  /** `schema.validate(j, { abortEarly: false })`: the path of every violation.
      A value of the wrong type is one violation at its own path; inside an object,
      each missing required key and each unknown key is one violation at that key,
      and the violations of every present key are reported under it. */
  function Violations(s: Schema, j: Json): set<Path>
    decreases s
  {
    match s
    case Str(allowEmpty) => if j.JStr? && (allowEmpty || j.s != "") then {} else {[]}
    case Num => if j.JNum? then {} else {[]}
    case Bool => if j.JBool? then {} else {[]}
    case OneOf(options) => if j.JStr? && j.s in options then {} else {[]}
    case Arr(item) =>
      if !j.JArr? then {[]}
      else set i, p | 0 <= i < |j.items| && p in Violations(item, j.items[i]) :: [Index(i)] + p
    case Obj(fields) =>
      if !j.JObj? then {[]}
      else
        (set k | k in j.fields && !Declared(fields, k) :: [Key(k)])
        + (set i | 0 <= i < |fields| && fields[i].name !in j.fields && fields[i].presence.Required? :: [Key(fields[i].name)])
        + (set i, p | 0 <= i < |fields| && fields[i].name in j.fields && p in Violations(fields[i].schema, j.fields[fields[i].name])
             :: [Key(fields[i].name)] + p)
  }

  /** The value Joi hands back on success: absent keys with a default get it,
      recursively inside nested objects and arrays. */
  function Fill(s: Schema, j: Json): Json
    decreases s
  {
    match s
    case Arr(item) =>
      if j.JArr? then JArr(seq(|j.items|, i requires 0 <= i < |j.items| => Fill(item, j.items[i]))) else j
    case Obj(fields) =>
      if j.JObj? then
        JObj(map k | k in j.fields.Keys + DefaultedKeys(fields) ::
               var i := FieldIndex(fields, k);
               if k in j.fields then (if 0 <= i then Fill(fields[i].schema, j.fields[k]) else j.fields[k])
               else if 0 <= i && fields[i].presence.Default? then fields[i].presence.value
               else JNull)
      else j
    case _ => j
  }

  /** The keys of `fields` that carry a default. */
  function DefaultedKeys(fields: seq<Field>): set<string> {
    set i | 0 <= i < |fields| && fields[i].presence.Default? :: fields[i].name
  }

  /** Validation fails exactly when the value does not conform: `error` is unset
      if and only if the schema accepts the value. */
  lemma {:induction false} ConformsIffNoViolations(s: Schema, j: Json)
    ensures Conforms(s, j) <==> Violations(s, j) == {}
    decreases s
  {
    match s
    case Str(_) =>
    case Num =>
    case Bool =>
    case OneOf(_) =>
    case Arr(item) =>
      if j.JArr? {
        forall i | 0 <= i < |j.items| ensures Conforms(item, j.items[i]) <==> Violations(item, j.items[i]) == {} {
          ConformsIffNoViolations(item, j.items[i]);
        }
        if !Conforms(s, j) {
          var i :| 0 <= i < |j.items| && !Conforms(item, j.items[i]);
          var p :| p in Violations(item, j.items[i]);
          assert [Index(i)] + p in Violations(s, j);
        }
      }
    case Obj(fields) =>
      if j.JObj? {
        forall i | 0 <= i < |fields| && fields[i].name in j.fields
          ensures Conforms(fields[i].schema, j.fields[fields[i].name]) <==> Violations(fields[i].schema, j.fields[fields[i].name]) == {}
        {
          ConformsIffNoViolations(fields[i].schema, j.fields[fields[i].name]);
        }
        if !Conforms(s, j) {
          if k :| k in j.fields && !Declared(fields, k) {
            assert [Key(k)] in Violations(s, j);
          } else {
            var i :| 0 <= i < |fields| && !(if fields[i].name in j.fields then Conforms(fields[i].schema, j.fields[fields[i].name])
                                            else !fields[i].presence.Required?);
            if fields[i].name in j.fields {
              var p :| p in Violations(fields[i].schema, j.fields[fields[i].name]);
              assert [Key(fields[i].name)] + p in Violations(s, j);
            } else {
              assert [Key(fields[i].name)] in Violations(s, j);
            }
          }
        }
      }
  }

  /** Every missing required key is reported, whatever else is wrong. */
  lemma MissingKeysAllReported(fields: seq<Field>, m: map<string, Json>)
    ensures forall i :: 0 <= i < |fields| && fields[i].presence.Required? && fields[i].name !in m ==>
              [Key(fields[i].name)] in Violations(Obj(fields), JObj(m))
  {
  }

  /** A value an object schema accepts carries each of its required keys. */
  lemma RequiredKeysPresent(s: Schema, j: Json)
    requires s.Obj? && Conforms(s, j)
    ensures j.JObj?
    ensures forall i :: 0 <= i < |s.fields| && s.fields[i].presence.Required? ==> s.fields[i].name in j.fields
  {
  }

  /** A key the object schema does not declare is refused and reported. */
  lemma UnknownKeysRefused(fields: seq<Field>, m: map<string, Json>, k: string)
    requires k in m && !Declared(fields, k)
    ensures [Key(k)] in Violations(Obj(fields), JObj(m))
    ensures !Conforms(Obj(fields), JObj(m))
  {
  }

  /** No two fields of an object schema share a name. */
  predicate UniqueNames(fields: seq<Field>) {
    forall i, j :: 0 <= i < j < |fields| ==> fields[i].name != fields[j].name
  }

  /** Field names are unique and every default is a filled value the field's own
      schema accepts. */
  predicate WellFormed(s: Schema)
    decreases s
  {
    match s
    case Arr(item) => WellFormed(item)
    case Obj(fields) =>
      && UniqueNames(fields)
      && forall i :: 0 <= i < |fields| ==>
           && WellFormed(fields[i].schema)
           && (fields[i].presence.Default? ==>
                 Conforms(fields[i].schema, fields[i].presence.value)
                 && Fill(fields[i].schema, fields[i].presence.value) == fields[i].presence.value)
    case _ => true
  }

  /** The empty list is accepted by every array schema and needs no filling. */
  lemma EmptyArrayFilled(item: Schema)
    ensures Conforms(Arr(item), JArr([])) && Fill(Arr(item), JArr([])) == JArr([])
  {
    assert Fill(Arr(item), JArr([])).items == [];
  }

  /** Filling an object touches each declared key on its own: a sent key is filled
      by its field's schema, an absent key gets the field's default if it has one
      and stays absent otherwise. */
  lemma FillObjectField(fields: seq<Field>, m: map<string, Json>, i: int)
    requires UniqueNames(fields) && 0 <= i < |fields|
    ensures var r := Fill(Obj(fields), JObj(m)); var k := fields[i].name;
      && r.JObj?
      && (k in m ==> k in r.fields && r.fields[k] == Fill(fields[i].schema, m[k]))
      && (k !in m && fields[i].presence.Default? ==> k in r.fields && r.fields[k] == fields[i].presence.value)
      && (k !in m && !fields[i].presence.Default? ==> k !in r.fields)
  {
    var k := fields[i].name;
    assert FieldIndex(fields, k) == i;
    if k !in m && fields[i].presence.Default? {
      assert k in DefaultedKeys(fields);
    }
  }

  /** Filling an object keeps the keys that were sent and adds only defaulted ones. */
  lemma FillObjectKeys(fields: seq<Field>, m: map<string, Json>)
    ensures Fill(Obj(fields), JObj(m)).JObj?
    ensures Fill(Obj(fields), JObj(m)).fields.Keys == m.Keys + DefaultedKeys(fields)
  {
  }

  /** Some object schema inside `s` declares a default. */
  predicate HasDefaults(s: Schema)
    decreases s
  {
    match s
    case Arr(item) => HasDefaults(item)
    case Obj(fields) => exists i :: 0 <= i < |fields| && (fields[i].presence.Default? || HasDefaults(fields[i].schema))
    case _ => false
  }

  /** Without defaults, filling changes nothing. */
  lemma {:induction false} FillWithoutDefaults(s: Schema, j: Json)
    requires !HasDefaults(s)
    ensures Fill(s, j) == j
    decreases s
  {
    match s
    case Str(_) =>
    case Num =>
    case Bool =>
    case OneOf(_) =>
    case Arr(item) =>
      if j.JArr? {
        forall i | 0 <= i < |j.items| ensures Fill(item, j.items[i]) == j.items[i] {
          FillWithoutDefaults(item, j.items[i]);
        }
        assert Fill(s, j).items == j.items;
      }
    case Obj(fields) =>
      if j.JObj? {
        assert DefaultedKeys(fields) == {};
        forall k | k in j.fields ensures Fill(s, j).fields[k] == j.fields[k] {
          var i := FieldIndex(fields, k);
          if 0 <= i { FillWithoutDefaults(fields[i].schema, j.fields[k]); }
        }
      }
  }

  /** Filling in defaults keeps an accepted value accepted. */
  lemma {:induction false} FillConforms(s: Schema, j: Json)
    requires WellFormed(s) && Conforms(s, j)
    ensures Conforms(s, Fill(s, j))
    decreases s
  {
    match s
    case Str(_) =>
    case Num =>
    case Bool =>
    case OneOf(_) =>
    case Arr(item) =>
      forall i | 0 <= i < |j.items| ensures Conforms(item, Fill(item, j.items[i])) {
        FillConforms(item, j.items[i]);
      }
    case Obj(fields) =>
      var r := Fill(s, j);
      FillObjectKeys(fields, j.fields);
      forall k | k in r.fields ensures Declared(fields, k) {
        if k !in j.fields {
          var i :| 0 <= i < |fields| && fields[i].presence.Default? && fields[i].name == k;
        }
      }
      forall i | 0 <= i < |fields|
        ensures if fields[i].name in r.fields then Conforms(fields[i].schema, r.fields[fields[i].name])
                else !fields[i].presence.Required?
      {
        FillObjectField(fields, j.fields, i);
        if fields[i].name in j.fields {
          FillConforms(fields[i].schema, j.fields[fields[i].name]);
        }
      }
  }

  /** Filling twice is filling once. */
  lemma {:induction false} FillIdempotent(s: Schema, j: Json)
    requires WellFormed(s)
    ensures Fill(s, Fill(s, j)) == Fill(s, j)
    decreases s
  {
    match s
    case Str(_) =>
    case Num =>
    case Bool =>
    case OneOf(_) =>
    case Arr(item) =>
      if j.JArr? {
        var r := Fill(s, j);
        forall i | 0 <= i < |j.items| ensures Fill(item, r.items[i]) == r.items[i] {
          FillIdempotent(item, j.items[i]);
        }
      }
    case Obj(fields) =>
      if j.JObj? {
        var r := Fill(s, j);
        FillObjectKeys(fields, j.fields);
        FillObjectKeys(fields, r.fields);
        var rr := Fill(s, r);
        assert rr.fields.Keys == r.fields.Keys;
        forall k | k in r.fields ensures rr.fields[k] == r.fields[k] {
          var i := FieldIndex(fields, k);
          if 0 <= i {
            FillObjectField(fields, j.fields, i);
            FillObjectField(fields, r.fields, i);
            if k in j.fields { FillIdempotent(fields[i].schema, j.fields[k]); }
          }
        }
      }
  }

  /** What `schema.validate(j, { abortEarly: false })` returns: the filled value,
      or every violation. */
  datatype Validation = Accepted(value: Json) | Refused(violations: set<Path>)

  function Validate(s: Schema, j: Json): (r: Validation)
    ensures r.Accepted? <==> Conforms(s, j)
    ensures r.Refused? ==> r.violations != {} && r.violations == Violations(s, j)
    ensures r.Accepted? && WellFormed(s) ==> Conforms(s, r.value)
  {
    ConformsIffNoViolations(s, j);
    var v := Violations(s, j);
    if v == {} then
      (if WellFormed(s) then FillConforms(s, j); Accepted(Fill(s, j)) else Accepted(Fill(s, j)))
    else Refused(v)
  }

  /** The string under key `k` of an object, or "" when there is none. */
  function StrAt(j: Json, k: string): string {
    if j.JObj? && k in j.fields && j.fields[k].JStr? then j.fields[k].s else ""
  }

  /** The string under key `k` of an object when there is one. */
  function OptStrAt(j: Json, k: string): Option<string> {
    if j.JObj? && k in j.fields && j.fields[k].JStr? then Some(j.fields[k].s) else None
  }

  /** The number under key `k` of an object, or 0 when there is none. */
  function NumAt(j: Json, k: string): int {
    if j.JObj? && k in j.fields && j.fields[k].JNum? then j.fields[k].n else 0
  }

  /** The boolean under key `k` of an object, or false when there is none. */
  function BoolAt(j: Json, k: string): bool {
    j.JObj? && k in j.fields && j.fields[k].JBool? && j.fields[k].b
  }

  /** The array under key `k` of an object, or [] when there is none. */
  function ArrAt(j: Json, k: string): seq<Json> {
    if j.JObj? && k in j.fields && j.fields[k].JArr? then j.fields[k].items else []
  }

  /** The value under key `k` of an object, or null. */
  function At(j: Json, k: string): Json {
    if j.JObj? && k in j.fields then j.fields[k] else JNull
  }

  /** The strings of an array of strings. */
  function Strings(items: seq<Json>): (r: seq<string>)
    ensures |r| == |items|
    ensures forall i :: 0 <= i < |items| && items[i].JStr? ==> r[i] == items[i].s
  {
    seq(|items|, i requires 0 <= i < |items| => if items[i].JStr? then items[i].s else "")
  }
}
