/** Shared vocabulary of the backend: optional values, identifiers, roles,
    visibility flags, token claims and the application error type. */
module Common {

  /** A value that may be absent: `undefined`/`null` in the backend. */
  datatype Option<+T> = None | Some(value: T) {
    /** `x || d` on an optional field: the value when present, else the default. */
    function GetOr(default: T): T {
      match this
      case Some(v) => v
      case None => default
    }

    /** A `$set` of an optional field: the new value when supplied, else `current`. */
    function OrElse(current: Option<T>): Option<T> {
      if Some? then this else current
    }
  }

  /** Identifiers are opaque strings (document ids rendered with toString()). */
  type Id = string

  /** The two account roles; there is no third. */
  datatype Role = Keeper | Player

  /** Per-resource visibility flag of notes and events. */
  datatype Visibility = Private | Public

  /** The claims of a verified bearer token, attached to the request as `req.user`. */
  datatype Principal = Principal(userId: Id, email: string, role: Role)

  /** JavaScript truthiness of an optional string: `undefined` and "" are falsy. */
  predicate Truthy(s: Option<string>) {
    s.Some? && s.value != ""
  }

  /** What an update does to an optional stored field: leaves it as stored (the
      key is absent), clears it (the value is null, or one the database cast
      turns into null), or sets it. */
  datatype Edit<T> = Keep | Clear | SetTo(value: T)

  /** The optional field after the edit. */
  function Edited<T>(e: Edit<T>, current: Option<T>): Option<T> {
    match e
    case Keep => current
    case Clear => None
    case SetTo(v) => Some(v)
  }

  /** An application error: a message and the HTTP status it maps to. */
  datatype AppError = AppError(message: string, statusCode: int)

  /** `new NotFoundError(m)`. */
  function NotFoundError(message: string): AppError {
    AppError(message, 404)
  }

  /** `new ValidationError(m)`: the status is fixed at 400. */
  function ValidationError(message: string): AppError {
    AppError(message, 400)
  }

  /** What a use case either returns or throws. */
  datatype Result<+T> = Ok(value: T) | Err(error: AppError)

  /** `String.prototype.length`: the number of UTF-16 code units, where a
      character beyond the Basic Multilingual Plane takes two. It is never less
      than the number of characters, and equals it on text within that plane. */
  function Utf16Length(s: string): (n: nat)
    ensures |s| <= n <= 2 * |s|
    ensures (forall i :: 0 <= i < |s| ==> s[i] as int < 0x1_0000) ==> n == |s|
  {
    if s == [] then 0
    else (if s[0] as int < 0x1_0000 then 1 else 2) + Utf16Length(s[1..])
  }

  /** Lower-cases one character (ASCII letters only). */
  function LowerChar(c: char): char {
    if 'A' <= c <= 'Z' then (c as int + 32) as char else c
  }

  /** `String.prototype.toLowerCase`, restricted to ASCII letters. */
  function ToLower(s: string): (r: string)
    ensures |r| == |s|
    ensures forall i :: 0 <= i < |s| ==> r[i] == LowerChar(s[i])
  {
    seq(|s|, i requires 0 <= i < |s| => LowerChar(s[i]))
  }

  /** No upper-case ASCII letter occurs in `s`. */
  predicate IsLower(s: string) {
    forall i :: 0 <= i < |s| ==> !('A' <= s[i] <= 'Z')
  }

  /** Lower-casing yields a lower-case string and leaves lower-case strings alone,
      so lower-casing twice is lower-casing once. */
  lemma ToLowerNormalises(s: string)
    ensures IsLower(ToLower(s))
    ensures IsLower(s) ==> ToLower(s) == s
    ensures ToLower(ToLower(s)) == ToLower(s)
  {
    var t := ToLower(s);
    assert IsLower(s) ==> ToLower(s) == s by {
      if IsLower(s) {
        assert forall i :: 0 <= i < |s| ==> t[i] == s[i];
      }
    }
    assert forall i :: 0 <= i < |t| ==> ToLower(t)[i] == t[i];
  }

  /** The identifier the database hands out for the n-th created document.
      Only freshness matters: the n-th identifier is longer than every earlier one. */
  function IdOf(n: nat): (id: Id)
    ensures |id| == n + 1
  {
    seq(n + 1, _ => 'i')
  }
}
