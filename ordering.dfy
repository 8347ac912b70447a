/** Orders used by the backend's queries: `.sort({field: 1})`, `.sort({field: -1})`
    and the comparison sort the event controller runs on merged lists. */
module Ordering {

  /** `1` (ascending) or `-1` (descending) in a sort specification. */
  datatype Direction = Ascending | Descending

  /** `a` may stand before `b` in direction `d`. */
  predicate InOrder(d: Direction, a: int, b: int) {
    match d
    case Ascending => a <= b
    case Descending => a >= b
  }

  /** `a` must stand before `b` in direction `d` (strictly earlier key). */
  predicate StrictlyBefore(d: Direction, a: int, b: int) {
    match d
    case Ascending => a < b
    case Descending => a > b
  }

  /** The keys of `s` follow direction `d` from left to right. */
  ghost predicate SortedBy<T>(s: seq<T>, key: T -> int, d: Direction) {
    forall i, j :: 0 <= i < j < |s| ==> InOrder(d, key(s[i]), key(s[j]))
  }

  /** Inserts `x` into the sorted sequence `s` after every element it does not
      strictly precede, which keeps equal keys in arrival order. */
  function InsertBy<T>(x: T, s: seq<T>, key: T -> int, d: Direction): (r: seq<T>)
    requires SortedBy(s, key, d)
    ensures SortedBy(r, key, d)
    ensures multiset(r) == multiset(s) + multiset{x}
    ensures |r| == |s| + 1
  {
    if s == [] then [x]
    else if StrictlyBefore(d, key(x), key(s[0])) then
      assert forall j :: 0 <= j < |s| ==> InOrder(d, key(x), key(s[j])) by {
        forall j | 0 <= j < |s| ensures InOrder(d, key(x), key(s[j])) {
          if j > 0 { assert InOrder(d, key(s[0]), key(s[j])); }
        }
      }
      assert ([x] + s)[1..] == s;
      [x] + s
    else
      var rest := InsertBy(x, s[1..], key, d);
      assert s == [s[0]] + s[1..];
      assert forall y :: y in multiset(rest) ==> InOrder(d, key(s[0]), key(y)) by {
        forall y | y in multiset(rest) ensures InOrder(d, key(s[0]), key(y)) {
          if y != x {
            assert y in multiset(s[1..]);
            var j :| 0 <= j < |s[1..]| && s[1..][j] == y;
            assert s[j + 1] == y;
          }
        }
      }
      assert forall j :: 0 <= j < |rest| ==> InOrder(d, key(s[0]), key(rest[j])) by {
        forall j | 0 <= j < |rest| ensures InOrder(d, key(s[0]), key(rest[j])) {
          assert rest[j] in multiset(rest);
        }
      }
      assert ([s[0]] + rest)[1..] == rest;
      [s[0]] + rest
  }

  /** `Array.prototype.sort` with a key comparator, modelled on values: the result
      is ordered by `key` in direction `d` and is a permutation of `s`. */
  method SortBy<T>(s: seq<T>, key: T -> int, d: Direction) returns (r: seq<T>)
    ensures SortedBy(r, key, d)
    ensures multiset(r) == multiset(s)
  {
    r := [];
    var i := 0;
    while i < |s|
      invariant 0 <= i <= |s|
      invariant SortedBy(r, key, d)
      invariant multiset(r) == multiset(s[..i])
    {
      r := InsertBy(s[i], r, key, d);
      assert s[..i + 1] == s[..i] + [s[i]];
      i := i + 1;
    }
    assert s[..|s|] == s;
  }

  /** `Array.prototype.filter`: keeps, in order, the elements satisfying `p`. */
  function Filter<T(!new)>(s: seq<T>, p: T -> bool): (r: seq<T>)
    ensures forall x :: multiset(r)[x] == if p(x) then multiset(s)[x] else 0
    ensures forall x :: x in r <==> x in s && p(x)
  {
    if s == [] then []
    else
      assert s == [s[0]] + s[1..];
      if p(s[0]) then [s[0]] + Filter(s[1..], p) else Filter(s[1..], p)
  }
}
