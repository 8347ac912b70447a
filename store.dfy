/** The part of a document collection every repository shares: documents kept
    under their identifiers, and a query that returns the documents matching a
    filter in the order of a sort specification (`Model.find(filter).sort(spec)`). */
module Store {
  import opened Common
  import opened Ordering

  /** Every stored document sits under its own identifier. */
  ghost predicate KeyedBy<T>(store: map<Id, T>, idOf: T -> Id) {
    forall k :: k in store ==> idOf(store[k]) == k
  }

  /** `findById`: the document stored under `id`, or null. */
  function Find<T>(store: map<Id, T>, id: Id): (r: Option<T>)
    ensures r.Some? <==> id in store
    ensures r.Some? ==> r.value == store[id]
  {
    if id in store then Some(store[id]) else None
  }

  /** `r` lists every stored document satisfying `keep` exactly once, and nothing else. */
  ghost predicate IsSelection<T(!new)>(store: map<Id, T>, idOf: T -> Id, keep: T -> bool, r: seq<T>) {
    && (forall x :: x in r ==> idOf(x) in store && store[idOf(x)] == x && keep(x))
    && (forall k :: k in store && keep(store[k]) ==> store[k] in r)
    && (forall x :: multiset(r)[x] <= 1)
  }

  /** `find(keep).sort(key: d)`: the matching documents, each once, ordered by `key`.
      Documents with equal keys come back in an unspecified order. */
  method Select<T(!new)>(store: map<Id, T>, idOf: T -> Id, keep: T -> bool, key: T -> int, d: Direction)
    returns (r: seq<T>)
    requires KeyedBy(store, idOf)
    ensures IsSelection(store, idOf, keep, r)
    ensures SortedBy(r, key, d)
  {
    r := [];
    var todo := store.Keys;
    while todo != {}
      invariant todo <= store.Keys
      invariant SortedBy(r, key, d)
      invariant forall x :: x in r ==> idOf(x) in store && idOf(x) !in todo && store[idOf(x)] == x && keep(x)
      invariant forall k :: k in store && k !in todo && keep(store[k]) ==> store[k] in r
      invariant forall x :: multiset(r)[x] <= 1
      decreases |todo|
    {
      var k :| k in todo;
      var doc := store[k];
      if keep(doc) {
        assert doc !in r;
        var before := r;
        r := InsertBy(doc, r, key, d);
        forall x ensures x in r <==> x in before || x == doc {
          assert x in r <==> x in multiset(r);
          assert x in before <==> x in multiset(before);
        }
      }
      todo := todo - {k};
    }
  }

  /** Two selections of the same documents differ only in order. */
  lemma {:induction false} SelectionsArePermutations<T(!new)>(store: map<Id, T>, idOf: T -> Id, keep: T -> bool, r1: seq<T>, r2: seq<T>)
    requires IsSelection(store, idOf, keep, r1)
    requires IsSelection(store, idOf, keep, r2)
    ensures multiset(r1) == multiset(r2)
  {
    forall x ensures multiset(r1)[x] == multiset(r2)[x] {
      if x in r1 || x in r2 {
        assert store[idOf(x)] == x;
        assert x in r1 && x in r2;
      }
    }
  }

  /** Concatenating the results of two queries with disjoint filters, in any order,
      answers the query for either filter. */
  lemma {:induction false} SelectionOfUnion<T(!new)>(store: map<Id, T>, idOf: T -> Id, p: T -> bool, q: T -> bool, keep: T -> bool,
                                                      r1: seq<T>, r2: seq<T>, r: seq<T>)
    requires IsSelection(store, idOf, p, r1) && IsSelection(store, idOf, q, r2)
    requires forall x :: !(p(x) && q(x))
    requires forall x :: keep(x) <==> p(x) || q(x)
    requires multiset(r) == multiset(r1 + r2)
    ensures IsSelection(store, idOf, keep, r)
  {
    forall x ensures x in r <==> x in r1 || x in r2 {
      assert x in r <==> x in multiset(r);
      assert x in r1 + r2 <==> x in multiset(r1 + r2);
    }
    forall x ensures multiset(r)[x] <= 1 {
      assert multiset(r)[x] == multiset(r1)[x] + multiset(r2)[x];
      if x in r1 {
        assert x !in r2;
      }
    }
  }

  /** Filtering a query's result by `q` answers the query for the filter and `q`. */
  lemma {:induction false} FilteredSelection<T(!new)>(store: map<Id, T>, idOf: T -> Id, p: T -> bool, q: T -> bool, keep: T -> bool, r: seq<T>)
    requires IsSelection(store, idOf, p, r)
    requires forall x :: keep(x) <==> p(x) && q(x)
    ensures IsSelection(store, idOf, keep, Filter(r, q))
  {
  }
}
