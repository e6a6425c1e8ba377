/** In-memory stand-ins for the query sets the services build: filtering and updating a
    table held as a sequence, in table order. */
module Seqs {

  /** The elements of `s` satisfying `p`, in their order in `s`: a `filter(...)` query. */
  function Filter<T>(s: seq<T>, p: T -> bool): (r: seq<T>)
    ensures |r| <= |s|
    ensures forall x :: x in r ==> x in s && p(x)
    ensures forall x :: x in s && p(x) ==> x in r
  {
    if s == [] then []
    else if p(s[0]) then [s[0]] + Filter(s[1..], p)
    else Filter(s[1..], p)
  }

  /** The ranks of the elements strictly increase along `s`. */
  predicate Ordered<T>(s: seq<T>, rank: T -> int) {
    forall i, j :: 0 <= i < j < |s| ==> rank(s[i]) < rank(s[j])
  }

  lemma OrderedCons<T>(x: T, s: seq<T>, rank: T -> int)
    requires Ordered(s, rank)
    requires forall y :: y in s ==> rank(x) < rank(y)
    ensures Ordered([x] + s, rank)
  {
    var r := [x] + s;
    forall i, j | 0 <= i < j < |r|
      ensures rank(r[i]) < rank(r[j])
    {
      assert r[j] == s[j - 1];
      if i > 0 {
        assert r[i] == s[i - 1];
      }
    }
  }

  /** Filtering keeps the order of the elements it keeps. */
  lemma {:induction false} FilterKeepsOrder<T>(s: seq<T>, p: T -> bool, rank: T -> int)
    requires Ordered(s, rank)
    ensures Ordered(Filter(s, p), rank)
  {
    if s != [] {
      var rest := Filter(s[1..], p);
      FilterKeepsOrder(s[1..], p, rank);
      forall y | y in rest
        ensures rank(s[0]) < rank(y)
      {
        var k :| 0 <= k < |s[1..]| && s[1..][k] == y;
        assert s[k + 1] == y;
      }
      if p(s[0]) {
        OrderedCons(s[0], rest, rank);
      }
    }
  }

  /** `f` applied to every element: an `update(...)` over the whole table. */
  function MapAll<T, U>(s: seq<T>, f: T -> U): (r: seq<U>)
    ensures |r| == |s|
    ensures forall i :: 0 <= i < |s| ==> r[i] == f(s[i])
  {
    if s == [] then [] else [f(s[0])] + MapAll(s[1..], f)
  }
}
