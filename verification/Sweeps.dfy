/** The order in which a sweep visits the keys of a table. */
module Sweeps {
  predicate Increasing(s: seq<nat>) { forall i, j :: 0 <= i < j < |s| ==> s[i] < s[j] }

  lemma IncreasingExtends(s: seq<nat>, x: nat)
    requires Increasing(s) && forall y :: y in s ==> y < x
    ensures Increasing(s + [x])
  {
    forall i, j | 0 <= i < j < |s| + 1 ensures (s + [x])[i] < (s + [x])[j] {
      assert s[i] in s;
    }
  }

  method Least(ids: set<nat>) returns (least: nat)
    requires ids != {}
    ensures least in ids && forall y :: y in ids ==> least <= y
  {
    least :| least in ids;
    var rest := ids - {least};
    while rest != {}
      invariant least in ids && rest <= ids
      invariant forall y :: y in ids ==> y in rest || least <= y
      decreases |rest|
    {
      var x :| x in rest;
      least, rest := if x < least then x else least, rest - {x};
    }
  }

  /** The elements of a set in increasing order, each once. */
  method SortedIds(ids: set<nat>) returns (s: seq<nat>)
    ensures Increasing(s)
    ensures forall x :: x in s <==> x in ids
  {
    hide Increasing;
    s := [];
    var rest := ids;
    assert Increasing(s) by { Empty(); }
    while rest != {}
      invariant Increasing(s)
      invariant rest <= ids
      invariant forall x :: x in s <==> x in ids && x !in rest
      invariant forall y, x :: y in s && x in rest ==> y < x
      decreases |rest|
    {
      var x := Least(rest);
      IncreasingExtends(s, x);
      s := s + [x];
      rest := rest - {x};
    }
  }

  lemma FirstTwoDiffer(s: seq<nat>)
    requires Increasing(s) && |s| >= 2
    ensures s[0] != s[1]
  {}

  lemma Empty()
    ensures Increasing([])
  {}
}
