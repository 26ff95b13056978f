/** Small facts about sets of keys, used by the loops that iterate over dictionaries. */
module Collections {

  lemma EmptyIfNoKey(s: set<int>)
    requires forall x :: x !in s
    ensures s == {}
  {
    var empty: set<int> := {};
    assert forall x :: x in s <==> x in empty;
  }

  /** A non-empty set has an element, so `var x :| x in s` can pick one. */
  lemma NonEmptyHasKey(s: set<int>)
    requires s != {}
    ensures exists x :: x in s
  {
    if forall x :: x !in s {
      EmptyIfNoKey(s);
      assert false;
    }
  }

  predicate Distinct(s: seq<int>) {
    forall i, j :: 0 <= i < j < |s| ==> s[i] != s[j]
  }

  /** A list made of the elements of a set, each once, in an unspecified order. */
  method SetToSeq(s: set<int>) returns (r: seq<int>)
    ensures forall x :: x in r <==> x in s
    ensures Distinct(r)
    ensures |r| == |s|
  {
    r := [];
    var remaining := s;
    while remaining != {}
      invariant remaining <= s
      invariant forall x :: x in r <==> x in s && x !in remaining
      invariant Distinct(r)
      invariant |r| + |remaining| == |s|
      decreases remaining
    {
      NonEmptyHasKey(remaining);
      var x :| x in remaining;
      r := r + [x];
      remaining := remaining - {x};
    }
  }

  /** `min(s)`: the least element of a non-empty set. */
  method Min(s: set<int>) returns (m: int)
    requires s != {}
    ensures m in s
    ensures forall x :: x in s ==> m <= x
  {
    NonEmptyHasKey(s);
    var first :| first in s;
    m := first;
    var remaining := s - {first};
    while remaining != {}
      invariant remaining <= s
      invariant m in s
      invariant forall x :: x in s && x !in remaining ==> m <= x
      decreases remaining
    {
      NonEmptyHasKey(remaining);
      var x :| x in remaining;
      if x < m {
        m := x;
      }
      remaining := remaining - {x};
    }
  }
}
