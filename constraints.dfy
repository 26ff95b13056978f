/**
 * Constraints between parameter groups (whylog/constraints/__init__.py):
 * which groups a constraint relates, and the verification of the contents
 * those groups caught.
 */
module Constraints {

  /** The constraint classes of the module. */
  datatype ConstraintKind = Time | Identical | DifferentValue | ValueDelta | Hetero

  /** A registered constraint: its kind, the (line id, group number) pairs it relates, its parameters. */
  datatype Constraint = Constraint(kind: ConstraintKind, groups: seq<(int, int)>, params: map<string, string>)

  /** `TimeConstraint.verify`: a placeholder that accepts everything. */
  function TimeVerify(groupContents: seq<string>, params: map<string, string>): (r: bool)
    ensures r
  {
    true
  }

  /** Whether every content equals the first. */
  predicate AllEqualFirst(contents: seq<string>)
    requires contents != []
  {
    forall i :: 0 <= i < |contents| ==> contents[i] == contents[0]
  }

  /** `IdenticalConstraint.verify`: false for fewer than two contents, else all equal the first. */
  function IdenticalVerify(groupContents: seq<string>, params: map<string, string>): (r: bool)
    ensures |groupContents| <= 1 ==> !r
    ensures |groupContents| > 1 ==> (r <==> AllEqualFirst(groupContents))
  {
    if |groupContents| <= 1 then false
    else AllEqualFirst(groupContents)
  }

  /** Equal to the first is the same as pairwise equal. */
  lemma IdenticalIsPairwiseEqual(groupContents: seq<string>, params: map<string, string>)
    ensures IdenticalVerify(groupContents, params) <==>
              |groupContents| > 1 &&
              forall i, j :: 0 <= i < |groupContents| && 0 <= j < |groupContents| ==>
                groupContents[i] == groupContents[j]
  {
    if |groupContents| > 1 && IdenticalVerify(groupContents, params) {
      forall i, j | 0 <= i < |groupContents| && 0 <= j < |groupContents|
        ensures groupContents[i] == groupContents[j]
      {
        assert groupContents[i] == groupContents[0] && groupContents[j] == groupContents[0];
      }
    }
  }

  /** The parameters play no part. */
  lemma IdenticalIgnoresParams(groupContents: seq<string>, p: map<string, string>, q: map<string, string>)
    ensures IdenticalVerify(groupContents, p) == IdenticalVerify(groupContents, q)
  {
  }

  /** Reordering the contents does not change the verdict. */
  lemma IdenticalOrderIndependent(a: seq<string>, b: seq<string>, params: map<string, string>)
    requires multiset(a) == multiset(b)
    ensures IdenticalVerify(a, params) == IdenticalVerify(b, params)
  {
    assert |a| == |multiset(a)| == |multiset(b)| == |b|;
    if |a| > 1 {
      IdenticalIsPairwiseEqual(a, params);
      IdenticalIsPairwiseEqual(b, params);
      if IdenticalVerify(a, params) {
        forall i, j | 0 <= i < |b| && 0 <= j < |b| ensures b[i] == b[j] {
          assert b[i] in multiset(a) && b[j] in multiset(a);
          var i' :| 0 <= i' < |a| && a[i'] == b[i];
          var j' :| 0 <= j' < |a| && a[j'] == b[j];
        }
      }
      if IdenticalVerify(b, params) {
        forall i, j | 0 <= i < |a| && 0 <= j < |a| ensures a[i] == a[j] {
          assert a[i] in multiset(b) && a[j] in multiset(b);
          var i' :| 0 <= i' < |b| && b[i'] == a[i];
          var j' :| 0 <= j' < |b| && b[j'] == a[j];
        }
      }
    }
  }

  /** The examples of the constraint tests. */
  lemma IdenticalExamples()
    ensures IdenticalVerify(["comp1", "comp1", "comp1"], map[])
    ensures !IdenticalVerify(["comp1", "hello", "comp1"], map[])
  {
    assert ["comp1", "hello", "comp1"][1] != ["comp1", "hello", "comp1"][0];
  }
}
