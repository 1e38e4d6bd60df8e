// What two components need to know about finite sets and sequences.
module Sets {
  predicate Distinct<T(==)>(xs: seq<T>) {
    forall i, j :: 0 <= i < j < |xs| ==> xs[i] != xs[j]
  }

  lemma TheOne<T>(a: set<T>) returns (x: T)
    requires |a| == 1
    ensures a == {x}
  {
    x :| x in a;
    assert |a - {x}| == 0;
  }

  lemma SubsetSize<T>(a: set<T>, b: set<T>)
    requires a <= b
    ensures |a| <= |b|
  {
    assert b == a + (b - a);
  }
}
