/** Sizes of sets. */
module Cardinality {

  lemma {:induction false} DistinctCard<K>(page: seq<K>)
    requires forall i, j :: 0 <= i < j < |page| ==> page[i] != page[j]
    ensures |set j | j in page| == |page|
  {
    if page != [] {
      var n := |page| - 1;
      DistinctCard(page[..n]);
      assert (set j | j in page) == (set j | j in page[..n]) + {page[n]};
    }
  }

  lemma {:induction false} SubsetCard<K>(a: set<K>, b: set<K>)
    requires a <= b
    ensures |a| <= |b|
  {
    assert b == a + (b - a);
  }
}
