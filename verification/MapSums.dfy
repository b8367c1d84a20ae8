/** Sums over the values of a finite map. */
module MapSums {

  ghost function MapSum<K>(m: map<K, int>): int
    decreases |m.Keys|
  {
    if m.Keys == {} then 0
    else
      var k :| k in m.Keys;
      SmallerKeys(m, k);
      m[k] + MapSum(m - {k})
  }

  lemma SmallerKeys<K>(m: map<K, int>, k: K)
    requires k in m.Keys
    ensures |(m - {k}).Keys| < |m.Keys|
  {
    assert (m - {k}).Keys == m.Keys - {k};
  }

  /** The sum does not depend on which value is taken first. */
  lemma {:induction false} MapSumPick<K>(m: map<K, int>, k: K)
    requires k in m.Keys
    ensures MapSum(m) == m[k] + MapSum(m - {k})
    decreases |m.Keys|
  {
    var first :| first in m.Keys && MapSum(m) == m[first] + MapSum(m - {first});
    if first != k {
      SmallerKeys(m, first);
      SmallerKeys(m, k);
      MapSumPick(m - {first}, k);
      MapSumPick(m - {k}, first);
      assert m - {first} - {k} == m - {k} - {first};
    }
  }

  function Added<K>(m: map<K, int>, k: K, x: int): map<K, int> {
    m[k := (if k in m then m[k] else 0) + x]
  }

  lemma {:induction false} MapSumAdded<K>(m: map<K, int>, k: K, x: int)
    ensures MapSum(Added(m, k, x)) == MapSum(m) + x
  {
    var m' := Added(m, k, x);
    MapSumPick(m', k);
    assert m' - {k} == m - {k};
    if k in m { MapSumPick(m, k); } else { assert m - {k} == m; }
  }
}
