/** Database queries that return at most a fixed number of rows. */
module Pages {
  import opened Cardinality

  /** The first rows of a query ordered by date, newest first. */
  ghost predicate IsPage<K>(dates: map<K, int>, limit: nat, page: seq<K>) {
    && |page| == (if |dates| < limit then |dates| else limit)
    && (forall i, j :: 0 <= i < j < |page| ==> page[i] != page[j])
    && (forall k :: k in page ==> k in dates)
    && (forall i, j :: 0 <= i < j < |page| ==> dates[page[i]] >= dates[page[j]])
    && (forall i, k :: 0 <= i < |page| && k in dates && k !in page ==> dates[page[i]] >= dates[k])
  }

  lemma {:induction false} NewestExists<K>(dates: map<K, int>, rest: set<K>)
    requires rest != {} && rest <= dates.Keys
    ensures exists k :: k in rest && forall j :: j in rest ==> dates[k] >= dates[j]
  {
    var x :| x in rest;
    if rest != {x} {
      NewestExists(dates, rest - {x});
      var y :| y in rest - {x} && forall j :: j in rest - {x} ==> dates[y] >= dates[j];
      var z := if dates[x] > dates[y] then x else y;
      assert z in rest && forall j :: j in rest ==> dates[z] >= dates[j];
    } else {
      assert forall j :: j in rest ==> dates[x] >= dates[j];
    }
  }

  /** Rows in descending order of date, at most the limit; ties come in any order. */
  method FetchPage<K(==)>(dates: map<K, int>, limit: nat) returns (page: seq<K>)
    ensures IsPage(dates, limit, page)
  {
    page := [];
    var rest := dates.Keys;
    while rest != {} && |page| < limit
      invariant |page| <= limit && |page| + |rest| == |dates|
      invariant forall k :: k in page || k in rest <==> k in dates
      invariant forall k :: k in rest ==> k !in page
      invariant forall i, j :: 0 <= i < j < |page| ==> page[i] != page[j]
      invariant forall i, j :: 0 <= i < j < |page| ==> dates[page[i]] >= dates[page[j]]
      invariant forall i, k :: 0 <= i < |page| && k in rest ==> dates[page[i]] >= dates[k]
      decreases rest
    {
      NewestExists(dates, rest);
      var k :| k in rest && forall j :: j in rest ==> dates[k] >= dates[j];
      rest := rest - {k};
      page := page + [k];
    }
  }

  /** An untruncated page holds every row. */
  lemma {:induction false} PageIsComplete<K>(dates: map<K, int>, limit: nat, page: seq<K>, k: K)
    requires IsPage(dates, limit, page) && |dates| <= limit && k in dates
    ensures k in page
  {
    DistinctCard(page);
    var seen := set j | j in page;
    if k !in page {
      assert seen <= dates.Keys - {k};
      SubsetCard(seen, dates.Keys - {k});
    }
  }

  /** A query without an order: every row ties. */
  function Unordered<K>(rows: set<K>): map<K, int> {
    map k | k in rows :: 0
  }
}
