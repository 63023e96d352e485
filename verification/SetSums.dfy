/** Sums of integers over finite sets of row identifiers. */
module SetSums {

  /** The sum of `size[k]` over all `k` in `ids`. */
  ghost function Total<K>(ids: set<K>, size: map<K, int>): int
    requires ids <= size.Keys
  {
    if ids == {} then 0
    else
      var k :| k in ids;
      size[k] + Total(ids - {k}, size)
  }

  lemma {:induction false} TotalRemove<K>(ids: set<K>, size: map<K, int>, k: K)
    requires ids <= size.Keys && k in ids
    ensures Total(ids, size) == size[k] + Total(ids - {k}, size)
    decreases ids
  {
    var first :| first in ids && Total(ids, size) == size[first] + Total(ids - {first}, size);
    if first != k {
      TotalRemove(ids - {first}, size, k);
      TotalRemove(ids - {k}, size, first);
      assert ids - {first} - {k} == ids - {k} - {first};
    }
  }

  lemma TotalInsert<K>(ids: set<K>, size: map<K, int>, k: K)
    requires ids <= size.Keys && k in size && k !in ids
    ensures Total(ids + {k}, size) == Total(ids, size) + size[k]
  {
    TotalRemove(ids + {k}, size, k);
    assert ids + {k} - {k} == ids;
  }

  lemma {:induction false} TotalFrame<K>(ids: set<K>, size: map<K, int>, size': map<K, int>)
    requires ids <= size.Keys && ids <= size'.Keys
    requires forall k :: k in ids ==> size[k] == size'[k]
    ensures Total(ids, size) == Total(ids, size')
    decreases ids
  {
    if ids != {} {
      var k :| k in ids;
      TotalRemove(ids, size, k);
      TotalRemove(ids, size', k);
      TotalFrame(ids - {k}, size, size');
    }
  }

  /** With positive sizes, a sum bounds each of its parts. */
  lemma {:induction false} TotalBounds<K>(ids: set<K>, size: map<K, int>)
    requires ids <= size.Keys
    requires forall k :: k in ids ==> size[k] >= 0
    ensures Total(ids, size) >= 0
    ensures forall k :: k in ids ==> size[k] <= Total(ids, size)
    decreases ids
  {
    if ids != {} {
      forall k | k in ids
        ensures 0 <= size[k] <= Total(ids, size)
      {
        TotalRemove(ids, size, k);
        TotalBounds(ids - {k}, size);
      }
      var k :| k in ids;
    }
  }
}
