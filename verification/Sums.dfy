/** Totals over finite maps and sequences: the accounting the request store's capacity limits rest on. */
module Sums {

  /** The sum of all values of a finite map. */
  ghost function Total<K>(weights: map<K, int>): (total: int)
    decreases |weights|
  {
    if weights == map[] then 0
    else
      var k :| k in weights;
      weights[k] + Total(weights - {k})
  }

  /** Any key may be taken out first. */
  lemma {:induction false} TotalSplit<K>(weights: map<K, int>, key: K)
    requires key in weights
    ensures Total(weights) == weights[key] + Total(weights - {key})
    decreases |weights|
  {
    var k :| k in weights && Total(weights) == weights[k] + Total(weights - {k});
    if k != key {
      TotalSplit(weights - {k}, key);
      TotalSplit(weights - {key}, k);
      assert weights - {k} - {key} == weights - {key} - {k};
    }
  }

  lemma TotalUpdate<K>(weights: map<K, int>, key: K, value: int)
    ensures Total(weights[key := value])
         == Total(weights) - (if key in weights then weights[key] else 0) + value
  {
    var updated := weights[key := value];
    TotalSplit(updated, key);
    if key in weights {
      TotalSplit(weights, key);
    } else {
      assert weights - {key} == weights;
    }
    assert updated - {key} == weights - {key};
  }

  /** A map with a smaller domain and pointwise smaller values over it has a smaller total. */
  lemma {:induction false} TotalMonotone<K>(small: map<K, int>, large: map<K, int>)
    requires small.Keys <= large.Keys
    requires forall k | k in small :: small[k] <= large[k]
    requires forall k | k in large :: large[k] >= 0
    ensures Total(small) <= Total(large)
    decreases |large|
  {
    if large == map[] {
      assert small == map[];
    } else {
      var k :| k in large;
      TotalSplit(large, k);
      if k in small {
        TotalSplit(small, k);
        TotalMonotone(small - {k}, large - {k});
      } else {
        TotalMonotone(small, large - {k});
      }
    }
  }

  function SumOf(sizes: seq<nat>): (total: nat) {
    if sizes == [] then 0 else sizes[0] + SumOf(sizes[1..])
  }

  /** The running total a loop keeps: one more element adds exactly its size. */
  lemma {:induction false} SumOfPrefix(sizes: seq<nat>, n: nat)
    requires n < |sizes|
    ensures SumOf(sizes[..n + 1]) == SumOf(sizes[..n]) + sizes[n]
  {
    if n == 0 {
      assert sizes[..1][1..] == [];
    } else {
      SumOfPrefix(sizes[1..], n - 1);
      assert sizes[..n + 1][1..] == sizes[1..][..n];
      assert sizes[..n][1..] == sizes[1..][..n - 1];
    }
  }
}
