/** Small shared vocabulary: optional values and finite sums of byte figures. */
module Prelude {

  datatype Option<+T> = None | Some(value: T)

  /** The total of all figures in a finite table. */
  ghost function Sum<K(!new)>(w: map<K, nat>): (total: nat)
    decreases |w|
  {
    if w == map[] then 0
    else
      var k :| k in w;
      SmallerWithout(w, k);
      w[k] + Sum(w - {k})
  }

  lemma SmallerWithout<K>(w: map<K, nat>, k: K)
    requires k in w
    ensures |w - {k}| < |w|
  {
    assert (w - {k}).Keys == w.Keys - {k};
  }

  /** Any entry can be taken out of the sum, not only the one the definition happens to pick. */
  lemma {:induction false} SumSplit<K(!new)>(w: map<K, nat>, k: K)
    requires k in w
    ensures Sum(w) == w[k] + Sum(w - {k})
    decreases |w|
  {
    var j :| j in w && Sum(w) == w[j] + Sum(w - {j});
    if j != k {
      SmallerWithout(w, j);
      SmallerWithout(w, k);
      SumSplit(w - {j}, k);
      SumSplit(w - {k}, j);
      assert w - {j} - {k} == w - {k} - {j};
    }
  }

  lemma SumUpdate<K(!new)>(w: map<K, nat>, k: K, v: nat)
    ensures Sum(w[k := v]) == Sum(w) - (if k in w then w[k] else 0) + v
  {
    SumSplit(w[k := v], k);
    assert w[k := v] - {k} == w - {k};
    if k in w {
      SumSplit(w, k);
    } else {
      assert w - {k} == w;
    }
  }

  /** A table that is pointwise no larger, on no more keys, has no larger a sum. */
  lemma {:induction false} SumMono<K(!new)>(v: map<K, nat>, w: map<K, nat>)
    requires forall k :: k in v ==> k in w && v[k] <= w[k]
    ensures Sum(v) <= Sum(w)
    decreases |v|
  {
    if v != map[] {
      var k :| k in v;
      SmallerWithout(v, k);
      SumSplit(v, k);
      SumSplit(w, k);
      SumMono(v - {k}, w - {k});
    }
  }

  /** Splitting a table by a set of keys splits its sum. */
  lemma {:induction false} SumPartition<K(!new)>(w: map<K, nat>, s: set<K>)
    ensures Sum(w) == Sum(w - s) + Sum(map k | k in w && k in s :: w[k])
    decreases |w|
  {
    var inside := map k | k in w && k in s :: w[k];
    if w == map[] {
      assert inside == map[] && w - s == map[];
    } else {
      var k :| k in w;
      SmallerWithout(w, k);
      SumSplit(w, k);
      SumPartition(w - {k}, s);
      if k in s {
        SumSplit(inside, k);
        assert inside - {k} == map j | j in w - {k} && j in s :: (w - {k})[j];
        assert w - {k} - s == w - s;
      } else {
        SumSplit(w - s, k);
        assert w - s - {k} == w - {k} - s;
        assert inside == map j | j in w - {k} && j in s :: (w - {k})[j];
      }
    }
  }
}
