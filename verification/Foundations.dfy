/** Shared vocabulary: optional values, and sums over the values of a finite map.

    The service adds up map values in iteration order (`for (const r of map.values())`).
    `Total` picks the keys in some unspecified order, and `TotalRemove` shows that the
    order cannot matter, which is what lets a loop be compared with a sum. */
module Foundations {

  datatype Option<+T> = None | Some(value: T)

  ghost function Total<K(!new)>(m: map<K, int>): int
    decreases |m|
  {
    if m == map[] then 0 else
    var k :| k in m;
    assert (m - {k}).Keys == m.Keys - {k};
    m[k] + Total(m - {k})
  }

  lemma {:induction false} TotalRemove<K(!new)>(m: map<K, int>, k: K)
    requires k in m
    ensures Total(m) == m[k] + Total(m - {k})
    decreases |m|
  {
    var j :| j in m && Total(m) == m[j] + Total(m - {j});
    if j != k {
      assert (m - {j}).Keys == m.Keys - {j} && (m - {k}).Keys == m.Keys - {k};
      TotalRemove(m - {j}, k);
      TotalRemove(m - {k}, j);
      assert m - {j} - {k} == m - {k} - {j};
    }
  }

  lemma TotalPut<K(!new)>(m: map<K, int>, k: K, v: int)
    ensures Total(m[k := v]) == Total(m) - (if k in m then m[k] else 0) + v
  {
    TotalRemove(m[k := v], k);
    assert m[k := v] - {k} == m - {k};
    if k in m {
      TotalRemove(m, k);
    } else {
      assert m - {k} == m;
    }
  }

  lemma TotalChange<K(!new)>(m: map<K, int>, m': map<K, int>, k: K)
    requires m'.Keys == m.Keys && k in m && forall j <- m :: j != k ==> m'[j] == m[j]
    ensures Total(m') == Total(m) - m[k] + m'[k]
  {
    assert m' == m[k := m'[k]];
    TotalPut(m, k, m'[k]);
  }

  lemma {:induction false} TotalNonNegative<K(!new)>(m: map<K, int>)
    requires forall k <- m :: m[k] >= 0
    ensures Total(m) >= 0
    ensures forall k <- m :: m[k] <= Total(m)
    decreases |m|
  {
    forall k | k in m
      ensures Total(m) >= m[k] >= 0
    {
      TotalRemove(m, k);
      assert (m - {k}).Keys == m.Keys - {k};
      TotalNonNegative(m - {k});
    }
    if m != map[] {
      var k :| k in m;
      assert m[k] >= 0;
    }
  }
}
