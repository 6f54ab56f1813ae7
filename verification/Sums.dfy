/** Sums over the values of a finite map. */
module Sums {

  ghost function Total<K(!new)>(m: map<K, int>): int
    decreases |m|
  {
    if m == map[] then 0
    else
      var k :| k in m;
      assert |(m - {k}).Keys| == |m.Keys - {k}|;
      m[k] + Total(m - {k})
  }

  ghost function At<K(!new)>(m: map<K, int>, k: K): int {
    if k in m then m[k] else 0
  }

  /** Which key is taken out first does not matter. */
  lemma {:induction false} TotalSplit<K(!new)>(m: map<K, int>, k: K)
    requires k in m
    ensures Total(m) == m[k] + Total(m - {k})
    decreases |m|
  {
    var x :| x in m && Total(m) == m[x] + Total(m - {x});
    if x != k {
      assert |(m - {x}).Keys| == |m.Keys - {x}|;
      assert |(m - {k}).Keys| == |m.Keys - {k}|;
      TotalSplit(m - {x}, k);
      TotalSplit(m - {k}, x);
      assert m - {x} - {k} == m - {k} - {x};
    }
  }

  lemma TotalUpdate<K(!new)>(m: map<K, int>, k: K, v: int)
    ensures Total(m[k := v]) == Total(m) - At(m, k) + v
  {
    TotalSplit(m[k := v], k);
    assert m[k := v] - {k} == m - {k};
    if k in m {
      TotalSplit(m, k);
    } else {
      assert m - {k} == m;
    }
  }

  lemma {:induction false} TotalMonotone<K(!new)>(m: map<K, int>, n: map<K, int>)
    requires m.Keys == n.Keys
    requires forall k :: k in m ==> m[k] <= n[k]
    ensures Total(m) <= Total(n)
    decreases |m|
  {
    if m != map[] {
      var k :| k in m;
      assert |(m - {k}).Keys| == |m.Keys - {k}|;
      TotalSplit(m, k);
      TotalSplit(n, k);
      TotalMonotone(m - {k}, n - {k});
    } else {
      assert n == map[];
    }
  }

  lemma {:induction false} TotalNonNegative<K(!new)>(m: map<K, int>)
    requires forall k :: k in m ==> 0 <= m[k]
    ensures 0 <= Total(m)
    ensures forall k :: k in m ==> m[k] <= Total(m)
    decreases |m|
  {
    forall k | k in m
      ensures 0 <= m[k] <= Total(m)
    {
      assert |(m - {k}).Keys| == |m.Keys - {k}|;
      TotalSplit(m, k);
      TotalNonNegative(m - {k});
    }
    if m == map[] {
    } else {
      var k :| k in m;
      assert m[k] <= Total(m);
    }
  }

  lemma {:induction false} TotalZero<K(!new)>(m: map<K, int>)
    requires forall k :: k in m ==> m[k] == 0
    ensures Total(m) == 0
    decreases |m|
  {
    if m != map[] {
      var k :| k in m;
      assert |(m - {k}).Keys| == |m.Keys - {k}|;
      TotalSplit(m, k);
      TotalZero(m - {k});
    }
  }

  /** More keys, and more under each key, is more in all. */
  lemma {:induction false} TotalWiden<K(!new)>(m: map<K, int>, n: map<K, int>)
    requires m.Keys <= n.Keys
    requires forall k :: k in m ==> m[k] <= n[k]
    requires forall k :: k in n ==> 0 <= n[k]
    ensures Total(m) <= Total(n)
    decreases |m|
  {
    if m == map[] {
      TotalNonNegative(n);
    } else {
      var k :| k in m;
      assert |(m - {k}).Keys| == |m.Keys - {k}|;
      TotalSplit(m, k);
      TotalSplit(n, k);
      TotalWiden(m - {k}, n - {k});
    }
  }
}
