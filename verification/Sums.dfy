/** Sums over the values of a finite map. */
module Sums {
  ghost function Sum<K>(m: map<K, nat>): nat
    decreases |m|
  {
    if m == map[] then 0
    else
      var k :| k in m;
      m[k] + Sum(m - {k})
  }

  lemma {:induction false} SumSplit<K>(m: map<K, nat>, k: K)
    requires k in m
    ensures Sum(m) == m[k] + Sum(m - {k})
    decreases |m|
  {
    var j :| j in m && Sum(m) == m[j] + Sum(m - {j});
    if j != k {
      SumSplit(m - {j}, k);
      SumSplit(m - {k}, j);
      assert m - {j} - {k} == m - {k} - {j};
    }
  }

  /** Replacing one summand changes the sum by the difference. */
  lemma SumPut<K>(m: map<K, nat>, k: K, v: nat)
    ensures Sum(m[k := v]) == Sum(m) + v - (if k in m then m[k] else 0)
  {
    var n := m[k := v];
    SumSplit(n, k);
    assert n - {k} == m - {k};
    if k in m {
      SumSplit(m, k);
    } else {
      assert m - {k} == m;
    }
  }

  lemma {:induction false} AllZero<K>(m: map<K, nat>)
    requires forall k :: k in m ==> m[k] == 0
    ensures Sum(m) == 0
    decreases |m|
  {
    if m != map[] {
      var k :| k in m;
      SumSplit(m, k);
      AllZero(m - {k});
    }
  }

  lemma {:induction false} SumAdds<K>(m: map<K, nat>, n: map<K, nat>, a: map<K, nat>, b: map<K, nat>)
    requires m.Keys == n.Keys == a.Keys == b.Keys && forall k :: k in m ==> m[k] + n[k] == a[k] + b[k]
    ensures Sum(m) + Sum(n) == Sum(a) + Sum(b)
    decreases |m|
  {
    if m != map[] {
      var k :| k in m;
      SumSplit(m, k);
      SumSplit(n, k);
      SumSplit(a, k);
      SumSplit(b, k);
      assert (m - {k}).Keys == (n - {k}).Keys == (a - {k}).Keys == (b - {k}).Keys;
      SumAdds(m - {k}, n - {k}, a - {k}, b - {k});
    } else {
      assert n == map[] && a == map[] && b == map[];
    }
  }

  lemma {:induction false} SumOfTwo<K>(m: map<K, nat>, a: map<K, nat>, b: map<K, nat>)
    requires a.Keys == m.Keys && b.Keys == m.Keys && forall k :: k in m ==> m[k] == a[k] + b[k]
    ensures Sum(m) == Sum(a) + Sum(b)
  {
    var none := map k | k in m :: 0;
    AllZero(none);
    SumAdds(m, none, a, b);
  }

  lemma {:induction false} SumGrows<K>(m: map<K, nat>, n: map<K, nat>)
    requires forall k :: k in m ==> k in n && n[k] >= m[k]
    ensures Sum(n) >= Sum(m)
    decreases |m|
  {
    if m != map[] {
      var k :| k in m;
      SumSplit(m, k);
      SumSplit(n, k);
      SumGrows(m - {k}, n - {k});
    }
  }

  /** Summands of zero may be left out. */
  lemma {:induction false} SumDropsZeros<K>(m: map<K, nat>, keys: set<K>)
    requires keys <= m.Keys && forall k :: k in m && k !in keys ==> m[k] == 0
    ensures Sum(m) == Sum(map k | k in keys :: m[k])
    decreases |m|
  {
    var part := map k | k in keys :: m[k];
    if m != map[] {
      var k :| k in m;
      SumSplit(m, k);
      SumDropsZeros(m - {k}, keys - {k});
      assert (map j | j in keys - {k} :: (m - {k})[j]) == part - {k};
      if k in keys {
        SumSplit(part, k);
      } else {
        assert part - {k} == part;
      }
    } else {
      assert part == map[];
    }
  }
}
