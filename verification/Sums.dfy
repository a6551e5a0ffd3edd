/** Sums over finite maps, the currency of every accounting argument. */
module Sums {

  ghost function Sum<K>(m: map<K, nat>): nat
    decreases |m|
  {
    if m == map[] then 0
    else
      var k :| k in m;
      m[k] + Sum(m - {k})
  }

  /** Any key may be taken out first. */
  lemma {:induction false} SumRemove<K>(m: map<K, nat>, k: K)
    requires k in m
    ensures Sum(m) == m[k] + Sum(m - {k})
    decreases |m|
  {
    var j :| j in m && Sum(m) == m[j] + Sum(m - {j});
    if j != k {
      SumRemove(m - {j}, k);
      SumRemove(m - {k}, j);
      assert (m - {j}) - {k} == (m - {k}) - {j};
    }
  }

  lemma SumPut<K>(m: map<K, nat>, k: K, v: nat)
    ensures Sum(m[k := v]) == Sum(m - {k}) + v
    ensures Sum(m[k := v]) + (if k in m then m[k] else 0) == Sum(m) + v
  {
    SumRemove(m[k := v], k);
    assert m[k := v] - {k} == m - {k};
    if k in m {
      SumRemove(m, k);
    } else {
      assert m - {k} == m;
    }
  }

  /** A map whose values are all zero sums to zero. */
  lemma {:induction false} SumOfZeros<K>(m: map<K, nat>)
    requires forall k | k in m :: m[k] == 0
    ensures Sum(m) == 0
    decreases |m|
  {
    if m == map[] {
    } else {
      var k :| k in m;
      SumRemove(m, k);
      SumOfZeros(m - {k});
    }
  }

  /** A sum splits along any set of keys. */
  lemma {:induction false} SumSplit<K>(m: map<K, nat>, keys: set<K>)
    ensures Sum(m) == Sum(m - keys) + Sum(map k | k in m && k in keys :: m[k])
    decreases |m|
  {
    var inside := map k | k in m && k in keys :: m[k];
    if inside == map[] {
      assert forall k :: k in m && k in keys ==> k in inside;
      assert m - keys == m;
    } else {
      var k :| k in inside;
      var rest := m - {k};
      SumSplit(rest, keys);
      SumRemove(m, k);
      SumRemove(inside, k);
      assert rest - keys == m - keys;
      assert (map j | j in rest && j in keys :: rest[j]) == inside - {k};
    }
  }

  lemma SumUnion<K>(m: map<K, nat>, n: map<K, nat>)
    requires m.Keys !! n.Keys
    ensures Sum(m + n) == Sum(m) + Sum(n)
  {
    SumSplit(m + n, n.Keys);
    assert m + n - n.Keys == m;
    assert (map k | k in m + n && k in n.Keys :: (m + n)[k]) == n;
  }

  /** If `h` sends the keys of `f` with something in them injectively into `g` without decreasing values, `f` sums to no more than `g`. */
  lemma {:induction false} SumInjection<K, L>(f: map<K, nat>, g: map<L, nat>, h: map<K, L>)
    requires forall k | k in f && f[k] > 0 :: k in h && h[k] in g && f[k] <= g[h[k]]
    requires forall j, k | j in f && k in f && f[j] > 0 && f[k] > 0 && h[j] == h[k] :: j == k
    ensures Sum(f) <= Sum(g)
    decreases |f|
  {
    if f == map[] {
    } else {
      var k :| k in f;
      SumRemove(f, k);
      if f[k] == 0 {
        SumInjection(f - {k}, g, h);
      } else {
        SumRemove(g, h[k]);
        SumInjection(f - {k}, g - {h[k]}, h);
      }
    }
  }
}
