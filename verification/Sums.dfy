/** Sums over finite maps. */
module Sums {

  ghost function SumOver<K(!new)>(m: map<K, int>, keys: set<K>): int
    requires keys <= m.Keys
    decreases |keys|
  {
    if keys == {} then 0
    else
      var k :| k in keys;
      m[k] + SumOver(m, keys - {k})
  }

  ghost function Sum<K(!new)>(m: map<K, int>): int {
    SumOver(m, m.Keys)
  }

  function At<K>(m: map<K, int>, k: K): int {
    if k in m then m[k] else 0
  }

  /** Two tables added key by key. */
  function Added<K>(a: map<K, int>, b: map<K, int>): map<K, int> {
    map k | k in a.Keys + b.Keys :: At(a, k) + At(b, k)
  }

  /** Any key may be counted first. */
  lemma {:induction false} SumPick<K(!new)>(m: map<K, int>, keys: set<K>, k: K)
    requires keys <= m.Keys && k in keys
    ensures SumOver(m, keys) == m[k] + SumOver(m, keys - {k})
    decreases |keys|
  {
    var j :| j in keys && SumOver(m, keys) == m[j] + SumOver(m, keys - {j});
    if j != k {
      SumPick(m, keys - {j}, k);
      SumPick(m, keys - {k}, j);
      assert keys - {j} - {k} == keys - {k} - {j};
    }
  }

  lemma {:induction false} SumSame<K(!new)>(m: map<K, int>, n: map<K, int>, keys: set<K>)
    requires keys <= m.Keys && keys <= n.Keys && forall k :: k in keys ==> m[k] == n[k]
    ensures SumOver(m, keys) == SumOver(n, keys)
    decreases |keys|
  {
    if keys == {} {
    } else {
      var k :| k in keys;
      SumPick(m, keys, k);
      SumPick(n, keys, k);
      SumSame(m, n, keys - {k});
    }
  }

  lemma SumUpdate<K(!new)>(m: map<K, int>, k: K, v: int)
    ensures Sum(m[k := v]) == Sum(m) - At(m, k) + v
  {
    hide SumOver;
    var n := m[k := v];
    SumPick(n, n.Keys, k);
    SumSame(m, n, m.Keys - {k});
    assert n.Keys - {k} == m.Keys - {k};
    if k in m { SumPick(m, m.Keys, k); } else { assert m.Keys - {k} == m.Keys; }
  }

  lemma {:induction false} SumAdded<K(!new)>(a: map<K, int>, b: map<K, int>)
    ensures Sum(Added(a, b)) == Sum(a) + Sum(b)
    decreases |b|
  {
    hide Sum;
    if b == map[] {
      assert Added(a, b) == a;
      SumEmpty(b);
    } else {
      var k :| k in b;
      var rest := b - {k};
      assert b == rest[k := b[k]];
      SumAdded(a, rest);
      SumUpdate(rest, k, b[k]);
      AddedStep(a, rest, k, b[k]);
      SumUpdate(Added(a, rest), k, At(a, k) + b[k]);
    }
  }

  lemma SumEmpty<K(!new)>(m: map<K, int>)
    requires m == map[]
    ensures Sum(m) == 0
  {
  }

  lemma AddedStep<K>(a: map<K, int>, b: map<K, int>, k: K, v: int)
    requires k !in b
    ensures Added(a, b[k := v]) == Added(a, b)[k := At(a, k) + v] && At(Added(a, b), k) == At(a, k)
  {
  }

  lemma ZeroSum<K(!new)>(m: map<K, int>)
    requires forall k :: k in m ==> m[k] == 0
    ensures Sum(m) == 0
  {
    ZeroSumOver(m, m.Keys);
  }

  lemma {:induction false} ZeroSumOver<K(!new)>(m: map<K, int>, keys: set<K>)
    requires keys <= m.Keys && forall k :: k in keys ==> m[k] == 0
    ensures SumOver(m, keys) == 0
    decreases |keys|
  {
    if keys == {} {
    } else {
      var k :| k in keys;
      SumPick(m, keys, k);
      ZeroSumOver(m, keys - {k});
    }
  }
}
