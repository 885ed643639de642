/** Finite sums over the entries of a map, and fresh keys. */
module Sums {

  ghost function Pick<K, V>(m: map<K, V>): (k: K)
    requires m != map[]
    ensures k in m
  {
    assert m.Keys != {};
    var k :| k in m.Keys; k
  }

  ghost function Sum<K, V>(m: map<K, V>, f: V -> nat): nat
    decreases |m|
  {
    if m == map[] then 0
    else var k := Pick(m); f(m[k]) + Sum(m - {k}, f)
  }

  /** The order in which entries are picked does not matter. */
  lemma {:induction false} SumRemove<K, V>(m: map<K, V>, f: V -> nat, k: K)
    requires k in m
    ensures Sum(m, f) == f(m[k]) + Sum(m - {k}, f)
    decreases |m|
  {
    var k0 := Pick(m);
    if k != k0 {
      SumRemove(m - {k0}, f, k);
      SumRemove(m - {k}, f, k0);
      assert m - {k0} - {k} == m - {k} - {k0};
    }
  }

  lemma SumUpdate<K, V>(m: map<K, V>, f: V -> nat, k: K, v: V)
    ensures Sum(m[k := v], f) == f(v) + Sum(m - {k}, f)
    ensures k !in m ==> Sum(m[k := v], f) == f(v) + Sum(m, f)
  {
    SumRemove(m[k := v], f, k);
    assert m[k := v] - {k} == m - {k};
    if k !in m {
      assert m - {k} == m;
    }
  }

  /** Giving one key a new value changes the sum by the difference. */
  lemma SumMoves<K, V>(m: map<K, V>, f: V -> nat, k: K, v: V)
    ensures k in m ==> Sum(m[k := v], f) + f(m[k]) == Sum(m, f) + f(v)
    ensures k !in m ==> Sum(m[k := v], f) == Sum(m, f) + f(v)
  {
    SumUpdate(m, f, k, v);
    if k in m {
      SumRemove(m, f, k);
    }
  }

  lemma {:induction false} SumMonotone<K, V>(m: map<K, V>, f: V -> nat, g: V -> nat)
    requires forall k :: k in m ==> f(m[k]) <= g(m[k])
    ensures Sum(m, f) <= Sum(m, g)
    decreases |m|
  {
    if m != map[] {
      SumMonotone(m - {Pick(m)}, f, g);
    }
  }

  lemma {:induction false} SumZero<K, V>(m: map<K, V>, f: V -> nat)
    requires forall k :: k in m ==> f(m[k]) == 0
    ensures Sum(m, f) == 0
    decreases |m|
  {
    if m != map[] {
      SumZero(m - {Pick(m)}, f);
    }
  }

  lemma {:induction false} Bounded(s: set<nat>) returns (b: nat)
    ensures forall k :: k in s ==> k < b
    decreases s
  {
    if s == {} {
      b := 0;
    } else {
      var k :| k in s;
      var rest := Bounded(s - {k});
      b := if k < rest then rest else k + 1;
      forall x | x in s ensures x < b {
        assert x == k || x in s - {k};
      }
    }
  }

  /** A finite map leaves some key unused. */
  lemma FreshKey<V>(m: map<nat, V>) returns (k: nat)
    ensures k !in m
  {
    k := Bounded(m.Keys);
  }
}
