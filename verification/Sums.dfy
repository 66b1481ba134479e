/** Sums over the rows of a table.  The weight of a row may depend on a parameter, such
    as the account a row is about. */
module Sums {

  /** Some key, depending on the set of keys alone. */
  ghost function Pick<K(!new)>(keys: set<K>): K
    requires keys != {}
  {
    var k :| k in keys; k
  }

  ghost function Sum<P(!new), K(!new), V(!new)>(m: map<K, V>, f: (P, K, V) -> int, p: P): int
    decreases |m|
  {
    if m == map[] then 0
    else
      var k := Pick(m.Keys);
      f(p, k, m[k]) + Sum(m - {k}, f, p)
  }

  /** Any row may be taken out first. */
  lemma {:induction false} SumRemove<P(!new), K(!new), V(!new)>(m: map<K, V>, f: (P, K, V) -> int, p: P, k: K)
    requires k in m
    ensures Sum(m, f, p) == f(p, k, m[k]) + Sum(m - {k}, f, p)
    decreases |m|
  {
    var j := Pick(m.Keys);
    if j != k {
      SumRemove(m - {j}, f, p, k);
      SumRemove(m - {k}, f, p, j);
      assert m - {j} - {k} == m - {k} - {j};
    }
  }

  /** Writing one row changes the sum by that row alone. */
  lemma SumPut<P(!new), K(!new), V(!new)>(m: map<K, V>, f: (P, K, V) -> int, p: P, k: K, v: V)
    ensures Sum(m[k := v], f, p) == Sum(m, f, p) + f(p, k, v) - (if k in m then f(p, k, m[k]) else 0)
  {
    SumRemove(m[k := v], f, p, k);
    assert m[k := v] - {k} == m - {k};
    if k in m {
      SumRemove(m, f, p, k);
    } else {
      assert m - {k} == m;
    }
  }

  /** The sum depends on the weights of the rows present. */
  lemma {:induction false} SumAgree<P(!new), K(!new), V(!new)>(m: map<K, V>, f: (P, K, V) -> int, p: P, q: P)
    requires forall k :: k in m ==> f(p, k, m[k]) == f(q, k, m[k])
    ensures Sum(m, f, p) == Sum(m, f, q)
    decreases |m|
  {
    if m != map[] {
      var k :| k in m;
      SumRemove(m, f, p, k);
      SumRemove(m, f, q, k);
      SumAgree(m - {k}, f, p, q);
    }
  }

  lemma {:induction false} SumZero<P(!new), K(!new), V(!new)>(m: map<K, V>, f: (P, K, V) -> int, p: P)
    requires forall k :: k in m ==> f(p, k, m[k]) == 0
    ensures Sum(m, f, p) == 0
    decreases |m|
  {
    if m != map[] {
      var k :| k in m;
      SumRemove(m, f, p, k);
      SumZero(m - {k}, f, p);
    }
  }

  /** With non-negative weights no row outweighs the whole. */
  lemma {:induction false} SumBounds<P(!new), K(!new), V(!new)>(m: map<K, V>, f: (P, K, V) -> int, p: P)
    requires forall k :: k in m ==> 0 <= f(p, k, m[k])
    ensures 0 <= Sum(m, f, p)
    ensures forall k :: k in m ==> f(p, k, m[k]) <= Sum(m, f, p)
    decreases |m|
  {
    if m != map[] {
      forall k | k in m
        ensures 0 <= Sum(m - {k}, f, p) && f(p, k, m[k]) <= Sum(m, f, p)
      {
        SumRemove(m, f, p, k);
        SumBounds(m - {k}, f, p);
      }
      var k :| k in m;
      assert f(p, k, m[k]) <= Sum(m, f, p);
    }
  }

  /** A sum of sums is the sum of the sums. */
  lemma {:induction false} SumSplit<P(!new), Q(!new), R(!new), K(!new), V(!new)>(
      m: map<K, V>, f: (P, K, V) -> int, p: P, g: (Q, K, V) -> int, q: Q, h: (R, K, V) -> int, r: R)
    requires forall k :: k in m ==> f(p, k, m[k]) == g(q, k, m[k]) + h(r, k, m[k])
    ensures Sum(m, f, p) == Sum(m, g, q) + Sum(m, h, r)
    decreases |m|
  {
    if m != map[] {
      var k :| k in m;
      SumRemove(m, f, p, k);
      SumRemove(m, g, q, k);
      SumRemove(m, h, r, k);
      SumSplit(m - {k}, f, p, g, q, h, r);
    }
  }

  /** Smaller weights have a smaller sum. */
  lemma {:induction false} SumLess<P(!new), Q(!new), K(!new), V(!new)>(
      m: map<K, V>, f: (P, K, V) -> int, p: P, g: (Q, K, V) -> int, q: Q)
    requires forall k :: k in m ==> f(p, k, m[k]) <= g(q, k, m[k])
    ensures Sum(m, f, p) <= Sum(m, g, q)
    decreases |m|
  {
    if m != map[] {
      var k :| k in m;
      SumRemove(m, f, p, k);
      SumRemove(m, g, q, k);
      SumLess(m - {k}, f, p, g, q);
    }
  }

  /** A single row that weighs anything is the whole sum. */
  lemma SumSpike<P(!new), K(!new), V(!new)>(m: map<K, V>, f: (P, K, V) -> int, p: P, k: K)
    requires k in m && forall j :: j in m && j != k ==> f(p, j, m[j]) == 0
    ensures Sum(m, f, p) == f(p, k, m[k])
  {
    SumRemove(m, f, p, k);
    SumZero(m - {k}, f, p);
  }
}
