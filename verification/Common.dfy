/** Failure types, and sums over finite tables, shared by the models. */
module Common {

  datatype Option<+T> = None | Some(value: T)

  datatype Result<+T, +E> = Ok(value: T) | Err(error: E)

  function Min(a: int, b: int): int {
    if a <= b then a else b
  }

  /** SQL's `coalesce(sum(f(row)), 0)` over the rows of a table. */
  ghost function SumBy<K, V>(m: map<K, V>, f: V -> nat): nat
    decreases |m|
  {
    if m == map[] then 0 else
      var k :| k in m;
      assert |(m - {k}).Keys| == |m.Keys| - 1 by { assert (m - {k}).Keys == m.Keys - {k}; }
      f(m[k]) + SumBy(m - {k}, f)
  }

  /** A sum does not depend on the order in which the rows are visited. */
  lemma {:induction false} SumByRemove<K, V>(m: map<K, V>, f: V -> nat, k: K)
    requires k in m
    ensures SumBy(m, f) == f(m[k]) + SumBy(m - {k}, f)
    decreases |m|
  {
    assert (m - {k}).Keys == m.Keys - {k};
    var j :| j in m && SumBy(m, f) == f(m[j]) + SumBy(m - {j}, f);
    if j != k {
      assert (m - {j}).Keys == m.Keys - {j};
      assert |(m - {j}).Keys| < |m.Keys|;
      assert |(m - {k}).Keys| < |m.Keys|;
      SumByRemove(m - {j}, f, k);
      SumByRemove(m - {k}, f, j);
      assert m - {j} - {k} == m - {k} - {j};
    }
  }

  lemma SumByInsert<K, V>(m: map<K, V>, f: V -> nat, k: K, v: V)
    requires k !in m
    ensures SumBy(m[k := v], f) == SumBy(m, f) + f(v)
  {
    SumByRemove(m[k := v], f, k);
    assert m[k := v] - {k} == m;
  }

  lemma SumByUpdate<K, V>(m: map<K, V>, f: V -> nat, k: K, v: V)
    requires k in m
    ensures SumBy(m[k := v], f) + f(m[k]) == SumBy(m, f) + f(v)
  {
    SumByRemove(m, f, k);
    SumByRemove(m[k := v], f, k);
    assert m[k := v] - {k} == m - {k};
  }

  /** A sum over fewer rows is no larger. */
  lemma {:induction false} SumBySubset<K, V>(a: map<K, V>, b: map<K, V>, f: V -> nat)
    requires a.Keys <= b.Keys && forall k :: k in a ==> a[k] == b[k]
    ensures SumBy(a, f) <= SumBy(b, f)
    decreases |a|
  {
    if a != map[] {
      var k :| k in a;
      SumByRemove(a, f, k);
      SumByRemove(b, f, k);
      assert (a - {k}).Keys == a.Keys - {k};
      assert |(a - {k}).Keys| < |a.Keys|;
      SumBySubset(a - {k}, b - {k}, f);
    }
  }
}
