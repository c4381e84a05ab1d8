/** Sums of a measure over the values of a dictionary. */
module MapSum {

  ghost function Sum<V>(m: map<string, V>, f: V -> int): int
    decreases |m|
  {
    if m == map[] then 0
    else
      var k :| k in m;
      f(m[k]) + Sum(m - {k}, f)
  }

  /** Any key can be taken out first. */
  lemma {:induction false} SumPick<V>(m: map<string, V>, f: V -> int, k: string)
    requires k in m
    ensures Sum(m, f) == f(m[k]) + Sum(m - {k}, f)
    decreases |m|
  {
    var j :| j in m && Sum(m, f) == f(m[j]) + Sum(m - {j}, f);
    if j != k {
      SumPick(m - {j}, f, k);
      SumPick(m - {k}, f, j);
      assert m - {j} - {k} == m - {k} - {j};
    }
  }

  lemma SumAdd<V>(m: map<string, V>, f: V -> int, k: string, v: V)
    requires k !in m
    ensures Sum(m[k := v], f) == Sum(m, f) + f(v)
  {
    SumPick(m[k := v], f, k);
    assert m[k := v] - {k} == m;
  }

  lemma SumUpdate<V>(m: map<string, V>, f: V -> int, k: string, v: V)
    requires k in m
    ensures Sum(m[k := v], f) == Sum(m, f) - f(m[k]) + f(v)
  {
    SumPick(m, f, k);
    SumPick(m[k := v], f, k);
    assert m[k := v] - {k} == m - {k};
  }

  /** A non-negative measure bounds each of its terms. */
  lemma {:induction false} SumCovers<V>(m: map<string, V>, f: V -> int, k: string)
    requires k in m && forall x | x in m :: f(m[x]) >= 0
    ensures Sum(m, f) >= f(m[k]) && Sum(m - {k}, f) >= 0
  {
    SumPick(m, f, k);
    SumNonNegative(m - {k}, f);
  }

  lemma {:induction false} SumNonNegative<V>(m: map<string, V>, f: V -> int)
    requires forall x | x in m :: f(m[x]) >= 0
    ensures Sum(m, f) >= 0
    decreases |m|
  {
    if m != map[] {
      var k :| k in m && Sum(m, f) == f(m[k]) + Sum(m - {k}, f);
      SumNonNegative(m - {k}, f);
    }
  }

  lemma {:induction false} SumZero<V>(m: map<string, V>, f: V -> int)
    requires forall x | x in m :: f(m[x]) == 0
    ensures Sum(m, f) == 0
    decreases |m|
  {
    if m != map[] {
      var k :| k in m && Sum(m, f) == f(m[k]) + Sum(m - {k}, f);
      SumZero(m - {k}, f);
    }
  }

  /** Two dictionaries with the same keys and measures have the same sum. */
  lemma {:induction false} SumSame<V>(m: map<string, V>, n: map<string, V>, f: V -> int, g: V -> int)
    requires m.Keys == n.Keys && forall x | x in m :: f(m[x]) == g(n[x])
    ensures Sum(m, f) == Sum(n, g)
    decreases |m|
  {
    if m == map[] {
      assert n == map[];
    } else {
      var k :| k in m && Sum(m, f) == f(m[k]) + Sum(m - {k}, f);
      SumPick(n, g, k);
      SumSame(m - {k}, n - {k}, f, g);
    }
  }

  /** A measure made of four others sums to the sum of their sums. */
  lemma {:induction false} SumSplits<V>(m: map<string, V>, h: V -> int, f: V -> int, g: V -> int, p: V -> int, q: V -> int)
    requires forall x | x in m :: h(m[x]) == f(m[x]) + g(m[x]) + p(m[x]) + q(m[x])
    ensures Sum(m, h) == Sum(m, f) + Sum(m, g) + Sum(m, p) + Sum(m, q)
    decreases |m|
  {
    if m != map[] {
      var k :| k in m && Sum(m, h) == h(m[k]) + Sum(m - {k}, h);
      SumPick(m, f, k);
      SumPick(m, g, k);
      SumPick(m, p, k);
      SumPick(m, q, k);
      SumSplits(m - {k}, h, f, g, p, q);
    }
  }
}
