/** The two-row edit distance of the speech benchmark: it is the length of a shortest chain of single edits, and a metric. */
module EditDistance {

  // ---- the distance --------------------------------------------------------------------------------------

  function Min(a: int, b: int): int { if a <= b then a else b }

  function Front<T>(s: seq<T>): seq<T>
    requires s != []
  { s[..|s| - 1] }

  function Last<T>(s: seq<T>): T
    requires s != []
  { s[|s| - 1] }

  function Differ<T(==)>(x: T, y: T): int { if x == y then 0 else 1 }

  /** The recursive distance, by last elements. */
  function Lev<T(==)>(a: seq<T>, b: seq<T>): int
    decreases |a| + |b|
  {
    if a == [] then |b|
    else if b == [] then |a|
    else
      Min(Min(Lev(a, Front(b)) + 1, Lev(Front(a), b) + 1), Lev(Front(a), Front(b)) + Differ(Last(a), Last(b)))
  }

  // ---- the algorithm -------------------------------------------------------------------------------------

  /** One row of the table: the distances from `a` to every prefix of `b` up to length `n`. */
  function Row<T(==)>(a: seq<T>, b: seq<T>, n: nat): seq<int>
    requires n <= |b| + 1
  {
    seq(n, j requires 0 <= j < n => Lev(a, b[..j]))
  }

  lemma LevStep<T>(a: seq<T>, b: seq<T>)
    requires a != [] && b != []
    ensures Lev(a, b) ==
            Min(Min(Lev(a, Front(b)) + 1, Lev(Front(a), b) + 1), Lev(Front(a), Front(b)) + Differ(Last(a), Last(b)))
  {
    hide Min, Front, Last, Differ;
  }

  lemma Cell<T>(a: seq<T>, b: seq<T>, i: nat, j: nat)
    requires i < |a| && j < |b|
    ensures Lev(a[..i + 1], b[..j + 1]) ==
            Min(Min(Lev(a[..i + 1], b[..j]) + 1, Lev(a[..i], b[..j + 1]) + 1), Lev(a[..i], b[..j]) + Differ(a[i], b[j]))
  {
    hide Lev, Differ, Min;
    var u, v := a[..i + 1], b[..j + 1];
    assert Front(u) == a[..i] && Front(v) == b[..j] && Last(u) == a[i] && Last(v) == b[j];
    LevStep(u, v);
  }

  lemma FirstCells<T>(a: seq<T>, b: seq<T>)
    ensures Lev([], b) == |b| && Lev(a, []) == |a|
  {}

  lemma FirstRow<T>(a: seq<T>, b: seq<T>)
    ensures Row(a[..0], b, |b| + 1) == seq(|b| + 1, j => j)
  {
    forall j | 0 <= j <= |b| ensures Lev(a[..0], b[..j]) == j {
      FirstCells(a, b[..j]);
      assert a[..0] == [];
    }
  }

  /** A cell of a row, and what the row grows by. */
  lemma RowCell<T>(a: seq<T>, b: seq<T>, n: nat, j: nat)
    requires j < n <= |b| + 1
    ensures |Row(a, b, n)| == n && Row(a, b, n)[j] == Lev(a, b[..j])
    ensures n <= |b| ==> Row(a, b, n + 1) == Row(a, b, n) + [Lev(a, b[..n])]
  {
    hide Lev;
  }

  /** The next cell of a row, from the row before and the cells so far. */
  lemma NextCell<T>(a: seq<T>, b: seq<T>, i: nat, j: nat)
    requires i < |a| && j < |b|
    ensures Row(a[..i + 1], b, j + 2) == Row(a[..i + 1], b, j + 1) + [
      Min(Min(Row(a[..i + 1], b, j + 1)[j] + 1, Row(a[..i], b, |b| + 1)[j + 1] + 1),
          Row(a[..i], b, |b| + 1)[j] + Differ(a[i], b[j]))]
  {
    hide *;
    Cell(a, b, i, j);
    RowCell(a[..i + 1], b, j + 1, j);
    RowCell(a[..i], b, |b| + 1, j);
    RowCell(a[..i], b, |b| + 1, j + 1);
  }

  method Distance<T(==)>(left: seq<T>, right: seq<T>) returns (d: int)
    ensures d == Lev(left, right)
  {
    hide Lev;
    var previous := seq(|right| + 1, j => j);
    FirstRow(left, right);
    for row := 0 to |left|
      invariant previous == Row(left[..row], right, |right| + 1)
    {
      var current := [row + 1];
      FirstCells(left[..row + 1], right);
      for column := 0 to |right|
        invariant current == Row(left[..row + 1], right, column + 1)
      {
        NextCell(left, right, row, column);
        current := current + [
          Min(Min(current[|current| - 1] + 1, previous[column + 1] + 1),
              previous[column] + (if left[row] != right[column] then 1 else 0))];
      }
      previous := current;
    }
    assert left[..|left|] == left && right[..|right|] == right;
    d := previous[|previous| - 1];
  }

  // ---- a metric ------------------------------------------------------------------------------------------

  /** At least the difference of the lengths, at most the longer length. */
  lemma {:induction false} Bounds<T>(a: seq<T>, b: seq<T>)
    ensures |a| - |b| <= Lev(a, b) && |b| - |a| <= Lev(a, b)
    ensures 0 <= Lev(a, b) <= if |a| < |b| then |b| else |a|
    decreases |a| + |b|
  {
    if a != [] && b != [] {
      Bounds(a, Front(b));
      Bounds(Front(a), b);
      Bounds(Front(a), Front(b));
    }
  }

  lemma SplitEqual<T>(a: seq<T>, b: seq<T>)
    requires a != [] && b != []
    ensures a == b <==> Front(a) == Front(b) && Last(a) == Last(b)
  {
    assert a == Front(a) + [Last(a)] && b == Front(b) + [Last(b)];
  }

  lemma {:induction false} ZeroIffEqual<T>(a: seq<T>, b: seq<T>)
    ensures Lev(a, b) == 0 <==> a == b
    decreases |a| + |b|
  {
    if a != [] && b != [] {
      ZeroIffEqual(Front(a), Front(b));
      Bounds(a, Front(b));
      Bounds(Front(a), b);
      Bounds(Front(a), Front(b));
      SplitEqual(a, b);
      hide Front, Last;
    }
  }

  lemma {:induction false} Symmetric<T>(a: seq<T>, b: seq<T>)
    ensures Lev(a, b) == Lev(b, a)
    decreases |a| + |b|
  {
    if a != [] && b != [] {
      Symmetric(a, Front(b));
      Symmetric(Front(a), b);
      Symmetric(Front(a), Front(b));
    }
  }

  lemma {:induction false} Triangle<T>(a: seq<T>, b: seq<T>, c: seq<T>)
    ensures Lev(a, c) <= Lev(a, b) + Lev(b, c)
    decreases |a| + |b| + |c|
  {
    if a == [] || b == [] || c == [] {
      Bounds(a, b);
      Bounds(b, c);
      Bounds(a, c);
    } else {
      var a', b', c' := Front(a), Front(b), Front(c);
      Triangle(a', b, c);
      Triangle(a, b, c');
      Triangle(a, b', c);
      Triangle(a, b', c');
      Triangle(a', b', c);
      Triangle(a', b', c');
    }
  }

  // ---- shortest chains of single edits ---------------------------------------------------------------------

  /** One insertion, deletion or substitution, anywhere. */
  predicate SingleEdit<T(==)>(a: seq<T>, b: seq<T>) {
    InsertsOne(a, b) || InsertsOne(b, a) || SubstitutesOne(a, b)
  }

  predicate InsertsOne<T(==)>(a: seq<T>, b: seq<T>) {
    |b| == |a| + 1 && exists i | 0 <= i <= |a| :: b[..i] == a[..i] && b[i + 1..] == a[i..]
  }

  predicate SubstitutesOne<T(==)>(a: seq<T>, b: seq<T>) {
    |b| == |a| && exists i | 0 <= i < |a| :: b[..i] == a[..i] && b[i + 1..] == a[i + 1..]
  }

  /** A chain of texts, each one edit away from the one before. */
  predicate Chain<T(==)>(p: seq<seq<T>>, a: seq<T>, b: seq<T>) {
    && p != [] && p[0] == a && p[|p| - 1] == b
    && forall i | 0 <= i < |p| - 1 :: SingleEdit(p[i], p[i + 1])
  }

  lemma {:induction false} CommonEnding<T>(a: seq<T>, b: seq<T>, s: seq<T>)
    ensures Lev(a + s, b + s) <= Lev(a, b)
    decreases |s|
  {
    if s == [] {
      assert a + s == a && b + s == b;
    } else {
      CommonEnding(a, b, Front(s));
      assert Front(a + s) == a + Front(s) && Front(b + s) == b + Front(s);
    }
  }

  lemma InsertionCostsOne<T>(a: seq<T>, b: seq<T>)
    requires InsertsOne(a, b)
    ensures Lev(a, b) <= 1
  {
    var i :| 0 <= i <= |a| && b[..i] == a[..i] && b[i + 1..] == a[i..];
    var p, q, s := a[..i], b[..i + 1], a[i..];
    assert a == p + s && b == q + s;
    assert Front(q) == p;
    ZeroIffEqual(p, p);
    CommonEnding(p, q, s);
  }

  lemma SubstitutionCostsOne<T>(a: seq<T>, b: seq<T>)
    requires SubstitutesOne(a, b)
    ensures Lev(a, b) <= 1
  {
    var i :| 0 <= i < |a| && b[..i] == a[..i] && b[i + 1..] == a[i + 1..];
    var p, q, s := a[..i + 1], b[..i + 1], a[i + 1..];
    assert a == p + s && b == q + s;
    assert Front(p) == a[..i] && Front(q) == b[..i];
    ZeroIffEqual(Front(p), Front(q));
    hide Front;
    CommonEnding(p, q, s);
  }

  /** No chain is shorter than the distance. */
  lemma {:induction false} ChainsAreNoShorter<T>(p: seq<seq<T>>, a: seq<T>, b: seq<T>)
    requires Chain(p, a, b)
    ensures Lev(a, b) <= |p| - 1
    decreases |p|
  {
    if |p| == 1 {
      ZeroIffEqual(a, b);
    } else {
      assert SingleEdit(p[0], p[1]);
      if InsertsOne(a, p[1]) {
        InsertionCostsOne(a, p[1]);
      } else if InsertsOne(p[1], a) {
        InsertionCostsOne(p[1], a);
        Symmetric(a, p[1]);
      } else {
        SubstitutionCostsOne(a, p[1]);
      }
      var rest := p[1..];
      forall i | 0 <= i < |rest| - 1 ensures SingleEdit(rest[i], rest[i + 1]) {
        assert SingleEdit(p[i + 1], p[i + 2]);
      }
      ChainsAreNoShorter(rest, p[1], b);
      Triangle(a, p[1], b);
    }
  }

  function Extended<T>(p: seq<seq<T>>, x: T): seq<seq<T>> { seq(|p|, i requires 0 <= i < |p| => p[i] + [x]) }

  /** Editing in front of a common last element. */
  lemma EditBeforeLast<T>(a: seq<T>, b: seq<T>, x: T)
    ensures InsertsOne(a, b) ==> InsertsOne(a + [x], b + [x])
    ensures SubstitutesOne(a, b) ==> SubstitutesOne(a + [x], b + [x])
  {
    var u, v := a + [x], b + [x];
    if InsertsOne(a, b) {
      var i :| 0 <= i <= |a| && b[..i] == a[..i] && b[i + 1..] == a[i..];
      assert v[..i] == u[..i] && v[i + 1..] == b[i + 1..] + [x] == a[i..] + [x] == u[i..];
    }
    if SubstitutesOne(a, b) {
      var i :| 0 <= i < |a| && b[..i] == a[..i] && b[i + 1..] == a[i + 1..];
      assert v[..i] == u[..i] && v[i + 1..] == b[i + 1..] + [x] == a[i + 1..] + [x] == u[i + 1..];
    }
  }

  lemma ChainExtends<T>(p: seq<seq<T>>, a: seq<T>, b: seq<T>, x: T)
    requires Chain(p, a, b)
    ensures Chain(Extended(p, x), a + [x], b + [x])
  {
    var q := Extended(p, x);
    forall i | 0 <= i < |q| - 1 ensures SingleEdit(q[i], q[i + 1]) {
      assert SingleEdit(p[i], p[i + 1]);
      EditBeforeLast(p[i], p[i + 1], x);
      EditBeforeLast(p[i + 1], p[i], x);
    }
  }

  lemma ChainGrows<T>(p: seq<seq<T>>, a: seq<T>, b: seq<T>, c: seq<T>)
    requires Chain(p, a, b) && SingleEdit(b, c)
    ensures Chain(p + [c], a, c)
  {
    hide SingleEdit;
  }

  lemma ChainStarts<T>(p: seq<seq<T>>, a: seq<T>, b: seq<T>, c: seq<T>)
    requires SingleEdit(a, b) && Chain(p, b, c)
    ensures Chain([a] + p, a, c)
  {
    var q := [a] + p;
    forall i | 0 <= i < |q| - 1 ensures SingleEdit(q[i], q[i + 1]) {
      assert i > 0 ==> SingleEdit(p[i - 1], p[i]);
    }
  }

  lemma LastStep<T>(a: seq<T>, x: T, y: T)
    ensures SingleEdit(a, a + [x]) && SingleEdit(a + [x], a) && SingleEdit(a + [x], a + [y])
  {
    var u, v := a + [x], a + [y];
    assert u[..|a|] == a[..|a|] && u[|a| + 1..] == a[|a|..];
    assert InsertsOne(a, u);
    assert v[..|a|] == u[..|a|] && v[|a| + 1..] == u[|a| + 1..];
    assert SubstitutesOne(u, v);
  }

  /** Some chain is as short as the distance. */
  lemma {:induction false} ShortestChain<T>(a: seq<T>, b: seq<T>) returns (p: seq<seq<T>>)
    ensures Chain(p, a, b) && |p| - 1 == Lev(a, b)
    decreases |a| + |b|
  {
    hide Lev;
    FirstCells(a, b);
    if a != [] && b != [] {
      LevStep(a, b);
    }
    if a == [] && b == [] {
      p := [a];
    } else if a == [] || (b != [] && Lev(a, b) == Lev(a, Front(b)) + 1) {
      p := ShortestChain(a, Front(b));
      FirstCells(a, Front(b));
      LastStep(Front(b), Last(b), Last(b));
      assert b == Front(b) + [Last(b)];
      ChainGrows(p, a, Front(b), b);
      p := p + [b];
    } else if b == [] || Lev(a, b) == Lev(Front(a), b) + 1 {
      var q := ShortestChain(Front(a), b);
      FirstCells(Front(a), b);
      LastStep(Front(a), Last(a), Last(a));
      assert a == Front(a) + [Last(a)];
      ChainStarts(q, a, Front(a), b);
      p := [a] + q;
    } else {
      var q := ShortestChain(Front(a), Front(b));
      ChainExtends(q, Front(a), Front(b), Last(a));
      assert a == Front(a) + [Last(a)] && b == Front(b) + [Last(b)];
      p := Extended(q, Last(a));
      if Last(a) != Last(b) {
        LastStep(Front(b), Last(a), Last(b));
        ChainGrows(p, a, Front(b) + [Last(a)], b);
        p := p + [b];
      }
    }
  }

  /** The computed distance is the number of edits of a cheapest way to turn one text into the other. */
  lemma DistanceIsCheapest<T>(a: seq<T>, b: seq<T>)
    ensures exists p: seq<seq<T>> :: Chain(p, a, b) && |p| - 1 == Lev(a, b)
    ensures forall p: seq<seq<T>> | Chain(p, a, b) :: |p| - 1 >= Lev(a, b)
  {
    var p := ShortestChain(a, b);
    forall q: seq<seq<T>> | Chain(q, a, b) ensures |q| - 1 >= Lev(a, b) {
      ChainsAreNoShorter(q, a, b);
    }
  }
}
