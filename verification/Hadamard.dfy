/** The Walsh-Hadamard rotation: Sylvester doubling, and what rotating around a quantizer costs. */
module Hadamard {

  import opened Numbers
  import opened Sums
  import opened Config

  // ---- powers of two ----

  predicate IsPow2(n: nat)
    decreases n
  {
    n == 1 || (n > 1 && n % 2 == 0 && IsPow2(n / 2))
  }

  /** Bitwise and of two naturals. */
  function BitAnd(a: nat, b: nat): nat
    decreases a
  {
    if a == 0 then 0 else (if a % 2 == 1 && b % 2 == 1 then 1 else 0) + 2 * BitAnd(a / 2, b / 2)
  }

  lemma {:induction false} BitAndSelf(a: nat)
    ensures BitAnd(a, a) == a
    decreases a
  {
    if a == 0 {
    } else {
      BitAndSelf(a / 2);
    }
  }

  /** `n & (n - 1)` is zero exactly for powers of two. */
  lemma {:induction false} BitTrick(n: nat)
    requires n > 0
    ensures BitAnd(n, n - 1) == 0 <==> IsPow2(n)
    decreases n
  {
    if n % 2 == 1 {
      assert (n - 1) / 2 == n / 2 && (n - 1) % 2 == 0;
      BitAndSelf(n / 2);
    } else {
      assert (n - 1) / 2 == n / 2 - 1;
      BitTrick(n / 2);
    }
  }

  /** The number of doublings from `size` to `n`, if any number reaches it. */
  predicate Reaches(size: nat, n: nat)
    decreases n
  {
    size == n || (n > 0 && n % 2 == 0 && Reaches(size, n / 2))
  }

  lemma {:induction false} OneReaches(n: nat)
    requires IsPow2(n)
    ensures Reaches(1, n)
    decreases n
  {
    if n == 1 {
    } else {
      OneReaches(n / 2);
    }
  }

  lemma {:induction false} ReachesNext(size: nat, n: nat)
    requires size > 0 && Reaches(size, n) && size < n
    ensures Reaches(2 * size, n) && 2 * size <= n
    decreases n
  {
    if size < n / 2 { ReachesNext(size, n / 2); } else { ReachesAtMost(size, n / 2); }
  }

  lemma {:induction false} ReachesAtMost(size: nat, n: nat)
    requires size > 0 && Reaches(size, n)
    ensures size <= n
    decreases n
  {
    if size == n {
    } else {
      ReachesAtMost(size, n / 2);
    }
  }

  // ---- dot products of rows ----

  function RowDot(a: Vec, b: Vec): real { Sum(0, |a|, Times(Values(a), Values(b))) }

  function Neg(a: Vec): (r: Vec)
    ensures |r| == |a| && forall i :: 0 <= i < |a| ==> r[i] == -a[i]
  {
    seq(|a|, i requires 0 <= i < |a| => -a[i])
  }

  lemma DotConcat(a: Vec, b: Vec, c: Vec, d: Vec)
    requires |a| == |c| && |b| == |d|
    ensures RowDot(a + b, c + d) == RowDot(a, c) + RowDot(b, d)
  {
    var f := Times(Values(a + b), Values(c + d));
    SumSplit(0, |a|, |a| + |b|, f);
    SumExt(0, |a|, f, Times(Values(a), Values(c)));
    SumShift(0, |b|, |a|, f, Times(Values(b), Values(d)));
  }

  lemma ProdNeg(x: real, y: real)
    ensures Prod(x, -y) == -1.0 * Prod(x, y) && Prod(-x, y) == -1.0 * Prod(x, y) && Prod(-x, -y) == Prod(x, y)
  {
  }

  lemma DotNeg(a: Vec, b: Vec)
    requires |a| == |b|
    ensures RowDot(a, Neg(b)) == -RowDot(a, b) && RowDot(Neg(a), b) == -RowDot(a, b)
    ensures RowDot(Neg(a), Neg(b)) == RowDot(a, b)
  {
    var n, f := |a|, Times(Values(a), Values(b));
    forall t | 0 <= t < n
      ensures Times(Values(a), Values(Neg(b)))(t) == -1.0 * f(t) && Times(Values(Neg(a)), Values(b))(t) == -1.0 * f(t)
           && Times(Values(Neg(a)), Values(Neg(b)))(t) == f(t)
    {
      ProdNeg(a[t], b[t]);
    }
    hide Prod, Sum;
    SumScale(0, n, -1.0, f, Times(Values(a), Values(Neg(b))));
    SumScale(0, n, -1.0, f, Times(Values(Neg(a)), Values(b)));
    SumExt(0, n, f, Times(Values(Neg(a)), Values(Neg(b))));
  }

  // ---- Sylvester doubling ----

  predicate Square(h: seq<Vec>) { forall i :: 0 <= i < |h| ==> |h[i]| == |h| }

  predicate Signs(h: seq<Vec>)
  {
    forall i, j :: 0 <= i < |h| && 0 <= j < |h[i]| ==> h[i][j] == 1.0 || h[i][j] == -1.0
  }

  predicate Symmetric(h: seq<Vec>)
    requires Square(h)
  {
    forall i, j :: 0 <= i < |h| && 0 <= j < |h| ==> h[i][j] == h[j][i]
  }

  /** `H·Hᵀ = n·I`. */
  predicate Orthogonal(h: seq<Vec>)
  {
    forall i, j :: 0 <= i < |h| && 0 <= j < |h| ==> RowDot(h[i], h[j]) == if i == j then |h| as real else 0.0
  }

  function DoubledRow(h: seq<Vec>, i: nat): Vec
    requires i < 2 * |h|
  {
    if i < |h| then h[i] + h[i] else h[i - |h|] + Neg(h[i - |h|])
  }

  /** `[[H, H], [H, -H]]`. */
  function Doubled(h: seq<Vec>): (r: seq<Vec>)
    ensures |r| == 2 * |h|
  {
    seq(2 * |h|, i requires 0 <= i < 2 * |h| => DoubledRow(h, i))
  }

  lemma DoubledShape(h: seq<Vec>)
    requires Square(h) && Signs(h) && Symmetric(h)
    ensures Square(Doubled(h)) && Signs(Doubled(h)) && Symmetric(Doubled(h))
  {
    var n, r := |h|, Doubled(h);
    forall i | 0 <= i < 2 * n ensures |r[i]| == 2 * n {}
    forall i, j | 0 <= i < 2 * n && 0 <= j < 2 * n
      ensures var x := h[if i < n then i else i - n][if j < n then j else j - n];
        r[i][j] == if i >= n && j >= n then -x else x
    {
    }
  }

  lemma DoubledOrthogonal(h: seq<Vec>)
    requires Square(h) && Orthogonal(h)
    ensures Orthogonal(Doubled(h))
  {
    hide RowDot;
    var n, r := |h|, Doubled(h);
    forall i, j | 0 <= i < 2 * n && 0 <= j < 2 * n
      ensures RowDot(r[i], r[j]) == if i == j then (2 * n) as real else 0.0
    {
      var a, b := h[if i < n then i else i - n], h[if j < n then j else j - n];
      DotNeg(a, b);
      DotConcat(a, if i < n then a else Neg(a), b, if j < n then b else Neg(b));
    }
  }

  function Scaled(h: seq<Vec>, c: real): (r: seq<Vec>)
    requires c != 0.0
    ensures |r| == |h| && forall i :: 0 <= i < |h| ==> |r[i]| == |h[i]|
    ensures forall i, j :: 0 <= i < |h| && 0 <= j < |h[i]| ==> r[i][j] == h[i][j] / c
  {
    seq(|h|, i requires 0 <= i < |h| => ScaledRow(h[i], c))
  }

  function ScaledRow(v: Vec, c: real): (r: Vec)
    requires c != 0.0
    ensures |r| == |v| && forall j :: 0 <= j < |v| ==> r[j] == v[j] / c
  {
    seq(|v|, j requires 0 <= j < |v| => v[j] / c)
  }

  lemma EntryScaled(x: real, y: real, c: real, p: real, q: real)
    requires c != 0.0 && p == x / c && q == y / c
    ensures Prod(x, y) == (c * c) * Prod(p, q)
  {
    assert x == p * c && y == q * c;
    assert x * y == (p * c) * (q * c);
  }

  lemma DotScaled(a: Vec, b: Vec, c: real)
    requires |a| == |b| && c != 0.0
    ensures RowDot(a, b) == c * c * RowDot(ScaledRow(a, c), ScaledRow(b, c))
  {
    hide Prod, Sum;
    var n, u, v := |a|, ScaledRow(a, c), ScaledRow(b, c);
    forall t | 0 <= t < n ensures Times(Values(a), Values(b))(t) == (c * c) * Times(Values(u), Values(v))(t) {
      EntryScaled(a[t], b[t], c, u[t], v[t]);
    }
    SumScale(0, n, c * c, Times(Values(u), Values(v)), Times(Values(a), Values(b)));
  }

  /** `R·Rᵀ = I`. */
  predicate Orthonormal(r: seq<Vec>)
  {
    Square(r) && forall i, j :: 0 <= i < |r| && 0 <= j < |r| ==> RowDot(r[i], r[j]) == if i == j then 1.0 else 0.0
  }

  lemma ScaledOrthonormal(h: seq<Vec>, c: real)
    requires Square(h) && Orthogonal(h) && c * c == |h| as real && c != 0.0
    ensures Orthonormal(Scaled(h, c))
  {
    hide RowDot, ScaledRow;
    forall i, j | 0 <= i < |h| && 0 <= j < |h|
      ensures RowDot(Scaled(h, c)[i], Scaled(h, c)[j]) == if i == j then 1.0 else 0.0
    {
      DotScaled(h[i], h[j], c);
      UnitOrZero(|h| as real, RowDot(ScaledRow(h[i], c), ScaledRow(h[j], c)), i == j);
    }
  }

  lemma UnitOrZero(n: real, d: real, same: bool)
    requires n > 0.0 && n * d == if same then n else 0.0
    ensures d == if same then 1.0 else 0.0
  {
    if same { assert n * (d - 1.0) == 0.0; }
  }

  ghost predicate Roots(sqrt: real -> real) { forall x :: x > 0.0 ==> sqrt(x) > 0.0 && sqrt(x) * sqrt(x) == x }

  /** `_walsh_hadamard`: for every power of two the doubling loop stops at exactly n×n; the result is the
    * ±1 matrix over the root of n, symmetric and orthonormal. Every other size is refused. */
  method WalshHadamard(n: int, sqrt: real -> real) returns (r: Option<seq<Vec>>)
    requires Roots(sqrt)
    ensures r.Some? <==> n >= 1 && IsPow2(n)
    ensures r.Some? ==>
      && |r.value| == n && Orthonormal(r.value) && Symmetric(r.value)
      && (forall i, j :: 0 <= i < n && 0 <= j < n ==>
            r.value[i][j] == 1.0 / sqrt(n as real) || r.value[i][j] == -1.0 / sqrt(n as real))
  {
    hide IsPow2, Reaches, Orthogonal, Doubled, Scaled, Orthonormal, Symmetric, Signs;
    if n < 1 { return None; }
    BitTrick(n);
    if BitAnd(n, n - 1) != 0 { return None; }
    var h := [[1.0]];
    OneByOne();
    OneReaches(n);
    while |h| < n
      invariant |h| > 0 && Reaches(|h|, n) && |h| <= n
      invariant Square(h) && Signs(h) && Symmetric(h) && Orthogonal(h)
      decreases n - |h|
    {
      ReachesNext(|h|, n);
      DoubledShape(h);
      DoubledOrthogonal(h);
      h := Doubled(h);
    }
    ScaledOrthonormal(h, sqrt(n as real));
    ScaledSigns(h, sqrt(n as real));
    r := Some(Scaled(h, sqrt(n as real)));
  }

  lemma ScaledSigns(h: seq<Vec>, c: real)
    requires Square(h) && Signs(h) && Symmetric(h) && c != 0.0
    ensures Symmetric(Scaled(h, c))
    ensures forall i, j :: 0 <= i < |h| && 0 <= j < |h| ==>
      Scaled(h, c)[i][j] == 1.0 / c || Scaled(h, c)[i][j] == -1.0 / c
  {
  }

  lemma OneByOne()
    ensures Square([[1.0]]) && Signs([[1.0]]) && Symmetric([[1.0]]) && Orthogonal([[1.0]])
  {
    assert Sum(0, 0, Times(Values([1.0]), Values([1.0]))) == 0.0;
  }
}
