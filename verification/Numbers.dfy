/** Rounding, clamping and extrema, over exact reals. */
module Numbers {

  type Vec = seq<real>

  function Min(a: int, b: int): int { if a <= b then a else b }

  function Max(a: int, b: int): int { if a >= b then a else b }

  function Abs(x: real): real { if x < 0.0 then -x else x }

  /** `x` and `y` differ by at most `r`. */
  predicate Within(x: real, y: real, r: real) { x - y <= r && y - x <= r }

  function RMax(a: real, b: real): real { if a >= b then a else b }

  function Clamp(n: int, lo: int, hi: int): int { Max(lo, Min(n, hi)) }

  /** Round to the nearest integer, ties to even: Python's `round` and `torch.round`. */
  function Round(x: real): (r: int)
    ensures 2.0 * Abs(x - r as real) <= 1.0
    ensures 2.0 * Abs(x - r as real) == 1.0 ==> r % 2 == 0
  {
    var f := x.Floor;
    var d := x - f as real;
    if d < 0.5 || (d == 0.5 && f % 2 == 0) then f else f + 1
  }

  lemma RoundOfInt(n: int)
    ensures Round(n as real) == n
  {
  }

  lemma RoundMonotone(x: real, y: real)
    requires x <= y
    ensures Round(x) <= Round(y)
  {
  }

  /** The largest absolute value in `xs`; 0 for the empty vector. */
  function MaxAbs(xs: Vec): (m: real)
    ensures m >= 0.0
    ensures forall i :: 0 <= i < |xs| ==> Abs(xs[i]) <= m
  {
    if xs == [] then 0.0
    else
      var m := MaxAbs(xs[..|xs| - 1]);
      RMax(m, Abs(xs[|xs| - 1]))
  }

  /** The largest entry of a non-empty vector. */
  function MaxOf(xs: Vec): (m: real)
    requires xs != []
    ensures m in xs
    ensures forall i :: 0 <= i < |xs| ==> xs[i] <= m
  {
    if |xs| == 1 then xs[0]
    else RMax(MaxOf(xs[..|xs| - 1]), xs[|xs| - 1])
  }

  /** The entrywise difference. */
  function Diff(x: Vec, y: Vec): (r: Vec)
    requires |x| == |y|
    ensures |r| == |x|
  {
    seq(|x|, c requires 0 <= c < |x| => x[c] - y[c])
  }

  lemma MulNonNeg(a: real, b: real)
    requires a >= 0.0 && b >= 0.0
    ensures a * b >= 0.0
  {
  }

  lemma MulPositive(a: real, b: real)
    requires a > 0.0 && b > 0.0
    ensures a * b > 0.0
  {
  }

  lemma MulMono(a: real, b: real, c: real)
    requires a <= b && c >= 0.0
    ensures a * c <= b * c
  {
    MulNonNeg(b - a, c);
  }

  /** Scaling by a positive factor keeps the order. */
  lemma ScaleIff(a: real, b: real, s: real)
    requires s > 0.0
    ensures a <= b <==> a * s <= b * s
  {
    if a <= b { MulMono(a, b, s); } else { assert (a - b) * s > 0.0; }
  }

  lemma DivAsMul(x: real, s: real)
    requires s != 0.0
    ensures x / s == x * (1.0 / s)
  {
  }

  lemma ExactQuotient(c: real, s: real, x: real)
    requires s > 0.0 && x == c * s
    ensures x / s == c
  {
    var u := x / s;
    assert x == u * s;
    ScaleIff(u, c, s);
    ScaleIff(c, u, s);
  }

  /** Consecutive blocks of a fixed width do not overlap. */
  lemma BlocksApart(i: nat, j: nat, w: nat)
    requires i < j
    ensures i * w + w <= j * w
  {
    assert (j - i - 1) * w >= 0;
    assert j * w == i * w + w + (j - i - 1) * w;
  }

  lemma BlockBound(i: nat, n: nat, w: nat)
    requires i < n
    ensures i * w + w <= n * w
  {
    BlocksApart(i, n, w);
  }
}
