/** Rotating channels before a quantizer and back after it. */
module Rotation {

  import opened Numbers
  import opened Sums
  import opened Quantizer
  import opened Hadamard

  // ---- x @ R and y @ R.T ----

  function Rotate(x: Vec, r: seq<Vec>): (y: Vec)
    ensures |y| == |x|
  {
    seq(|x|, j requires 0 <= j < |x| => Sum(0, |x|, Times(Values(x), Column(r, j))))
  }

  function Unrotate(y: Vec, r: seq<Vec>): (x: Vec)
    requires |r| == |y|
    ensures |x| == |y|
  {
    seq(|y|, i requires 0 <= i < |y| => RowDot(y, r[i]))
  }

  function Transpose(r: seq<Vec>): (t: seq<Vec>)
    requires Square(r)
    ensures |t| == |r| && Square(t)
    ensures forall i, j :: 0 <= i < |r| && 0 <= j < |r| ==> t[i][j] == r[j][i]
  {
    seq(|r|, i requires 0 <= i < |r| => TransposeRow(r, i))
  }

  function TransposeRow(r: seq<Vec>, i: nat): (v: Vec)
    requires Square(r) && i < |r|
    ensures |v| == |r| && forall j :: 0 <= j < |r| ==> v[j] == r[j][i]
  {
    seq(|r|, j requires 0 <= j < |r| => r[j][i])
  }

  /** A rotation both of whose products with its transpose are the identity. */
  predicate IsRotation(r: seq<Vec>) { Square(r) && Orthonormal(r) && Orthonormal(Transpose(r)) }

  // ---- the adjoint law ----

  function Cell(x: Vec, r: seq<Vec>, y: Vec, i: int, j: int): real
  {
    Prod(Prod(At(x, i), At2(r, i, j)), At(y, j))
  }

  function CellRow(x: Vec, r: seq<Vec>, y: Vec, i: int): int -> real { j => Cell(x, r, y, i, j) }

  function CellCol(x: Vec, r: seq<Vec>, y: Vec, j: int): int -> real { i => Cell(x, r, y, i, j) }

  lemma ProdAssoc(a: real, b: real, c: real)
    ensures Prod(Prod(a, b), c) == Prod(a, Prod(c, b)) && Prod(Prod(a, b), c) == Prod(c, Prod(a, b))
  {
  }

  lemma ProdSwap(a: real, b: real)
    ensures Prod(a, b) == Prod(b, a) && Prod(a, 1.0) == a && Prod(a, 0.0) == 0.0
  {
  }

  lemma RotatedEntry(x: Vec, r: seq<Vec>, y: Vec, j: nat)
    requires |y| == |x| && j < |x|
    ensures Times(Values(Rotate(x, r)), Values(y))(j) == Sum(0, |x|, CellCol(x, r, y, j))
  {
    hide Prod, Sum;
    var f := Times(Values(x), Column(r, j));
    forall i | 0 <= i < |x| ensures CellCol(x, r, y, j)(i) == Prod(y[j], f(i)) {
      ProdAssoc(At(x, i), At2(r, i, j), At(y, j));
    }
    SumProd(0, |x|, y[j], f, CellCol(x, r, y, j));
    ProdSwap(Sum(0, |x|, f), y[j]);
  }

  lemma UnrotatedEntry(x: Vec, r: seq<Vec>, y: Vec, i: nat)
    requires |y| == |x| == |r| && Square(r) && i < |x|
    ensures Times(Values(x), Values(Unrotate(y, r)))(i) == Sum(0, |x|, CellRow(x, r, y, i))
  {
    hide Prod, Sum;
    var f := Times(Values(y), Values(r[i]));
    forall j | 0 <= j < |x| ensures CellRow(x, r, y, i)(j) == Prod(x[i], f(j)) {
      ProdAssoc(At(x, i), At2(r, i, j), At(y, j));
    }
    SumProd(0, |x|, x[i], f, CellRow(x, r, y, i));
  }

  /** `⟨x·R, y⟩ = ⟨x, y·Rᵀ⟩`. */
  lemma Adjoint(x: Vec, r: seq<Vec>, y: Vec)
    requires |y| == |x| == |r| && Square(r)
    ensures RowDot(Rotate(x, r), y) == RowDot(x, Unrotate(y, r))
  {
    hide Cell, Sum, Rotate, Unrotate;
    var n, f := |x|, (i, j) => Cell(x, r, y, i, j);
    var rows, cols := i => Sum(0, n, j => f(i, j)), j => Sum(0, n, i => f(i, j));
    SumExchange(n, n, f);
    forall j | 0 <= j < n ensures Times(Values(Rotate(x, r)), Values(y))(j) == cols(j) {
      RotatedEntry(x, r, y, j);
      SumExt(0, n, i => f(i, j), CellCol(x, r, y, j));
    }
    forall i | 0 <= i < n ensures Times(Values(x), Values(Unrotate(y, r)))(i) == rows(i) {
      UnrotatedEntry(x, r, y, i);
      SumExt(0, n, j => f(i, j), CellRow(x, r, y, i));
    }
    SumExt(0, n, Times(Values(Rotate(x, r)), Values(y)), cols);
    SumExt(0, n, Times(Values(x), Values(Unrotate(y, r))), rows);
  }

  // ---- rotating back ----

  lemma DotUnit(x: Vec, e: Vec, i: nat)
    requires |e| == |x| && i < |x| && forall k :: 0 <= k < |x| ==> e[k] == if k == i then 1.0 else 0.0
    ensures RowDot(x, e) == x[i]
  {
    hide Prod;
    forall t | 0 <= t < |x|
      ensures Times(Values(x), Values(e))(t) == if t == i then x[t] else 0.0
    {
      ProdSwap(x[t], e[t]);
    }
    SumSingle(0, |x|, Times(Values(x), Values(e)), i);
  }

  /** Rotating and rotating back is the identity. */
  lemma UnrotateRotate(x: Vec, r: seq<Vec>)
    requires |x| == |r| && Orthonormal(r)
    ensures Unrotate(Rotate(x, r), r) == x
  {
    hide RowDot, Rotate;
    forall i | 0 <= i < |x| ensures Unrotate(Rotate(x, r), r)[i] == x[i] {
      Adjoint(x, r, r[i]);
      DotUnit(x, Unrotate(r[i], r), i);
    }
  }

  lemma RotateByTranspose(x: Vec, r: seq<Vec>)
    requires |x| == |r| && Square(r)
    ensures Rotate(x, r) == Unrotate(x, Transpose(r)) && Unrotate(x, r) == Rotate(x, Transpose(r))
  {
    hide Sum, Prod;
    var t := Transpose(r);
    forall j | 0 <= j < |x| ensures Rotate(x, r)[j] == Unrotate(x, t)[j] && Unrotate(x, r)[j] == Rotate(x, t)[j] {
      SumExt(0, |x|, Times(Values(x), Column(r, j)), Times(Values(x), Values(t[j])));
      SumExt(0, |x|, Times(Values(x), Values(r[j])), Times(Values(x), Column(t, j)));
    }
  }

  lemma RotateUnrotate(y: Vec, r: seq<Vec>)
    requires |y| == |r| && IsRotation(r)
    ensures Rotate(Unrotate(y, r), r) == y
  {
    hide Rotate, Unrotate, Orthonormal;
    RotateByTranspose(y, r);
    RotateByTranspose(Unrotate(y, r), r);
    UnrotateRotate(y, Transpose(r));
  }

  function SqNorm(x: Vec): real { RowDot(x, x) }

  /** Rotating back keeps lengths. */
  lemma UnrotateKeepsNorm(e: Vec, r: seq<Vec>)
    requires |e| == |r| && IsRotation(r)
    ensures SqNorm(Unrotate(e, r)) == SqNorm(e)
  {
    hide RowDot, Rotate, Unrotate, Orthonormal;
    var u := Unrotate(e, r);
    Adjoint(u, r, e);
    RotateUnrotate(e, r);
  }

  lemma UnrotateDiff(a: Vec, b: Vec, r: seq<Vec>)
    requires |a| == |b| == |r| && Square(r)
    ensures Unrotate(Diff(a, b), r) == Diff(Unrotate(a, r), Unrotate(b, r))
  {
    hide Sum, Prod;
    forall i | 0 <= i < |a| ensures Unrotate(Diff(a, b), r)[i] == Unrotate(a, r)[i] - Unrotate(b, r)[i] {
      var f, g := Times(Values(a), Values(r[i])), Times(Values(b), Values(r[i]));
      var h := Times(Values(Diff(a, b)), Values(r[i]));
      forall j | 0 <= j < |a| ensures f(j) == h(j) + g(j) { ProdSum(r[i][j], a[j], a[j] - b[j], b[j]); }
      SumAdd(0, |a|, h, g, f);
    }
  }

  /** Rotate, quantize in any way, rotate back: the squared error of the row is exactly the squared error
    * the quantizer made on the rotated row. */
  lemma RotationKeepsError(x: Vec, q: Vec, r: seq<Vec>)
    requires |x| == |q| == |r| && IsRotation(r)
    ensures SqNorm(Diff(Unrotate(q, r), x)) == SqNorm(Diff(q, Rotate(x, r)))
  {
    hide RowDot, Rotate, Unrotate, Diff, Orthonormal;
    UnrotateRotate(x, r);
    UnrotateDiff(q, Rotate(x, r), r);
    UnrotateKeepsNorm(Diff(q, Rotate(x, r)), r);
  }

  /** The Walsh-Hadamard matrix is such a rotation. */
  lemma HadamardRotates(r: seq<Vec>)
    requires Orthonormal(r) && Symmetric(r)
    ensures IsRotation(r) && Transpose(r) == r
  {
    forall i | 0 <= i < |r| ensures Transpose(r)[i] == r[i] {}
  }

  // ---- the rotated quantizers ----

  function Pow2(k: nat): (p: nat)
    ensures p >= 1
  {
    if k == 0 then 1 else 2 * Pow2(k - 1)
  }

  function QMax(bits: nat): (q: int)
    requires bits >= 2
    ensures q >= 1
  {
    Pow2(bits - 1) - 1
  }

  function ScaleFor(m: real, q: int): (s: real)
    requires q >= 1
    ensures s > 0.0
  {
    RMax(m / q as real, 0.00000001)
  }

  function Coded(x: real, s: real, q: int): real
    requires s > 0.0
  {
    Clamp(Round(x / s), -q - 1, q) as real * s
  }

  lemma ScaleCovers(m: real, q: int)
    requires q >= 1
    ensures m <= q as real * ScaleFor(m, q)
  {
    var n := q as real;
    var d := m / n;
    assert m == d * n;
    MulMono(d, ScaleFor(m, q), n);
  }

  lemma CodedAccurate(x: real, m: real, q: int)
    requires q >= 1 && Abs(x) <= m
    ensures Within(x, Coded(x, ScaleFor(m, q), q), ScaleFor(m, q) / 2.0)
  {
    hide Round, Clamp, ScaleFor;
    ScaleCovers(m, q);
    var s := ScaleFor(m, q);
    NearestAccurate(x, s, q);
    assert Within(x, Clamp(Round(x / s), -q - 1, q) as real * s, s / 2.0);
    assert Coded(x, s, q) == Clamp(Round(x / s), -q - 1, q) as real * s;
  }

  function CodedRow(y: Vec, scale: Vec, q: int): (r: Vec)
    requires |scale| == |y| && forall j :: 0 <= j < |scale| ==> scale[j] > 0.0
    ensures |r| == |y|
  {
    seq(|y|, j requires 0 <= j < |y| => Coded(y[j], scale[j], q))
  }

  /** Per-token: one scale for the whole rotated row. */
  function TokenScale(y: Vec, q: int): (s: Vec)
    requires q >= 1
    ensures |s| == |y| && forall j :: 0 <= j < |y| ==> s[j] == ScaleFor(MaxAbs(y), q)
  {
    seq(|y|, _ => ScaleFor(MaxAbs(y), q))
  }

  function RotateQuantPerToken(v: Vec, bits: nat, r: seq<Vec>): (out: Vec)
    requires bits >= 2 && |v| == |r|
    ensures |out| == |v|
  {
    var y := Rotate(v, r);
    Unrotate(CodedRow(y, TokenScale(y, QMax(bits)), QMax(bits)), r)
  }

  function ColumnVec(rows: seq<Vec>, j: nat): (c: Vec)
    ensures |c| == |rows| && forall t :: 0 <= t < |rows| ==> c[t] == At(rows[t], j)
  {
    seq(|rows|, t requires 0 <= t < |rows| => At(rows[t], j))
  }

  function RotateAll(k: seq<Vec>, r: seq<Vec>): (y: seq<Vec>)
    ensures |y| == |k| && forall t :: 0 <= t < |k| ==> y[t] == Rotate(k[t], r)
  {
    seq(|k|, t requires 0 <= t < |k| => Rotate(k[t], r))
  }

  /** Per-channel: one scale for each rotated channel, over all tokens. */
  function ChannelScale(y: seq<Vec>, n: nat, q: int): (s: Vec)
    requires q >= 1
    ensures |s| == n && forall j :: 0 <= j < n ==> s[j] == ScaleFor(MaxAbs(ColumnVec(y, j)), q)
  {
    seq(n, j requires 0 <= j < n => ScaleFor(MaxAbs(ColumnVec(y, j)), q))
  }

  function RotateQuantPerChannel(k: seq<Vec>, bits: nat, r: seq<Vec>): (out: seq<Vec>)
    requires bits >= 2 && forall t :: 0 <= t < |k| ==> |k[t]| == |r|
    ensures |out| == |k|
  {
    var y, q := RotateAll(k, r), QMax(bits);
    seq(|k|, t requires 0 <= t < |k| => Unrotate(CodedRow(y[t], ChannelScale(y, |r|, q), q), r))
  }

  function Squares(s: Vec): int -> real { j => Prod(At(s, j) / 2.0, At(s, j) / 2.0) }

  lemma SquareBound(e: real, b: real)
    requires Abs(e) <= b
    ensures Prod(e, e) <= Prod(b, b)
  {
    MulMono(Abs(e), b, Abs(e));
    MulMono(Abs(e), b, b);
  }

  lemma ErrorBound(y: Vec, c: Vec, s: Vec)
    requires |y| == |c| == |s| && forall j :: 0 <= j < |y| ==> Within(y[j], c[j], s[j] / 2.0)
    ensures SqNorm(Diff(c, y)) <= Sum(0, |y|, Squares(s))
  {
    hide Prod, Sum;
    var e := Diff(c, y);
    forall j | 0 <= j < |y| ensures Times(Values(e), Values(e))(j) <= Squares(s)(j) { SquareBound(e[j], s[j] / 2.0); }
    SumMono(0, |y|, Times(Values(e), Values(e)), Squares(s));
  }

  /** A rotated per-token row is off by at most half a step a channel, in the root mean square. */
  lemma PerTokenError(v: Vec, bits: nat, r: seq<Vec>)
    requires bits >= 2 && |v| == |r| && IsRotation(r)
    ensures SqNorm(Diff(RotateQuantPerToken(v, bits, r), v))
         <= Sum(0, |v|, Squares(TokenScale(Rotate(v, r), QMax(bits))))
  {
    hide Coded, ScaleFor, RowDot, Unrotate, Rotate, Orthonormal, Sum, Diff;
    var y, q := Rotate(v, r), QMax(bits);
    var c := CodedRow(y, TokenScale(y, q), q);
    RotationKeepsError(v, c, r);
    forall j | 0 <= j < |y| ensures Within(y[j], c[j], TokenScale(y, q)[j] / 2.0) { CodedAccurate(y[j], MaxAbs(y), q); }
    ErrorBound(y, c, TokenScale(y, q));
  }

  lemma PerChannelError(k: seq<Vec>, bits: nat, r: seq<Vec>, t: nat)
    requires bits >= 2 && t < |k| && IsRotation(r) && forall u :: 0 <= u < |k| ==> |k[u]| == |r|
    ensures SqNorm(Diff(RotateQuantPerChannel(k, bits, r)[t], k[t]))
         <= Sum(0, |r|, Squares(ChannelScale(RotateAll(k, r), |r|, QMax(bits))))
  {
    hide Coded, ScaleFor, RowDot, Unrotate, Rotate, Orthonormal, Sum, Diff;
    var y, q := RotateAll(k, r), QMax(bits);
    var s := ChannelScale(y, |r|, q);
    var c := CodedRow(y[t], s, q);
    RotationKeepsError(k[t], c, r);
    forall j | 0 <= j < |r| ensures Within(y[t][j], c[j], s[j] / 2.0) {
      assert ColumnVec(y, j)[t] == y[t][j];
      CodedAccurate(y[t][j], MaxAbs(ColumnVec(y, j)), q);
    }
    ErrorBound(y[t], c, s);
  }
}
