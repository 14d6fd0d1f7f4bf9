/** Finite sums of reals over integer intervals, and the exchange and gathering laws the
  * correction proofs need. */
module Sums {

  import opened Numbers

  /** Entry `i` of a vector; 0 outside it. */
  function At(v: Vec, i: int): real { if 0 <= i < |v| then v[i] else 0.0 }

  /** Entry `(i, j)` of a matrix given by rows; 0 outside it. */
  function At2(m: seq<Vec>, i: int, j: int): real { if 0 <= i < |m| then At(m[i], j) else 0.0 }

  /** The sum of `f(t)` for `lo <= t < hi`. */
  function Sum(lo: int, hi: int, f: int -> real): real
    decreases hi - lo
  {
    if lo >= hi then 0.0 else Sum(lo, hi - 1, f) + f(hi - 1)
  }

  /** The entries of a vector as a function of the index. */
  function Values(v: Vec): int -> real { t => At(v, t) }

  /** A column of a matrix as a function of the row. */
  function Column(m: seq<Vec>, d: int): int -> real { t => At2(m, t, d) }

  /** A product, named so that proofs can leave it closed. */
  function Prod(x: real, y: real): real { x * y }

  lemma ProdSum(a: real, x: real, y: real, z: real)
    requires x == y + z
    ensures Prod(a, x) == Prod(a, y) + Prod(a, z)
    ensures Prod(x, a) == Prod(y, a) + Prod(z, a)
  {
  }

  lemma ProdZero(a: real)
    ensures Prod(a, 0.0) == 0.0 && Prod(0.0, a) == 0.0
  {
  }

  /** The pointwise product. */
  function Times(f: int -> real, g: int -> real): int -> real { t => Prod(f(t), g(t)) }

  lemma {:induction false} SumExt(lo: int, hi: int, f: int -> real, g: int -> real)
    requires forall t :: lo <= t < hi ==> f(t) == g(t)
    ensures Sum(lo, hi, f) == Sum(lo, hi, g)
    decreases hi - lo
  {
    if lo >= hi {
    } else {
      SumExt(lo, hi - 1, f, g);
    }
  }

  lemma {:induction false} SumZero(lo: int, hi: int, f: int -> real)
    requires forall t :: lo <= t < hi ==> f(t) == 0.0
    ensures Sum(lo, hi, f) == 0.0
    decreases hi - lo
  {
    if lo >= hi {
    } else {
      SumZero(lo, hi - 1, f);
    }
  }

  lemma {:induction false} SumAdd(lo: int, hi: int, f: int -> real, g: int -> real, h: int -> real)
    requires forall t :: lo <= t < hi ==> h(t) == f(t) + g(t)
    ensures Sum(lo, hi, h) == Sum(lo, hi, f) + Sum(lo, hi, g)
    decreases hi - lo
  {
    if lo >= hi {
    } else {
      SumAdd(lo, hi - 1, f, g, h);
    }
  }

  lemma {:induction false} SumScale(lo: int, hi: int, c: real, f: int -> real, g: int -> real)
    requires forall t :: lo <= t < hi ==> g(t) == c * f(t)
    ensures Sum(lo, hi, g) == c * Sum(lo, hi, f)
    decreases hi - lo
  {
    if lo >= hi {
    } else {
      SumScale(lo, hi - 1, c, f, g);
    }
  }

  /** The same, with the products named. */
  lemma SumProd(lo: int, hi: int, c: real, f: int -> real, g: int -> real)
    requires forall t :: lo <= t < hi ==> g(t) == Prod(c, f(t))
    ensures Sum(lo, hi, g) == Prod(c, Sum(lo, hi, f))
  {
    SumScale(lo, hi, c, f, g);
  }

  lemma {:induction false} SumSplit(lo: int, mid: int, hi: int, f: int -> real)
    requires lo <= mid <= hi
    ensures Sum(lo, hi, f) == Sum(lo, mid, f) + Sum(mid, hi, f)
    decreases hi - mid
  {
    if mid == hi {
    } else {
      SumSplit(lo, mid, hi - 1, f);
    }
  }

  lemma {:induction false} SumNonNeg(lo: int, hi: int, f: int -> real)
    requires forall t :: lo <= t < hi ==> f(t) >= 0.0
    ensures Sum(lo, hi, f) >= 0.0
    decreases hi - lo
  {
    if lo >= hi {
    } else {
      SumNonNeg(lo, hi - 1, f);
    }
  }

  lemma {:induction false} SumMono(lo: int, hi: int, f: int -> real, g: int -> real)
    requires forall t :: lo <= t < hi ==> f(t) <= g(t)
    ensures Sum(lo, hi, f) <= Sum(lo, hi, g)
    decreases hi - lo
  {
    if lo >= hi {
    } else {
      SumMono(lo, hi - 1, f, g);
    }
  }

  /** One summand is at most a sum of non-negative summands. */
  lemma {:induction false} SumAtLeastOne(lo: int, hi: int, f: int -> real, k: int)
    requires lo <= k < hi
    requires forall t :: lo <= t < hi ==> f(t) >= 0.0
    ensures f(k) <= Sum(lo, hi, f)
  {
    SumSplit(lo, k, hi, f);
    SumSplit(k, k + 1, hi, f);
    SumNonNeg(lo, k, f);
    SumNonNeg(k + 1, hi, f);
    assert Sum(k, k + 1, f) == Sum(k, k, f) + f(k);
  }

  lemma SumSingle(lo: int, hi: int, f: int -> real, k: int)
    requires lo <= k < hi
    requires forall t :: lo <= t < hi && t != k ==> f(t) == 0.0
    ensures Sum(lo, hi, f) == f(k)
  {
    SumSplit(lo, k, hi, f);
    SumSplit(k, k + 1, hi, f);
    SumZero(lo, k, f);
    SumZero(k + 1, hi, f);
    assert Sum(k, k + 1, f) == Sum(k, k, f) + f(k);
  }

  /** Restricting the summands to a sub-interval is summing over it. */
  lemma SumRestrict(lo: int, a: int, b: int, hi: int, f: int -> real, g: int -> real)
    requires lo <= a <= b <= hi
    requires forall t :: lo <= t < hi ==> g(t) == if a <= t < b then f(t) else 0.0
    ensures Sum(lo, hi, g) == Sum(a, b, f)
  {
    SumSplit(lo, a, hi, g);
    SumSplit(a, b, hi, g);
    SumZero(lo, a, g);
    SumZero(b, hi, g);
    SumExt(a, b, g, f);
  }

  lemma {:induction false} SumShift(lo: int, hi: int, off: int, f: int -> real, g: int -> real)
    requires forall t :: lo <= t < hi ==> g(t) == f(t + off)
    ensures Sum(lo, hi, g) == Sum(lo + off, hi + off, f)
    decreases hi - lo
  {
    if lo >= hi {
    } else {
      SumShift(lo, hi - 1, off, f, g);
    }
  }

  /** The order of a double sum does not matter. */
  lemma {:induction false} SumExchange(n: int, m: int, f: (int, int) -> real)
    ensures Sum(0, n, i => Sum(0, m, j => f(i, j))) == Sum(0, m, j => Sum(0, n, i => f(i, j)))
    decreases n
  {
    var cols := j => Sum(0, n, i => f(i, j));
    if n <= 0 {
      SumZero(0, m, cols);
    } else {
      SumExchange(n - 1, m, f);
      var head := j => Sum(0, n - 1, i => f(i, j));
      var last := j => f(n - 1, j);
      forall j | 0 <= j < m ensures cols(j) == head(j) + last(j) {
        assert Sum(0, n, i => f(i, j)) == Sum(0, n - 1, i => f(i, j)) + (i => f(i, j))(n - 1);
      }
      SumAdd(0, m, head, last, cols);
      var rows := i => Sum(0, m, j => f(i, j));
      assert Sum(0, n, rows) == Sum(0, n - 1, rows) + rows(n - 1);
      SumExt(0, m, j => f(n - 1, j), last);
    }
  }

  /** One row, and one column, of a table of summands. */
  function AlongRow(f: (int, int) -> real, i: int): int -> real { j => f(i, j) }

  function AlongColumn(f: (int, int) -> real, j: int): int -> real { i => f(i, j) }

  /** Adding up the rows is adding up the columns. */
  lemma SumSwap(n: int, m: int, f: (int, int) -> real, rows: int -> real, columns: int -> real)
    requires forall i :: 0 <= i < n ==> rows(i) == Sum(0, m, AlongRow(f, i))
    requires forall j :: 0 <= j < m ==> columns(j) == Sum(0, n, AlongColumn(f, j))
    ensures Sum(0, n, rows) == Sum(0, m, columns)
  {
    SumExchange(n, m, f);
    forall i | 0 <= i < n ensures rows(i) == Sum(0, m, j => f(i, j)) { SumExt(0, m, AlongRow(f, i), j => f(i, j)); }
    forall j | 0 <= j < m ensures columns(j) == Sum(0, n, i => f(i, j)) {
      SumExt(0, n, AlongColumn(f, j), i => f(i, j));
    }
    SumExt(0, n, rows, i => Sum(0, m, j => f(i, j)));
    SumExt(0, m, columns, j => Sum(0, n, i => f(i, j)));
  }

  /** The mean of the first `n` values of `f`; 0 when there are none. */
  function Mean(n: nat, f: int -> real): real
  {
    if n == 0 then 0.0 else Sum(0, n, f) / n as real
  }
}
