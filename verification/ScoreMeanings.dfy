/** What the factors of the router's scores measure. */
module ScoreMeanings {

  import opened Numbers
  import opened Sums
  import opened Config
  import opened Pages
  import opened Router
  import opened StorePlan
  import opened TrueSlots

  // ---- boundary risk ----

  /** How far the logit of a token is from the top one, and no less than the floor. */
  function Margin(query: Query, t: int): (m: real)
    ensures m >= EPS
  {
    RMax((if query.s == [] then 0.0 else MaxOf(query.s)) - At(query.s, t), EPS)
  }

  ghost predicate NonNegativeOn(a: Vec, start: nat, len: nat)
  {
    forall t :: start <= t < start + len ==> At(a, t) >= 0.0
  }

  lemma Between(w: real, x: real, lo: real, hi: real)
    requires w >= 0.0 && lo <= x <= hi
    ensures Prod(lo, w) <= Prod(w, x) <= Prod(hi, w)
  {
    MulMono(lo, x, w);
    MulMono(x, hi, w);
  }

  /** A sum of non-negatively weighted values lies between the weight's sum times the least and the greatest of them. */
  lemma WeightedBetween(a: int, b: int, w: int -> real, f: int -> real, x: int -> real, lo: real, hi: real)
    requires forall t :: a <= t < b ==> w(t) >= 0.0 && lo <= x(t) <= hi && f(t) == Prod(w(t), x(t))
    ensures Prod(lo, Sum(a, b, w)) <= Sum(a, b, f) <= Prod(hi, Sum(a, b, w))
  {
    hide Sum, Prod;
    var low, high := t => Prod(lo, w(t)), t => Prod(hi, w(t));
    forall t | a <= t < b ensures low(t) <= f(t) <= high(t) { Between(w(t), x(t), lo, hi); }
    SumProd(a, b, lo, w, low);
    SumProd(a, b, hi, w, high);
    SumMono(a, b, low, f);
    SumMono(a, b, f, high);
  }

  lemma ProdOf(x: real, y: real, z: real)
    requires y == z
    ensures x * y == Prod(x, z)
  {
  }

  function Closeness(query: Query): int -> real { t => 1.0 / Margin(query, t) }

  /** The risk of a page is its attention mass over its tokens' distance from the top logit: between the mass over the
    * largest and the mass over the smallest of those distances. */
  lemma RiskBetween(query: Query, start: nat, len: nat, lo: real, hi: real)
    requires NonNegativeOn(query.a, start, len) && 0.0 < lo <= hi
    requires forall t :: start <= t < start + len ==> lo <= Margin(query, t) <= hi
    ensures Prod(1.0 / hi, AttnMass(query.a, start, len)) <= BoundaryRisk(query, start, len)
    ensures BoundaryRisk(query, start, len) <= Prod(1.0 / lo, AttnMass(query.a, start, len))
  {
    hide MaxOf, Sum, Prod, At;
    var top := if query.s == [] then 0.0 else MaxOf(query.s);
    var mass := t => At(query.a, t);
    var risk := t => At(query.a, t) * (1.0 / RMax(top - At(query.s, t), EPS));
    forall t | start <= t < start + len
      ensures mass(t) >= 0.0 && risk(t) == Prod(mass(t), Closeness(query)(t))
      ensures 1.0 / hi <= Closeness(query)(t) <= 1.0 / lo
    {
      assert At(query.a, t) >= 0.0;
      Inverted(lo, Margin(query, t), hi);
      ProdOf(At(query.a, t), 1.0 / RMax(top - At(query.s, t), EPS), Closeness(query)(t));
    }
    WeightedBetween(start, start + len, mass, risk, Closeness(query), 1.0 / hi, 1.0 / lo);
  }

  lemma Inverted(lo: real, x: real, hi: real)
    requires 0.0 < lo <= x <= hi
    ensures 1.0 / hi <= 1.0 / x <= 1.0 / lo
  {
    OneOver(lo, x);
    OneOver(x, hi);
  }

  lemma OneOver(x: real, y: real)
    requires 0.0 < x <= y
    ensures 1.0 / y <= 1.0 / x
  {
    var p, q := 1.0 / x, 1.0 / y;
    assert p * x == 1.0 && q * y == 1.0;
    ScaleIff(q, p, x);
    QuotientPositive(1.0, y);
    MulMono(x, y, q);
  }

  // ---- value spread ----

  /** The distance of a token's value from the base output. */
  function Distance(ker: Kernels, v: seq<Vec>, query: Query): int -> real { t => ker.norm(Sub(Row(v, t), query.o)) }

  /** The spread of a page is its attention mass times its values' distance from the output: between the least and the
    * greatest of those distances. */
  lemma SpreadBetween(ker: Kernels, v: seq<Vec>, query: Query, start: nat, len: nat, lo: real, hi: real)
    requires NonNegativeOn(query.a, start, len)
    requires forall t :: start <= t < start + len ==> lo <= Distance(ker, v, query)(t) <= hi
    ensures Prod(lo, AttnMass(query.a, start, len)) <= ValueSpread(ker, v, query, start, len)
    ensures ValueSpread(ker, v, query, start, len) <= Prod(hi, AttnMass(query.a, start, len))
  {
    hide Sum, Sub, Row, At, Prod;
    var mass := t => At(query.a, t);
    var spread := t => At(query.a, t) * ker.norm(Sub(Row(v, t), query.o));
    forall t | start <= t < start + len
      ensures mass(t) >= 0.0 && spread(t) == Prod(mass(t), Distance(ker, v, query)(t))
    {
      assert At(query.a, t) >= 0.0;
      ProdOf(At(query.a, t), ker.norm(Sub(Row(v, t), query.o)), Distance(ker, v, query)(t));
    }
    WeightedBetween(start, start + len, mass, spread, Distance(ker, v, query), lo, hi);
  }

  // ---- the V score ----

  function Added(x: Vec, y: Vec): (z: Vec)
    requires |x| == |y|
    ensures |z| == |x|
  {
    seq(|x|, i requires 0 <= i < |x| => x[i] + y[i])
  }

  function Stretched(c: real, x: Vec): (z: Vec)
    ensures |z| == |x|
  {
    seq(|x|, i requires 0 <= i < |x| => c * x[i])
  }

  /** What the Euclidean norm does with sums and multiples. */
  ghost predicate Seminorm(norm: Vec -> real)
  {
    && (forall n: nat :: norm(ZeroRow(n)) == 0.0)
    && (forall x: Vec, y: Vec :: |x| == |y| ==> norm(Added(x, y)) <= norm(x) + norm(y))
    && (forall c: real, x: Vec :: norm(Stretched(c, x)) == Abs(c) * norm(x))
  }

  /** The sum of the first `n` rows, each weighted by `w`: what reading a V block adds to the output. */
  function Mixed(w: real, rows: seq<Vec>, width: nat, n: nat): (z: Vec)
    requires n <= |rows| && forall i :: 0 <= i < |rows| ==> |rows[i]| == width
    ensures |z| == width
  {
    if n == 0 then ZeroRow(width) else Added(Mixed(w, rows, width, n - 1), Stretched(w, rows[n - 1]))
  }

  lemma SeminormSum(norm: Vec -> real, x: Vec, y: Vec, c: real)
    requires Seminorm(norm) && |x| == |y| && c >= 0.0
    ensures norm(Added(x, Stretched(c, y))) <= norm(x) + c * norm(y)
  {
    assert norm(Stretched(c, y)) == Abs(c) * norm(y);
  }

  lemma {:induction false} MixedNorm(ker: Kernels, w: real, rows: seq<Vec>, width: nat, n: nat)
    requires Seminorm(ker.norm) && w >= 0.0 && n <= |rows| && forall i :: 0 <= i < |rows| ==> |rows[i]| == width
    ensures ker.norm(Mixed(w, rows, width, n)) <= w * RowNorms(ker, rows, n)
  {
    hide Seminorm, Added, Stretched;
    if n == 0 {
      SeminormZero(ker.norm, width);
    } else {
      MixedNorm(ker, w, rows, width, n - 1);
      SeminormSum(ker.norm, Mixed(w, rows, width, n - 1), rows[n - 1], w);
      Distributes(w, RowNorms(ker, rows, n - 1), ker.norm(rows[n - 1]), RowNorms(ker, rows, n));
    }
  }

  lemma SeminormZero(norm: Vec -> real, n: nat)
    requires Seminorm(norm)
    ensures norm(ZeroRow(n)) == 0.0
  {
  }

  lemma Distributes(w: real, x: real, y: real, z: real)
    requires z == x + y
    ensures w * z == w * x + w * y
  {
  }

  lemma {:induction false} ConstantMass(a: Vec, start: nat, len: nat, w: real)
    requires forall t :: start <= t < start + len ==> At(a, t) == w
    ensures AttnMass(a, start, len) == w * len as real
  {
    ConstantSum(start, len, t => At(a, t), w);
  }

  lemma {:induction false} ConstantSum(start: nat, len: nat, f: int -> real, w: real)
    requires forall t :: start <= t < start + len ==> f(t) == w
    ensures Sum(start, start + len, f) == w * len as real
  {
    if len == 0 {
    } else {
      ConstantSum(start, len - 1, f, w);
      assert Sum(start, start + len, f) == Sum(start, start + (len - 1), f) + f(start + len - 1);
      Distributes(w, (len - 1) as real, 1.0, len as real);
    }
  }

  /** Where a slot's tokens have equal weight and the recorded error is the mean norm of its rows, the V score is the
    * sensitivity times the attention-weighted norms of the rows; so it bounds what reading the slot adds to the
    * output. */
  lemma VScoreBoundsEffect(en: Engine, query: Query, e: Entry, rows: seq<Vec>, width: nat, w: real)
    requires en.Valid() && en.cfg.baseline == CareKv && Seminorm(en.ker.norm) && w >= 0.0
    requires forall t :: e.start <= t < e.start + e.len ==> At(query.a, t) == w
    requires e.len <= |rows| && forall i :: 0 <= i < |rows| ==> |rows[i]| == width
    requires e.err * e.len as real == RowNorms(en.ker, rows, e.len)
    ensures VScore(en, query, e) == w * RowNorms(en.ker, rows, e.len) * en.Sens()
    ensures VScore(en, query, e) >= en.ker.norm(Mixed(w, rows, width, e.len)) * en.Sens()
  {
    hide Seminorm, AttnMass, RowNorms, Mixed;
    ConstantMass(query.a, e.start, e.len, w);
    MixedNorm(en.ker, w, rows, width, e.len);
    var mass, norms := AttnMass(query.a, e.start, e.len), RowNorms(en.ker, rows, e.len);
    MassTimes(w, e.len as real, e.err, mass, norms, en.Sens());
    MulMono(en.ker.norm(Mixed(w, rows, width, e.len)), w * norms, en.Sens());
  }

  lemma MassTimes(w: real, n: real, err: real, mass: real, norms: real, sens: real)
    requires mass == w * n && err * n == norms
    ensures mass * err * sens == w * norms * sens
  {
    assert mass * err == w * (err * n);
  }

  // ---- the adaptive share ----

  ghost predicate Logarithm(ln: real -> real)
  {
    && ln(1.0) == 0.0
    && (forall x, y :: x > 0.0 && y > 0.0 ==> ln(x * y) == ln(x) + ln(y))
    && (forall x, y :: 0.0 < x < y ==> ln(x) < ln(y))
  }

  lemma LogInverse(ln: real -> real, x: real, y: real)
    requires Logarithm(ln) && x > 1.0 && y > 0.0 && x * y == 1.0
    ensures ln(y) == -ln(x) && ln(x) > 0.0
  {
    assert ln(x * y) == ln(x) + ln(y);
  }

  /** Attention spread evenly over at least two tokens gives the whole adaptive budget to V, and a single token all of
    * it to K. */
  lemma EntropyEnds(ker: Kernels, a: Vec, total: nat)
    requires Logarithm(ker.ln) && 1 <= |a| <= 1000000 && forall t :: 0 <= t < |a| ==> a[t] == 1.0 / |a| as real
    ensures |a| >= 2 ==> EntropyShare(ker, a) == 1.0 && VShare(total, EntropyShare(ker, a)) == total
    ensures |a| == 1 ==> EntropyShare(ker, a) == 0.0 && VShare(total, EntropyShare(ker, a)) == 0
  {
    hide Logarithm, Sum, Round;
    var n, w := |a| as real, 1.0 / |a| as real;
    assert w * n == 1.0;
    EvenFloor(w, n);
    var f := t => RMax(At(a, t), EPS) * ker.ln(RMax(At(a, t), EPS));
    var each := w * ker.ln(w);
    forall t | 0 <= t < |a| ensures f(t) == each { assert RMax(At(a, t), EPS) == w; }
    ConstantSum(0, |a|, f, each);
    assert each * n == ker.ln(w) by { assert each * n == w * n * ker.ln(w); }
    if |a| >= 2 {
      LogInverse(ker.ln, n, w);
      ExactQuotient(1.0, ker.ln(n), ker.ln(n));
      assert total as real * 1.0 == total as real;
    } else {
      LogOne(ker.ln);
    }
    RoundOfInt(total);
    RoundOfInt(0);
  }

  lemma EvenFloor(w: real, n: real)
    requires 1.0 <= n <= 1000000.0 && w * n == 1.0
    ensures w >= EPS
  {
    if w < EPS { MulMono(w, EPS, n); MulMono(n, 1000000.0, EPS); StrictTimes(w, EPS, n); assert false; }
  }

  lemma StrictTimes(x: real, y: real, n: real)
    requires x < y && n > 0.0
    ensures x * n < y * n
  {
    ScaleIff(y, x, n);
  }

  lemma LogOne(ln: real -> real)
    requires Logarithm(ln)
    ensures ln(1.0) == 0.0
  {
  }
}
