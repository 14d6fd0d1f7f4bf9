/** The exact K correction: renormalising the base softmax under logit shifts. */
module ExactSoftmax {

  import opened Numbers
  import opened Sums

  /** All that is used of the exponential. */
  ghost predicate Exponential(exp: real -> real)
  {
    && exp(0.0) == 1.0
    && (forall x :: exp(x) > 0.0)
    && (forall x, y :: exp(x + y) == exp(x) * exp(y))
  }

  function Exps(exp: real -> real, s: Vec): int -> real { t => exp(At(s, t)) }

  function Softmax(exp: real -> real, s: Vec, t: int): real
  {
    var z := Sum(0, |s|, Exps(exp, s));
    if z == 0.0 then 0.0 else Exps(exp, s)(t) / z
  }

  /** The clamp under the renormalising sum. */
  const FLOOR := 0.000000000000000000000000000001

  function Unnormalised(exp: real -> real, a: Vec, ds: Vec): int -> real
  {
    var top := if ds == [] then 0.0 else MaxOf(ds);
    t => At(a, t) * exp(At(ds, t) - top)
  }

  lemma UnnormalisedAt(exp: real -> real, a: Vec, ds: Vec, u: nat)
    requires |ds| == |a| && u < |a|
    ensures Unnormalised(exp, a, ds)(u) == a[u] * exp(ds[u] - MaxOf(ds))
    ensures a[u] == 0.0 ==> Unnormalised(exp, a, ds)(u) == 0.0
  {
    hide MaxOf;
  }

  function Mass(exp: real -> real, a: Vec, ds: Vec): real { Sum(0, |a|, Unnormalised(exp, a, ds)) }

  function NewWeight(exp: real -> real, a: Vec, ds: Vec): int -> real
  {
    var z := RMax(Mass(exp, a, ds), FLOOR);
    t => Unnormalised(exp, a, ds)(t) / z
  }

  /** One coordinate of the new output minus the old, over the corrected values `x`. */
  function ExactDelta(exp: real -> real, a: Vec, ds: Vec, x: int -> real, o: real): real
  {
    Sum(0, |a|, Times(NewWeight(exp, a, ds), x)) - o
  }

  /** Base attention: non-negative weights that sum to one. */
  ghost predicate Weights(a: Vec)
  {
    (forall t :: 0 <= t < |a| ==> a[t] >= 0.0) && Sum(0, |a|, Values(a)) == 1.0
  }

  lemma NewWeightsNonNegative(exp: real -> real, a: Vec, ds: Vec, t: nat)
    requires Exponential(exp) && Weights(a) && t < |a|
    ensures NewWeight(exp, a, ds)(t) >= 0.0
  {
    hide Exponential;
    var top := if ds == [] then 0.0 else MaxOf(ds);
    ExpPositive(exp, At(ds, t) - top);
    MulNonNeg(a[t], exp(At(ds, t) - top));
    var u, z := Unnormalised(exp, a, ds)(t), RMax(Mass(exp, a, ds), FLOOR);
    var w := u / z;
    assert u == w * z;
    ScaleIff(0.0, w, z);
  }

  /** The new weights are normalised exactly when the clamp is inactive. */
  lemma NewWeightsNormalised(exp: real -> real, a: Vec, ds: Vec)
    ensures Sum(0, |a|, NewWeight(exp, a, ds)) == 1.0 <==> Mass(exp, a, ds) >= FLOOR
  {
    hide Unnormalised;
    var m := Mass(exp, a, ds);
    var z := RMax(m, FLOOR);
    var un := Unnormalised(exp, a, ds);
    QuotientSum(|a|, un, NewWeight(exp, a, ds), z);
    var w := Sum(0, |a|, NewWeight(exp, a, ds));
    UnitFactor(m, z, w);
  }

  lemma QuotientSum(n: nat, un: int -> real, w: int -> real, z: real)
    requires z > 0.0 && forall t :: 0 <= t < n ==> w(t) == un(t) / z
    ensures Sum(0, n, un) == z * Sum(0, n, w)
  {
    forall t | 0 <= t < n ensures un(t) == z * w(t) {
      var u, q := un(t), w(t);
      assert u == u / z * z;
    }
    SumScale(0, n, z, w, un);
  }

  lemma UnitFactor(m: real, z: real, w: real)
    requires z > 0.0 && m == z * w
    ensures w == 1.0 <==> m == z
  {
    if m == z { assert z * (w - 1.0) == 0.0; }
  }

  lemma ExpPositive(exp: real -> real, x: real)
    requires Exponential(exp)
    ensures exp(x) > 0.0
  {
  }

  lemma ExpAdd(exp: real -> real, x: real, y: real)
    requires Exponential(exp)
    ensures exp(x + y) == exp(x) * exp(y)
  {
  }

  lemma ExpShift(exp: real -> real, x: real, y: real)
    requires Exponential(exp)
    ensures exp(x - y) * exp(y) == exp(x)
  {
    hide Exponential;
    ExpAdd(exp, x - y, y);
    assert (x - y) + y == x;
  }

  lemma ExpSumPositive(exp: real -> real, s: Vec)
    requires Exponential(exp) && s != []
    ensures Sum(0, |s|, Exps(exp, s)) > 0.0
  {
    forall u | 0 <= u < |s| ensures Exps(exp, s)(u) > 0.0 { ExpPositive(exp, At(s, u)); }
    hide Exponential, Exps;
    SumAtLeastOne(0, |s|, Exps(exp, s), 0);
  }

  /** The exponentials of the shifted logits are the unnormalised weights, times one factor. */
  lemma ShiftedExps(exp: real -> real, s: Vec, a: Vec, ds: Vec, shifted: Vec) returns (c: real)
    requires Exponential(exp) && |a| == |s| == |ds| == |shifted| && a != []
    requires forall u :: 0 <= u < |a| ==> a[u] == Softmax(exp, s, u) && shifted[u] == s[u] + ds[u]
    ensures c > 0.0
    ensures forall u :: 0 <= u < |a| ==> Exps(exp, shifted)(u) == c * Unnormalised(exp, a, ds)(u)
  {
    hide Unnormalised, MaxOf, Softmax, Exponential, Sum, Exps;
    var z, p := Sum(0, |s|, Exps(exp, s)), exp(MaxOf(ds));
    ExpSumPositive(exp, s);
    ExpPositive(exp, MaxOf(ds));
    MulPositive(z, p);
    c := z * p;
    forall u | 0 <= u < |a| ensures Exps(exp, shifted)(u) == c * Unnormalised(exp, a, ds)(u) {
      ShiftedExp(exp, s, a, ds, shifted, z, c, u);
    }
  }

  /** With softmax base weights the renormalised weights are the softmax of the shifted logits,
    * whatever maximum was subtracted. */
  lemma NewWeightIsSoftmax(exp: real -> real, s: Vec, a: Vec, ds: Vec, shifted: Vec, t: nat)
    requires Exponential(exp) && |a| == |s| == |ds| == |shifted| && t < |a|
    requires forall u :: 0 <= u < |a| ==> a[u] == Softmax(exp, s, u) && shifted[u] == s[u] + ds[u]
    requires Mass(exp, a, ds) >= FLOOR
    ensures NewWeight(exp, a, ds)(t) == Softmax(exp, shifted, t)
  {
    hide Unnormalised, Exponential, Exps, MaxOf;
    var c := ShiftedExps(exp, s, a, ds, shifted);
    ExpSumPositive(exp, shifted);
    var un := Unnormalised(exp, a, ds);
    SumScale(0, |a|, c, un, Exps(exp, shifted));
    QuotientScale(c, un(t), Mass(exp, a, ds));
  }

  lemma ShiftedExp(exp: real -> real, s: Vec, a: Vec, ds: Vec, shifted: Vec, z: real, c: real, u: nat)
    requires Exponential(exp) && |a| == |s| == |ds| == |shifted| && u < |a|
    requires z == Sum(0, |s|, Exps(exp, s)) && z > 0.0 && c == z * exp(MaxOf(ds))
    requires a[u] == Softmax(exp, s, u) && shifted[u] == s[u] + ds[u]
    ensures Exps(exp, shifted)(u) == c * Unnormalised(exp, a, ds)(u)
  {
    hide Exponential, MaxOf, Unnormalised;
    var sum, diff, un := At(shifted, u), ds[u] - MaxOf(ds), Unnormalised(exp, a, ds)(u);
    UnnormalisedAt(exp, a, ds, u);
    UnnormalisedIsShifted(exp, At(s, u), ds[u], MaxOf(ds), z, a[u], sum, diff, un);
  }

  lemma UnnormalisedIsShifted(exp: real -> real, s: real, ds: real, top: real, z: real, a: real,
                              sum: real, diff: real, un: real)
    requires Exponential(exp) && z > 0.0 && a == exp(s) / z && sum == s + ds && diff == ds - top
    requires un == a * exp(diff)
    ensures exp(sum) == z * exp(top) * un
  {
    hide Exponential;
    ExpShift(exp, ds, top);
    ExpAdd(exp, s, ds);
    Regroup(z, exp(top), a, exp(diff));
  }

  lemma Regroup(z: real, p: real, a: real, q: real)
    ensures z * p * (a * q) == (a * z) * (q * p)
  {
  }

  lemma QuotientScale(c: real, w: real, m: real)
    requires c > 0.0 && m > 0.0
    ensures c * m > 0.0 && c * w / (c * m) == w / m
  {
    assert c * m > 0.0;
    assert w == w / m * m;
    assert c * w == w / m * (c * m);
  }

  /** The corrected output is a weighted mean of the corrected values, so it stays inside any bounds
    * they all satisfy. */
  lemma CorrectedOutputInHull(exp: real -> real, a: Vec, ds: Vec, x: int -> real, o: real, lo: real, hi: real)
    requires Exponential(exp) && Weights(a) && Mass(exp, a, ds) >= FLOOR
    requires forall t :: 0 <= t < |a| ==> lo <= x(t) <= hi
    ensures lo <= o + ExactDelta(exp, a, ds, x, o) <= hi
  {
    hide NewWeight, Mass;
    NewWeightsNormalised(exp, a, ds);
    forall t | 0 <= t < |a| ensures NewWeight(exp, a, ds)(t) >= 0.0 {
      NewWeightsNonNegative(exp, a, ds, t);
    }
    MeanInBounds(|a|, NewWeight(exp, a, ds), x, lo, hi);
  }

  lemma MeanInBounds(n: nat, w: int -> real, x: int -> real, lo: real, hi: real)
    requires forall t :: 0 <= t < n ==> w(t) >= 0.0 && lo <= x(t) <= hi
    requires Sum(0, n, w) == 1.0
    ensures lo <= Sum(0, n, Times(w, x)) <= hi
  {
    hide Sum, Prod;
    var low, high := t => lo * w(t), t => hi * w(t);
    forall t | 0 <= t < n ensures low(t) <= Times(w, x)(t) <= high(t) {
      WeightedBounds(w(t), x(t), lo, hi);
    }
    SumScale(0, n, lo, w, low);
    SumScale(0, n, hi, w, high);
    SumMono(0, n, low, Times(w, x));
    SumMono(0, n, Times(w, x), high);
  }

  lemma WeightedBounds(w: real, x: real, lo: real, hi: real)
    requires w >= 0.0 && lo <= x <= hi
    ensures lo * w <= Prod(w, x) <= hi * w
  {
    MulMono(lo, x, w);
    MulMono(x, hi, w);
  }

  /** A shift of the maximum alone rescales the unnormalised weight. */
  lemma Retopped(exp: real -> real, a: real, d: real, top: real, top': real)
    requires Exponential(exp)
    ensures a * exp(d - top) == exp(top' - top) * (a * exp(d - top'))
  {
    ExpAdd(exp, d - top', top' - top);
    assert (d - top') + (top' - top) == d - top;
    hide Exponential;
    Swap3(a, exp(d - top'), exp(top' - top));
  }

  lemma Swap3(a: real, b: real, c: real)
    ensures a * (b * c) == c * (a * b)
  {
  }

  lemma RetoppedAt(exp: real -> real, a: Vec, ds: Vec, ds': Vec, u: nat)
    requires Exponential(exp) && |ds| == |ds'| == |a| && u < |a| && (a[u] == 0.0 || ds[u] == ds'[u])
    ensures Unnormalised(exp, a, ds)(u) == exp(MaxOf(ds') - MaxOf(ds)) * Unnormalised(exp, a, ds')(u)
  {
    hide Exponential, Unnormalised, MaxOf;
    UnnormalisedAt(exp, a, ds, u);
    UnnormalisedAt(exp, a, ds', u);
    if a[u] != 0.0 { Retopped(exp, a[u], ds[u], MaxOf(ds), MaxOf(ds')); }
  }

  /** Shifts of tokens without weight change no weight: not the maximum they may set, nor the sum. */
  lemma UnweightedShifts(exp: real -> real, a: Vec, ds: Vec, ds': Vec, t: nat)
    requires Exponential(exp) && |ds| == |ds'| == |a| && t < |a|
    requires forall u :: 0 <= u < |a| ==> a[u] == 0.0 || ds[u] == ds'[u]
    requires Mass(exp, a, ds) >= FLOOR && Mass(exp, a, ds') >= FLOOR
    ensures NewWeight(exp, a, ds)(t) == NewWeight(exp, a, ds')(t)
    ensures a[t] == 0.0 ==> NewWeight(exp, a, ds)(t) == 0.0
  {
    hide Unnormalised, MaxOf, Exponential;
    var un, un' := Unnormalised(exp, a, ds), Unnormalised(exp, a, ds');
    UnnormalisedAt(exp, a, ds, t);
    var c := exp(MaxOf(ds') - MaxOf(ds));
    ExpPositive(exp, MaxOf(ds') - MaxOf(ds));
    forall u | 0 <= u < |a| ensures un(u) == c * un'(u) { RetoppedAt(exp, a, ds, ds', u); }
    SumScale(0, |a|, c, un', un);
    QuotientScale(c, un'(t), Mass(exp, a, ds'));
  }

  /** Without any shift the mass is the whole of the base weights. */
  lemma NoShiftMass(exp: real -> real, a: Vec, ds: Vec)
    requires Exponential(exp) && Weights(a) && |ds| == |a|
    requires forall u :: 0 <= u < |ds| ==> ds[u] == 0.0
    ensures Mass(exp, a, ds) == 1.0
  {
    assert exp(0.0) == 1.0;
    assert ds != [] ==> MaxOf(ds) == 0.0;
    hide Exponential, MaxOf;
    forall u | 0 <= u < |a| ensures Unnormalised(exp, a, ds)(u) == Values(a)(u) {
      assert At(ds, u) - MaxOf(ds) == 0.0;
    }
    SumExt(0, |a|, Unnormalised(exp, a, ds), Values(a));
  }

  /** Without a logit shift the weights are the base weights. */
  lemma NoShiftKeepsWeights(exp: real -> real, a: Vec, ds: Vec, t: nat)
    requires Exponential(exp) && Weights(a) && |ds| == |a| && t < |a|
    requires forall u :: 0 <= u < |ds| ==> ds[u] == 0.0
    ensures NewWeight(exp, a, ds)(t) == a[t]
  {
    assert MaxOf(ds) == 0.0;
    assert exp(0.0) == 1.0;
    hide Exponential, MaxOf;
    forall u | 0 <= u < |a| ensures Unnormalised(exp, a, ds)(u) == Values(a)(u) {
      assert At(ds, u) - MaxOf(ds) == 0.0;
    }
    SumExt(0, |a|, Unnormalised(exp, a, ds), Values(a));
  }

  /** Without a logit shift the exact form is the linear V term: the fall-through loses nothing. */
  lemma NoShiftIsLinear(exp: real -> real, a: Vec, ds: Vec, v: int -> real, rho: int -> real, x: int -> real, o: real)
    requires Exponential(exp) && Weights(a) && |ds| == |a|
    requires forall u :: 0 <= u < |ds| ==> ds[u] == 0.0
    requires forall t :: 0 <= t < |a| ==> x(t) == v(t) + rho(t)
    requires o == Sum(0, |a|, Times(Values(a), v))
    ensures ExactDelta(exp, a, ds, x, o) == Sum(0, |a|, Times(Values(a), rho))
  {
    hide NewWeight;
    var w := NewWeight(exp, a, ds);
    forall t | 0 <= t < |a|
      ensures Times(w, x)(t) == Times(Values(a), v)(t) + Times(Values(a), rho)(t)
    {
      NoShiftKeepsWeights(exp, a, ds, t);
      assert a[t] * (v(t) + rho(t)) == a[t] * v(t) + a[t] * rho(t);
    }
    SumAdd(0, |a|, Times(Values(a), v), Times(Values(a), rho), Times(w, x));
  }
}
