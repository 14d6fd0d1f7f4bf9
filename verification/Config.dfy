/** Cache configuration, and the per-layer budget multipliers with their conservation laws. */
module Config {

  import opened Numbers
  import opened Sums
  import Quantizer

  datatype Option<+T> = None | Some(value: T)

  datatype BudgetPolicy = Uniform | UShaped | Sensitivity | LayerHeadImpact

  datatype BudgetMode = Ratio | Absolute | AdaptiveScore

  datatype RoutePolicy = Joint | Separate | KFirst | Adaptive

  /** How residual storage splits its budget between K and V. */
  datatype StorePolicy = StoreJoint | PerKind | KindAware

  /** Which residual kinds are stored and read. */
  datatype Wanted = OnlyV | OnlyK | Both {
    predicate K() { this != OnlyV }
    predicate V() { this != OnlyK }
  }

  datatype Baseline = CareKv | MagnitudeOnly | AttentionOnly | OracleProxy

  /** A ratio or absolute budget, with optional per-kind ratios. */
  datatype Budget = Budget(mode: BudgetMode, ratio: real, ratioK: Option<real>, ratioV: Option<real>,
                           absK: int, absV: int)

  datatype CacheConfig = CacheConfig(
    numLayers: nat, numKvHeads: nat, headDim: nat, pageSize: nat, maxPages: nat,
    baseBits: nat, residualBits: nat, groupSize: nat, packedBase: bool,
    kChannelGroup: nat, vTokenBlock: nat,
    store: Budget, storePolicy: StorePolicy, read: Budget, wanted: Wanted,
    relThreshold: real, absThreshold: real, minKeep: int,
    routePolicy: RoutePolicy, baseline: Baseline,
    budgetPolicy: BudgetPolicy, layerSensitivity: seq<real>)
  {
    /** Channel groups of a K page, and token blocks of a V page. */
    function NumCg(): nat
      requires kChannelGroup > 0
    {
      headDim / kChannelGroup
    }

    function NumVb(): nat
      requires vTokenBlock > 0
    {
      (pageSize + vTokenBlock - 1) / vTokenBlock
    }

    /** Sizes the buffers and quantizers are documented for. */
    predicate Valid()
    {
      && numLayers > 0 && numKvHeads > 0 && pageSize > 0 && kChannelGroup > 0 && vTokenBlock > 0
      && 2 <= baseBits <= 4 && groupSize > 0 && headDim % groupSize == 0
      && (packedBase ==> headDim % Quantizer.PerGroup(baseBits) == 0)
      && |layerSensitivity| == numLayers
    }
  }

  // ---- per-layer multipliers ----

  /** Edge-heavy raw weights: 2.0 at both ends, 0.5 in the middle. */
  function UShapeRaw(n: nat): (w: int -> real)
    requires n > 1
    ensures forall l :: w(l) >= 0.5
  {
    l => 0.5 + 1.5 * Abs(2.0 * (l as real / (n - 1) as real) - 1.0)
  }

  /** The configured sensitivities; an empty list stands for all ones. */
  function Sensitivities(sens: seq<real>): int -> real
  {
    l => if sens == [] then 1.0 else At(sens, l)
  }

  /** The budget scaling factor of layer `l` among `n`. */
  function Multiplier(policy: BudgetPolicy, sens: seq<real>, n: nat, l: nat): real
    requires l < n
  {
    if policy == Uniform || n <= 1 then 1.0
    else if policy == UShaped then
      UShapeIsPositive(n);
      UShapeRaw(n)(l) / Mean(n, UShapeRaw(n))
    else if policy == Sensitivity then
      var mean := Mean(n, Sensitivities(sens));
      if mean <= 0.0 then 1.0 else Sensitivities(sens)(l) / mean
    else 1.0
  }

  lemma UShapeIsPositive(n: nat)
    requires n > 1
    ensures Mean(n, UShapeRaw(n)) > 0.0
  {
    var f := UShapeRaw(n);
    SumAtLeastOne(0, n, f, 0);
    QuotientPositive(Sum(0, n, f), n as real);
  }

  lemma QuotientPositive(a: real, b: real)
    requires a > 0.0 && b > 0.0
    ensures a / b > 0.0
  {
    assert a == a / b * b;
    if a / b <= 0.0 { ScaleIff(a / b, 0.0, b); assert false; }
  }

  lemma {:induction false} SumOfOnes(n: nat, f: int -> real)
    requires forall t :: 0 <= t < n ==> f(t) == 1.0
    ensures Sum(0, n, f) == n as real
  {
    if n == 0 {
    } else {
      SumOfOnes(n - 1, f);
    }
  }

  lemma Cancel(m: real, x: real, y: real)
    requires m != 0.0 && m * x == m * y
    ensures x == y
  {
    assert m * (x - y) == 0.0;
  }

  lemma MeanNormalised(n: nat, raw: int -> real, f: int -> real)
    requires n > 0 && Mean(n, raw) != 0.0
    requires forall t :: 0 <= t < n ==> f(t) == raw(t) / Mean(n, raw)
    ensures Sum(0, n, f) == n as real
  {
    var m := Mean(n, raw);
    forall t | 0 <= t < n ensures raw(t) == m * f(t) { assert raw(t) / m * m == raw(t); }
    SumScale(0, n, m, f, raw);
    assert m * n as real == Sum(0, n, raw);
    Cancel(m, Sum(0, n, f), n as real);
  }

  /** Whatever the policy, the multipliers of all layers add up to the number of layers. */
  lemma MultipliersConserve(policy: BudgetPolicy, sens: seq<real>, n: nat, f: int -> real)
    requires n > 0
    requires forall l :: 0 <= l < n ==> f(l) == Multiplier(policy, sens, n, l)
    ensures Sum(0, n, f) == n as real
  {
    if policy == UShaped && n > 1 {
      UShapeIsPositive(n);
      MeanNormalised(n, UShapeRaw(n), f);
    } else if policy == Sensitivity && n > 1 && Mean(n, Sensitivities(sens)) > 0.0 {
      MeanNormalised(n, Sensitivities(sens), f);
    } else {
      SumOfOnes(n, f);
    }
  }

  lemma MultiplierNonNegative(policy: BudgetPolicy, sens: seq<real>, n: nat, l: nat)
    requires l < n && forall i :: 0 <= i < |sens| ==> sens[i] >= 0.0
    ensures Multiplier(policy, sens, n, l) >= 0.0
  {
    if policy == UShaped && n > 1 {
      UShapeIsPositive(n);
      QuotientPositive(UShapeRaw(n)(l), Mean(n, UShapeRaw(n)));
    } else if policy == Sensitivity && n > 1 && Mean(n, Sensitivities(sens)) > 0.0 {
      var w := Sensitivities(sens)(l);
      if w > 0.0 { QuotientPositive(w, Mean(n, Sensitivities(sens))); }
    }
  }

  /** A layer's factor is positive unless the sensitivity policy, on a positive mean, gives that layer a
    * sensitivity of zero or less. */
  lemma MultiplierPositiveIff(policy: BudgetPolicy, sens: seq<real>, n: nat, l: nat)
    requires l < n
    ensures Multiplier(policy, sens, n, l) > 0.0
       <==> !(policy == Sensitivity && n > 1 && Mean(n, Sensitivities(sens)) > 0.0 && Sensitivities(sens)(l) <= 0.0)
  {
    if policy == UShaped && n > 1 {
      UShapeIsPositive(n);
      QuotientPositive(UShapeRaw(n)(l), Mean(n, UShapeRaw(n)));
    } else if policy == Sensitivity && n > 1 && Mean(n, Sensitivities(sens)) > 0.0 {
      QuotientSign(Sensitivities(sens)(l), Mean(n, Sensitivities(sens)));
    }
  }

  lemma QuotientSign(a: real, b: real)
    requires b > 0.0
    ensures a / b > 0.0 <==> a > 0.0
  {
    assert a == a / b * b;
    ScaleIff(a / b, 0.0, b);
  }

  /** Such layers exist: with sensitivities 1, 0 and -0.5 the second layer's factor is zero and the third's
    * negative; with all of them zero every factor is one. */
  lemma SomeMultipliers()
    ensures Multiplier(Sensitivity, [1.0, 0.0, -0.5], 3, 1) == 0.0
    ensures Multiplier(Sensitivity, [1.0, 0.0, -0.5], 3, 2) < 0.0
    ensures Multiplier(Sensitivity, [0.0, 0.0, 0.0], 3, 0) == 1.0
  {
    var f, z := Sensitivities([1.0, 0.0, -0.5]), Sensitivities([0.0, 0.0, 0.0]);
    assert Sum(0, 1, f) == 1.0 && Sum(0, 2, f) == 1.0 && Sum(0, 3, f) == 0.5;
    SumZero(0, 3, z);
  }

  /** An absolute per-layer budget: `int(round(max(0, b) * lm))`. */
  function LayerBudget(b: int, lm: real): int { Round(Max(0, b) as real * lm) }

  lemma LayerBudgetWithin(b: int, lm: real)
    ensures Within(LayerBudget(b, lm) as real, Max(0, b) as real * lm, 0.5)
  {
  }

  lemma LayerDrift(b: int, lm: real, exact: real)
    requires exact == Max(0, b) as real * lm
    ensures Within(LayerBudget(b, lm) as real, exact, 0.5)
  {
    LayerBudgetWithin(b, lm);
  }

  /** How far layer `l` is from the middle of `n`, doubled. */
  function Off(n: nat, l: nat): real { Abs(2.0 * l as real - (n - 1) as real) }

  lemma RawFromOff(n: nat, l: nat)
    requires n > 1
    ensures UShapeRaw(n)(l) == 0.5 + 1.5 * Off(n, l) / (n - 1) as real
  {
    RawAt(l as real, (n - 1) as real);
  }

  lemma RawAt(y: real, d: real)
    requires d > 0.0
    ensures 0.5 + 1.5 * Abs(2.0 * (y / d) - 1.0) == 0.5 + 1.5 * Abs(2.0 * y - d) / d
  {
    var q, x := y / d, 2.0 * y - d;
    assert y == q * d;
    assert x == (2.0 * q - 1.0) * d;
    ExactQuotient(2.0 * q - 1.0, d, x);
    AbsQuotient(x, d);
    ExactQuotient(1.5 * (Abs(x) / d), d, 1.5 * Abs(x));
  }

  lemma AbsQuotient(x: real, d: real)
    requires d > 0.0
    ensures Abs(x / d) == Abs(x) / d
  {
    if x > 0.0 { QuotientPositive(x, d); } else if x < 0.0 { QuotientPositive(-x, d); assert x / d == -(-x / d); }
  }

  /** The U shape: layers equally far from the middle get the same multiplier, farther ones a larger one, and the edges
    * four times what an exact middle gets. */
  lemma UShapeFavoursEdges(sens: seq<real>, n: nat, k: nat, l: nat)
    requires n > 1 && k < n && l < n
    ensures Off(n, k) == Off(n, l) ==> Multiplier(UShaped, sens, n, k) == Multiplier(UShaped, sens, n, l)
    ensures Off(n, k) < Off(n, l) ==> Multiplier(UShaped, sens, n, k) < Multiplier(UShaped, sens, n, l)
    ensures Off(n, k) == 0.0 && l == 0 ==> Multiplier(UShaped, sens, n, l) == 4.0 * Multiplier(UShaped, sens, n, k)
  {
    hide UShapeRaw, Off;
    UShapeIsPositive(n);
    RawFromOff(n, k);
    RawFromOff(n, l);
    OffEnds(n);
    RawOrder(Off(n, k), Off(n, l), (n - 1) as real, Mean(n, UShapeRaw(n)));
  }

  lemma OffEnds(n: nat)
    requires n > 1
    ensures Off(n, 0) == (n - 1) as real
  {
  }

  lemma RawOrder(a: real, b: real, d: real, mean: real)
    requires d > 0.0 && mean > 0.0
    ensures a < b ==> (0.5 + 1.5 * a / d) / mean < (0.5 + 1.5 * b / d) / mean
    ensures a == 0.0 && b == d ==> (0.5 + 1.5 * b / d) / mean == 4.0 * ((0.5 + 1.5 * a / d) / mean)
  {
    if a < b {
      SmallerQuotient(1.5 * a, 1.5 * b, d);
      SmallerQuotient(0.5 + 1.5 * a / d, 0.5 + 1.5 * b / d, mean);
    }
    if a == 0.0 && b == d {
      assert 1.5 * b / d == 1.5 && 1.5 * a / d == 0.0;
      DivAsMul(2.0, mean);
      DivAsMul(0.5, mean);
    }
  }

  lemma SmallerQuotient(a: real, b: real, d: real)
    requires a < b && d > 0.0
    ensures a / d < b / d
  {
    var x, y := a / d, b / d;
    assert a == x * d && b == y * d;
    ScaleIff(y, x, d);
  }

  /** Under the sensitivity policy, on a positive mean, multipliers are in proportion to the sensitivities. */
  lemma SensitivityProportional(sens: seq<real>, n: nat, k: nat, l: nat)
    requires k < n && l < n && n > 1 && Mean(n, Sensitivities(sens)) > 0.0
    ensures Multiplier(Sensitivity, sens, n, k) * Sensitivities(sens)(l)
         == Multiplier(Sensitivity, sens, n, l) * Sensitivities(sens)(k)
  {
    hide Mean, Sensitivities;
    CrossQuotient(Sensitivities(sens)(k), Sensitivities(sens)(l), Mean(n, Sensitivities(sens)));
  }

  lemma CrossQuotient(x: real, y: real, d: real)
    requires d != 0.0
    ensures x / d * y == y / d * x
  {
    var p, q := x / d, y / d;
    assert x == p * d && y == q * d;
    assert p * (q * d) == q * (p * d);
  }

  /** Rounding moves the total over all layers by at most half a slot a layer. */
  lemma BudgetDrift(policy: BudgetPolicy, sens: seq<real>, n: nat, b: int, f: int -> real)
    requires n > 0
    requires forall l :: 0 <= l < n ==> f(l) == LayerBudget(b, Multiplier(policy, sens, n, l)) as real
    ensures Within(Sum(0, n, f), n as real * Max(0, b) as real, n as real / 2.0)
  {
    hide Multiplier, LayerBudget, Sum, Within;
    var mult := l => if 0 <= l < n then Multiplier(policy, sens, n, l) else 0.0;
    var exact := l => Max(0, b) as real * mult(l);
    MultipliersConserve(policy, sens, n, mult);
    SumScale(0, n, Max(0, b) as real, mult, exact);
    forall l | 0 <= l < n ensures Within(f(l), exact(l), 0.5) { LayerDrift(b, mult(l), exact(l)); }
    SumsWithin(n, f, exact);
    assert Sum(0, n, exact) == n as real * Max(0, b) as real;
  }

  lemma {:induction false} SumsWithin(n: nat, f: int -> real, g: int -> real)
    requires forall t :: 0 <= t < n ==> Within(f(t), g(t), 0.5)
    ensures Within(Sum(0, n, f), Sum(0, n, g), n as real / 2.0)
  {
    if n == 0 {
    } else {
      SumsWithin(n - 1, f, g);
      assert Within(f(n - 1), g(n - 1), 0.5);
    }
  }
}
