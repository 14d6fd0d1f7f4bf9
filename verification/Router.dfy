/** Residual routing: score every stored slot for one query and choose which to read. */
module Router {

  import opened Numbers
  import opened Sums
  import opened Config
  import opened Selection
  import opened Pages

  /** Kernels the router calls but does not define: the Euclidean norm, the fixed sketch
    * projection, and the natural logarithm. */
  datatype Kernels = Kernels(norm: Vec -> real, proj: seq<Vec>, ln: real -> real)

  datatype Engine = Engine(cfg: CacheConfig, layer: nat, ker: Kernels) {
    /** Sensitivities are non-negative, so budgets are. */
    predicate Valid()
    {
      && cfg.Valid() && layer < cfg.numLayers
      && (forall i :: 0 <= i < |cfg.layerSensitivity| ==> cfg.layerSensitivity[i] >= 0.0)
    }

    function Sens(): real
      requires Valid()
    {
      cfg.layerSensitivity[layer]
    }

    function Lm(): real
      requires Valid()
    {
      Multiplier(cfg.budgetPolicy, cfg.layerSensitivity, cfg.numLayers, layer)
    }
  }

  /** One query with its base logits, weights and output. */
  datatype Query = Query(q: Vec, s: Vec, a: Vec, o: Vec)

  datatype SlotRef = SlotRef(page: nat, group: nat, slot: int)

  const EPS := 0.000001

  // ---- scores ----

  function Row(v: seq<Vec>, t: int): Vec { if 0 <= t < |v| then v[t] else [] }

  function Sub(x: Vec, y: Vec): Vec { seq(|x|, d requires 0 <= d < |x| => x[d] - At(y, d)) }

  function AttnMass(a: Vec, start: nat, len: nat): real { Sum(start, start + len, t => At(a, t)) }

  /** Attention-weighted inverse margin to the top logit. */
  function BoundaryRisk(query: Query, start: nat, len: nat): real
  {
    var top := if query.s == [] then 0.0 else MaxOf(query.s);
    Sum(start, start + len, t => At(query.a, t) * (1.0 / RMax(top - At(query.s, t), EPS)))
  }

  /** Attention-weighted distance of the page's values from the base output. */
  function ValueSpread(ker: Kernels, v: seq<Vec>, query: Query, start: nat, len: nat): real
  {
    Sum(start, start + len, t => At(query.a, t) * ker.norm(Sub(Row(v, t), query.o)))
  }

  /** |q·R_K| estimated through the sketch. */
  function SketchDot(en: Engine, q: Vec, e: Entry): real
  {
    var w := en.cfg.kChannelGroup;
    Abs(Sum(0, |e.sketch|, j =>
      Sum(0, w, c => At(q, e.group * w + c) * At2(en.ker.proj, c, j)) * At(e.sketch, j)))
  }

  function KScore(en: Engine, v: seq<Vec>, query: Query, e: Entry): real
    requires en.Valid()
  {
    var mass, dot := AttnMass(query.a, e.start, e.len), SketchDot(en, query.q, e);
    match en.cfg.baseline
    case CareKv => mass * dot * BoundaryRisk(query, e.start, e.len)
                   * ValueSpread(en.ker, v, query, e.start, e.len) * en.Sens()
    case MagnitudeOnly => dot
    case AttentionOnly => mass
    case OracleProxy => dot * mass
  }

  function VScore(en: Engine, query: Query, e: Entry): real
    requires en.Valid()
  {
    var mass := AttnMass(query.a, e.start, e.len);
    match en.cfg.baseline
    case CareKv => mass * e.err * en.Sens()
    case MagnitudeOnly => e.err
    case AttentionOnly => mass
    case OracleProxy => mass * e.err
  }

  function KCands(en: Engine, v: seq<Vec>, query: Query, es: seq<Entry>): (c: seq<Candidate>)
    requires en.Valid()
    ensures |c| == |es|
  {
    seq(|es|, i requires 0 <= i < |es| =>
      Candidate(KSlot, KScore(en, v, query, es[i]), es[i].page, es[i].group, es[i].slot))
  }

  function VCands(en: Engine, query: Query, es: seq<Entry>): (c: seq<Candidate>)
    requires en.Valid()
    ensures |c| == |es|
  {
    seq(|es|, i requires 0 <= i < |es| =>
      Candidate(VSlot, VScore(en, query, es[i]), es[i].page, es[i].group, es[i].slot))
  }

  // ---- budgets ----

  function ResolvedRatio(override: Option<real>, fallback: real): real
  {
    if override.None? || override.value < 0.0 then fallback else override.value
  }

  function RatioBudget(total: nat, r: real): (b: nat)
    ensures r <= 0.0 || total == 0 ==> b == 0
    ensures r > 0.0 && total > 0 ==> b >= 1
  {
    if r > 0.0 && total > 0 then Max(1, (total as real * r).Floor) else 0
  }

  lemma LayerBudgetNonNegative(b: int, lm: real)
    requires lm >= 0.0
    ensures LayerBudget(b, lm) >= 0
  {
    MulNonNeg(Max(0, b) as real, lm);
  }

  /** A kind's budget before it is capped, on a layer with multiplier `lm`. */
  function KindBudget(r: Budget, ratio: Option<real>, abs: int, lm: real, total: nat): nat
    requires lm >= 0.0
  {
    LayerBudgetNonNegative(abs, lm);
    if r.mode == Ratio then RatioBudget(total, ResolvedRatio(ratio, r.ratio) * lm) else LayerBudget(abs, lm)
  }

  lemma MultiplierOf(en: Engine)
    requires en.Valid()
    ensures en.Lm() >= 0.0
  {
    MultiplierNonNegative(en.cfg.budgetPolicy, en.cfg.layerSensitivity, en.cfg.numLayers, en.layer);
  }

  /** The K and V read budgets of one query: a disabled kind gets none, and no kind gets more than
    * it has candidates. */
  function ReadBudgets(en: Engine, wanted: Wanted, totalK: nat, totalV: nat): (b: (nat, nat))
    requires en.Valid()
    ensures b.0 <= totalK && b.1 <= totalV
    ensures (!wanted.K() ==> b.0 == 0) && (!wanted.V() ==> b.1 == 0)
  {
    MultiplierOf(en);
    var r := en.cfg.read;
    (if wanted.K() then Min(KindBudget(r, r.ratioK, r.absK, en.Lm(), totalK), totalK) else 0,
     if wanted.V() then Min(KindBudget(r, r.ratioV, r.absV, en.Lm(), totalV), totalV) else 0)
  }

  /** The share of `total` slots a kind is entitled to on a layer: a fraction of them, or a number. */
  function Entitled(r: Budget, ratio: Option<real>, abs: int, lm: real, total: nat): real
  {
    if r.mode == Ratio then total as real * (ResolvedRatio(ratio, r.ratio) * lm) else Max(0, abs) as real * lm
  }

  lemma KindBudgetFloor(r: Budget, ratio: Option<real>, abs: int, lm: real, total: nat)
    requires lm >= 0.0
    ensures r.mode == Ratio ==>
      && (KindBudget(r, ratio, abs, lm, total) > 0 <==> total > 0 && ResolvedRatio(ratio, r.ratio) * lm > 0.0)
      && KindBudget(r, ratio, abs, lm, total) as real <= RMax(1.0, Entitled(r, ratio, abs, lm, total))
      && Entitled(r, ratio, abs, lm, total) < KindBudget(r, ratio, abs, lm, total) as real + 1.0
    ensures r.mode != Ratio ==>
      Within(KindBudget(r, ratio, abs, lm, total) as real, Entitled(r, ratio, abs, lm, total), 0.5)
  {
    var x := ResolvedRatio(ratio, r.ratio) * lm;
    if x <= 0.0 { MulNonNeg(total as real, -x); assert total as real * x == -(total as real * -x); }
  }

  /** A kind's budget against its entitlement on the layer: a fraction is rounded down, but to no less than
    * one slot when both it and the slots are positive; a number is rounded to the nearest. Both are capped by
    * the slots there are. */
  lemma ReadBudgetsScaled(en: Engine, wanted: Wanted, totalK: nat, totalV: nat)
    requires en.Valid()
    ensures var r, lm, b := en.cfg.read, en.Lm(), ReadBudgets(en, wanted, totalK, totalV);
      && (wanted.K() && r.mode == Ratio ==>
            && (b.0 > 0 <==> totalK > 0 && ResolvedRatio(r.ratioK, r.ratio) * lm > 0.0)
            && b.0 as real <= RMax(1.0, Entitled(r, r.ratioK, r.absK, lm, totalK))
            && (b.0 == totalK || Entitled(r, r.ratioK, r.absK, lm, totalK) < b.0 as real + 1.0))
      && (wanted.V() && r.mode == Ratio ==>
            && (b.1 > 0 <==> totalV > 0 && ResolvedRatio(r.ratioV, r.ratio) * lm > 0.0)
            && b.1 as real <= RMax(1.0, Entitled(r, r.ratioV, r.absV, lm, totalV))
            && (b.1 == totalV || Entitled(r, r.ratioV, r.absV, lm, totalV) < b.1 as real + 1.0))
      && (wanted.K() && r.mode != Ratio && b.0 < totalK ==>
            Within(b.0 as real, Entitled(r, r.ratioK, r.absK, lm, totalK), 0.5))
      && (wanted.V() && r.mode != Ratio && b.1 < totalV ==>
            Within(b.1 as real, Entitled(r, r.ratioV, r.absV, lm, totalV), 0.5))
  {
    hide KindBudget, Entitled, Engine.Lm;
    MultiplierOf(en);
    var r := en.cfg.read;
    KindBudgetFloor(r, r.ratioK, r.absK, en.Lm(), totalK);
    KindBudgetFloor(r, r.ratioV, r.absV, en.Lm(), totalV);
  }

  /** In ratio mode a kind's own ratio decides whenever it is given and not negative, so that zero switches the kind
    * off whatever the common one; otherwise the common one decides. */
  lemma OwnRatioDecides(en: Engine, wanted: Wanted, totalK: nat, totalV: nat)
    requires en.Valid() && en.cfg.read.mode == Ratio && en.Lm() > 0.0 && wanted == Both && totalK > 0 && totalV > 0
    ensures var r, b := en.cfg.read, ReadBudgets(en, wanted, totalK, totalV);
      && (r.ratioK.Some? && r.ratioK.value >= 0.0 ==> (b.0 > 0 <==> r.ratioK.value > 0.0))
      && (r.ratioK.None? || r.ratioK.value < 0.0 ==> (b.0 > 0 <==> r.ratio > 0.0))
      && (r.ratioV.Some? && r.ratioV.value >= 0.0 ==> (b.1 > 0 <==> r.ratioV.value > 0.0))
      && (r.ratioV.None? || r.ratioV.value < 0.0 ==> (b.1 > 0 <==> r.ratio > 0.0))
  {
    hide Engine.Lm, KindBudget;
    MultiplierOf(en);
    var r := en.cfg.read;
    KindBudgetFloor(r, r.ratioK, r.absK, en.Lm(), totalK);
    KindBudgetFloor(r, r.ratioV, r.absV, en.Lm(), totalV);
    SignKept(ResolvedRatio(r.ratioK, r.ratio), en.Lm());
    SignKept(ResolvedRatio(r.ratioV, r.ratio), en.Lm());
  }

  lemma SignKept(x: real, y: real)
    requires y > 0.0
    ensures x * y > 0.0 <==> x > 0.0
  {
    if x > 0.0 { MulPositive(x, y); } else { MulNonNeg(-x, y); assert x * y == -(-x * y); }
  }

  // ---- selection ----

  function AbsValues(s: Vec): int -> real { i => Abs(At(s, i)) }

  function MeanAbs(c: seq<Candidate>): real { Mean(|c|, AbsValues(Scores(c))) }

  /** Scores divided by their mean magnitude, so that neither kind dominates by scale alone. */
  function Normalise(c: seq<Candidate>): (r: seq<Candidate>)
    ensures |r| == |c|
  {
    var mean := MeanAbs(c);
    var scale := if mean > EPS then mean else EPS;
    seq(|c|, i requires 0 <= i < |c| => c[i].(score := c[i].score / scale))
  }

  function AtLeast(s: seq<Candidate>, bar: real): (r: seq<Candidate>)
    ensures |r| <= |s|
  {
    if s == [] then []
    else
      var init := AtLeast(s[..|s| - 1], bar);
      if s[|s| - 1].score >= bar then init + [s[|s| - 1]] else init
  }

  function MeanScore(c: seq<Candidate>): real { Mean(|c|, i => At(Scores(c), i)) }

  /** How many of the two budgets' slots a global ranking may take. */
  function MergedBudget(bk: nat, bv: nat): nat { if bk > 0 && bv > 0 then bk + bv else Max(bk, bv) }

  /** The share of V under the adaptive policy: normalised attention entropy, clamped to [0, 1]. */
  function EntropyShare(ker: Kernels, a: Vec): (f: real)
    ensures 0.0 <= f <= 1.0
  {
    var ent := -Sum(0, |a|, t => RMax(At(a, t), EPS) * ker.ln(RMax(At(a, t), EPS)));
    var top := ker.ln(Max(|a|, 2) as real);
    var f := if top == 0.0 then 0.0 else ent / top;
    if f < 0.0 then 0.0 else if f > 1.0 then 1.0 else f
  }

  function VShare(total: nat, share: real): nat { Max(0, Round(total as real * share)) }

  function ByPolicy(policy: RoutePolicy, ks: seq<Candidate>, vs: seq<Candidate>,
                    bk: nat, bv: nat, share: real): seq<Candidate>
    requires 0.0 <= share <= 1.0
  {
    match policy
    case Joint => Take(SortDesc(ks + vs), MergedBudget(bk, bv))
    case KFirst =>
      var kPick := Take(SortDesc(ks), bk);
      var left := Max(0, bk + bv - |kPick|);
      kPick + (if vs != [] && left > 0 then Take(AtLeast(SortDesc(vs), MeanScore(vs)), left) else [])
    case Adaptive =>
      var vAlloc := VShare(bk + bv, share);
      var kAlloc := Max(0, bk + bv - vAlloc);
      Take(SortDesc(ks), kAlloc) + Take(SortDesc(vs), vAlloc)
    case Separate => Take(SortDesc(ks), bk) + Take(SortDesc(vs), bv)
  }

  predicate Passes(c: Candidate, top: real, rel: real, abs: real)
  {
    (rel <= 0.0 || Abs(c.score) >= rel * top) && (abs <= 0.0 || Abs(c.score) >= abs)
  }

  function Passing(s: seq<Candidate>, top: real, rel: real, abs: real): (r: seq<Candidate>)
    ensures |r| <= |s|
  {
    if s == [] then []
    else
      var init := Passing(s[..|s| - 1], top, rel, abs);
      if Passes(s[|s| - 1], top, rel, abs) then init + [s[|s| - 1]] else init
  }

  /** Drop slots under either threshold, but keep the best `minKeep`. */
  function Threshold(s: seq<Candidate>, rel: real, abs: real, minKeep: int): seq<Candidate>
  {
    if s == [] then s
    else
      var kept := Passing(s, Abs(s[0].score), rel, abs);
      if minKeep > 0 && |kept| < minKeep then Take(s, minKeep) else kept
  }

  function ByThreshold(cfg: CacheConfig, sel: seq<Candidate>): seq<Candidate>
  {
    if cfg.read.mode != AdaptiveScore then sel
    else
      Threshold(SortDesc(OfKind(sel, KSlot)), cfg.relThreshold, cfg.absThreshold, cfg.minKeep)
      + Threshold(SortDesc(OfKind(sel, VSlot)), cfg.relThreshold, cfg.absThreshold, cfg.minKeep)
  }

  /** The ranking a policy sees. */
  function Ranked(ks: seq<Candidate>, wanted: Wanted, normalize: bool): seq<Candidate>
  {
    if normalize && wanted == Both then Normalise(ks) else ks
  }

  /** What the policy takes of the budgets, before thresholds. */
  function Preferred(en: Engine, a: Vec, ks: seq<Candidate>, vs: seq<Candidate>,
                     wanted: Wanted, normalize: bool): seq<Candidate>
    requires en.Valid()
  {
    var (bk, bv) := ReadBudgets(en, wanted, |ks|, |vs|);
    ByPolicy(en.cfg.routePolicy, Ranked(ks, wanted, normalize), Ranked(vs, wanted, normalize), bk, bv,
             EntropyShare(en.ker, a))
  }

  /** Everything the router does after its page walk. */
  function Choose(en: Engine, a: Vec, ks: seq<Candidate>, vs: seq<Candidate>,
                  wanted: Wanted, normalize: bool): seq<Candidate>
    requires en.Valid()
  {
    var (bk, bv) := ReadBudgets(en, wanted, |ks|, |vs|);
    if bk == 0 && bv == 0 then [] else ByThreshold(en.cfg, Preferred(en, a, ks, vs, wanted, normalize))
  }

  function Refs(sel: seq<Candidate>): (r: seq<SlotRef>)
    ensures |r| == |sel|
  {
    seq(|sel|, i requires 0 <= i < |sel| => SlotRef(sel[i].page, sel[i].group, sel[i].slot))
  }

  /** The candidates of one kind, as the router places them. */
  function RouterK(en: Engine, v: seq<Vec>, query: Query, pages: seq<PageState>, wanted: Wanted): seq<Candidate>
    requires en.Valid() && MetaShaped(pages)
  {
    if wanted.K() then KCands(en, v, query, Entries(en.cfg, KSlot, pages, |pages|, true)) else []
  }

  function RouterV(en: Engine, query: Query, pages: seq<PageState>, wanted: Wanted): seq<Candidate>
    requires en.Valid() && MetaShaped(pages)
  {
    if wanted.V() then VCands(en, query, Entries(en.cfg, VSlot, pages, |pages|, true)) else []
  }

  function Routed(en: Engine, v: seq<Vec>, query: Query, pages: seq<PageState>, wanted: Wanted,
                  normalize: bool): seq<Candidate>
    requires en.Valid() && MetaShaped(pages)
  {
    if query.a == [] then []
    else Choose(en, query.a, RouterK(en, v, query, pages, wanted), RouterV(en, query, pages, wanted),
                wanted, normalize)
  }

  lemma KCandsConcat(en: Engine, v: seq<Vec>, query: Query, a: seq<Entry>, b: seq<Entry>)
    requires en.Valid()
    ensures KCands(en, v, query, a + b) == KCands(en, v, query, a) + KCands(en, v, query, b)
  {
  }

  lemma VCandsConcat(en: Engine, query: Query, a: seq<Entry>, b: seq<Entry>)
    requires en.Valid()
    ensures VCands(en, query, a + b) == VCands(en, query, a) + VCands(en, query, b)
  {
  }

  /** The K slots of one page, appended to the candidate list. */
  method ScoreKPage(en: Engine, v: seq<Vec>, query: Query, p: nat, at: nat, page: PageState,
                    ks: seq<Candidate>) returns (out: seq<Candidate>)
    requires en.Valid() && Active(page) && Shaped(page.meta.value)
    ensures out == ks + KCands(en, v, query,
      PageEntries(en.cfg, KSlot, p, at, page.valid, page.meta.value, |page.meta.value.kSlots|))
  {
    hide KScore;
    var m := page.meta.value;
    out := ks;
    var g := 0;
    while g < |m.kSlots|
      invariant 0 <= g <= |m.kSlots|
      invariant out == ks + KCands(en, v, query, PageEntries(en.cfg, KSlot, p, at, page.valid, m, g))
    {
      if m.kSlots[g] >= 0 {
        var e := Entry(p, g, m.kSlots[g], at, page.valid, m.kErr[g], m.kSketch[g]);
        KCandsConcat(en, v, query, PageEntries(en.cfg, KSlot, p, at, page.valid, m, g), [e]);
        out := out + [Candidate(KSlot, KScore(en, v, query, e), p, g, e.slot)];
      }
      g := g + 1;
    }
  }

  /** The V slots of one page that still cover a valid token. */
  method ScoreVPage(en: Engine, query: Query, p: nat, at: nat, page: PageState,
                    vs: seq<Candidate>) returns (out: seq<Candidate>)
    requires en.Valid() && Active(page) && Shaped(page.meta.value)
    ensures out == vs + VCands(en, query,
      PageEntries(en.cfg, VSlot, p, at, page.valid, page.meta.value, |page.meta.value.vSlots|))
  {
    hide VScore;
    var m := page.meta.value;
    out := vs;
    var g := 0;
    while g < |m.vSlots|
      invariant 0 <= g <= |m.vSlots|
      invariant out == vs + VCands(en, query, PageEntries(en.cfg, VSlot, p, at, page.valid, m, g))
    {
      var t0 := g * en.cfg.vTokenBlock;
      var t1 := Min(t0 + en.cfg.vTokenBlock, page.valid);
      if m.vSlots[g] >= 0 && t1 > t0 {
        var e := Entry(p, g, m.vSlots[g], at + t0, t1 - t0, m.vErr[g], []);
        VCandsConcat(en, query, PageEntries(en.cfg, VSlot, p, at, page.valid, m, g), [e]);
        out := out + [Candidate(VSlot, VScore(en, query, e), p, g, e.slot)];
      }
      g := g + 1;
    }
  }

  /** The page walk, the candidate lists, the ranking and the split into K and V reads. */
  method Route(en: Engine, v: seq<Vec>, query: Query, pages: seq<PageState>, wanted: Wanted,
               normalize: bool) returns (k: seq<SlotRef>, w: seq<SlotRef>)
    requires en.Valid() && MetaShaped(pages)
    ensures k == Refs(OfKind(Routed(en, v, query, pages, wanted, normalize), KSlot))
    ensures w == Refs(OfKind(Routed(en, v, query, pages, wanted, normalize), VSlot))
  {
    hide Choose, KCands, VCands;
    if query.a == [] { return [], []; }
    var ks: seq<Candidate>, vs: seq<Candidate>, offset := [], [], 0;
    var p := 0;
    assert KCands(en, v, query, []) == [] && VCands(en, query, []) == [];
    while p < |pages|
      invariant 0 <= p <= |pages| && offset == Cursor(pages, p, true)
      invariant ks == if wanted.K() then KCands(en, v, query, Entries(en.cfg, KSlot, pages, p, true)) else []
      invariant vs == if wanted.V() then VCands(en, query, Entries(en.cfg, VSlot, pages, p, true)) else []
    {
      var page := pages[p];
      if Active(page) {
        ghost var m := page.meta.value;
        if wanted.K() {
          KCandsConcat(en, v, query, Entries(en.cfg, KSlot, pages, p, true),
                       PageEntries(en.cfg, KSlot, p, offset, page.valid, m, |m.kSlots|));
          ks := ScoreKPage(en, v, query, p, offset, page, ks);
        }
        if wanted.V() {
          VCandsConcat(en, query, Entries(en.cfg, VSlot, pages, p, true),
                       PageEntries(en.cfg, VSlot, p, offset, page.valid, m, |m.vSlots|));
          vs := ScoreVPage(en, query, p, offset, page, vs);
        }
        offset := offset + page.valid;
      } else {
        assert Entries(en.cfg, KSlot, pages, p + 1, true) == Entries(en.cfg, KSlot, pages, p, true);
        assert Entries(en.cfg, VSlot, pages, p + 1, true) == Entries(en.cfg, VSlot, pages, p, true);
      }
      p := p + 1;
    }
    var sel := Choose(en, query.a, ks, vs, wanted, normalize);
    k, w := Refs(OfKind(sel, KSlot)), Refs(OfKind(sel, VSlot));
  }
}
