/** The batched correction: all queries of one KV head at once, whole or in chunks. */
module Batched {

  import opened Numbers
  import opened Sums
  import opened Config
  import opened Selection
  import opened Pages
  import opened Router
  import opened ExactSoftmax
  import opened Correction
  import opened SlotLoop

  /** `torch.topk` along one row, with any rule for ties. */
  type TopK = (Vec, nat) -> set<nat>

  ghost predicate Chooses(topk: TopK)
  {
    forall s: Vec, k: nat :: k <= |s| ==> IsTopK(s, k, topk(s, k))
  }

  // ---- index builders ----

  lemma SlabMore(cfg: CacheConfig, view: HeadView, kind: Kind, es: seq<Entry>, e: Entry)
    requires ViewOk(cfg, view)
    ensures var slab := SlabOf(cfg, view, kind, es);
      SlabOf(cfg, view, kind, es + [e]) == Slab(slab.es + [e], slab.blocks + [SlotBlock(cfg, view, kind, e.slot)])
  {
    hide SlotBlock, ViewOk;
  }

  method IndexPage(cfg: CacheConfig, view: HeadView, kind: Kind, p: nat, at: nat, slab: Slab)
    returns (out: Slab)
    requires ViewOk(cfg, view) && p < |view.pages| && Active(view.pages[p]) && MetaShaped(view.pages)
    requires slab == SlabOf(cfg, view, kind, slab.es)
    ensures out == SlabOf(cfg, view, kind, slab.es +
      PageEntries(cfg, kind, p, at, view.pages[p].valid, view.pages[p].meta.value,
                  |Slots(view.pages[p].meta.value, kind)|))
  {
    hide SlotBlock, ViewOk, BlockStart, BlockEnd, SlabOf;
    var page, m := view.pages[p], view.pages[p].meta.value;
    var slots := Slots(m, kind);
    out := slab;
    var g := 0;
    assert slab.es + PageEntries(cfg, kind, p, at, page.valid, m, 0) == slab.es;
    while g < |slots|
      invariant 0 <= g <= |slots|
      invariant out == SlabOf(cfg, view, kind, slab.es + PageEntries(cfg, kind, p, at, page.valid, m, g))
    {
      var t0, t1 := BlockStart(cfg, kind, g), BlockEnd(cfg, kind, g, page.valid);
      if slots[g] >= 0 && t1 > t0 {
        var e := Entry(p, g, slots[g], at + t0, t1 - t0, if kind == KSlot then m.kErr[g] else m.vErr[g],
                       if kind == KSlot then m.kSketch[g] else []);
        ghost var before := PageEntries(cfg, kind, p, at, page.valid, m, g);
        assert slab.es + (before + [e]) == (slab.es + before) + [e];
        SlabMore(cfg, view, kind, slab.es + before, e);
        out := Slab(out.es + [e], out.blocks + [SlotBlock(cfg, view, kind, e.slot)]);
      }
      g := g + 1;
    }
  }

  /** The V index skips pages without metadata and leaves its cursor where it was. */
  method BuildVSlotIndex(cfg: CacheConfig, view: HeadView) returns (slab: Slab)
    requires ViewOk(cfg, view) && MetaShaped(view.pages)
    ensures slab == SlabOf(cfg, view, VSlot, Entries(cfg, VSlot, view.pages, |view.pages|, true))
  {
    hide SlotBlock, PageEntries, ViewOk;
    slab := Slab([], []);
    var cursor, p := 0, 0;
    while p < |view.pages|
      invariant 0 <= p <= |view.pages| && cursor == Cursor(view.pages, p, true)
      invariant slab == SlabOf(cfg, view, VSlot, Entries(cfg, VSlot, view.pages, p, true))
    {
      if Active(view.pages[p]) {
        slab := IndexPage(cfg, view, VSlot, p, cursor, slab);
        cursor := cursor + view.pages[p].valid;
      } else {
        assert Entries(cfg, VSlot, view.pages, p + 1, true) == Entries(cfg, VSlot, view.pages, p, true);
      }
      p := p + 1;
    }
  }

  /** The K index advances its cursor over every page. */
  method BuildKSlotIndex(cfg: CacheConfig, view: HeadView) returns (slab: Slab)
    requires ViewOk(cfg, view) && MetaShaped(view.pages)
    ensures slab == SlabOf(cfg, view, KSlot, Entries(cfg, KSlot, view.pages, |view.pages|, false))
  {
    hide SlotBlock, PageEntries, ViewOk;
    slab := Slab([], []);
    var cursor, p := 0, 0;
    while p < |view.pages|
      invariant 0 <= p <= |view.pages| && cursor == Cursor(view.pages, p, false)
      invariant slab == SlabOf(cfg, view, KSlot, Entries(cfg, KSlot, view.pages, p, false))
    {
      if Active(view.pages[p]) {
        slab := IndexPage(cfg, view, KSlot, p, cursor, slab);
      } else {
        assert Entries(cfg, KSlot, view.pages, p + 1, false) == Entries(cfg, KSlot, view.pages, p, false);
      }
      cursor := cursor + view.pages[p].valid;
      p := p + 1;
    }
  }

  // ---- scores ----

  function BatchedKScore(en: Engine, v: seq<Vec>, row: Query, e: Entry): real
    requires en.Valid()
  {
    AttnMass(row.a, e.start, e.len) * SketchDot(en, row.q, e) * BoundaryRisk(row, e.start, e.len)
    * ValueSpread(en.ker, v, row, e.start, e.len) * en.Sens()
  }

  /** Attention mass as a product with the slot's 0/1 mask. */
  function MaskedMass(a: Vec, e: Entry): real { Sum(0, |a|, Times(Values(a), Mask(e))) }

  function Mask(e: Entry): int -> real { t => if Covers(e, t) then 1.0 else 0.0 }

  /** The index folds the sensitivity into the error norm, and the score multiplies by it again. */
  function BatchedVScore(en: Engine, row: Query, e: Entry): real
    requires en.Valid()
  {
    MaskedMass(row.a, e) * (e.err * en.Sens()) * en.Sens()
  }

  function KScores(en: Engine, v: seq<Vec>, row: Query, es: seq<Entry>): (s: Vec)
    requires en.Valid()
    ensures |s| == |es|
  {
    seq(|es|, i requires 0 <= i < |es| => BatchedKScore(en, v, row, es[i]))
  }

  function VScores(en: Engine, row: Query, es: seq<Entry>): (s: Vec)
    requires en.Valid()
    ensures |s| == |es|
  {
    seq(|es|, i requires 0 <= i < |es| => BatchedVScore(en, row, es[i]))
  }

  lemma MaskedMassIsMass(a: Vec, e: Entry)
    requires e.start + e.len <= |a|
    ensures MaskedMass(a, e) == AttnMass(a, e.start, e.len)
  {
    SumRestrict(0, e.start, e.start + e.len, |a|, Values(a), Times(Values(a), Mask(e)));
    SumExt(e.start, e.start + e.len, Values(a), t => At(a, t));
  }

  /** The batched V score is the router's, times the sensitivity once more. */
  lemma VScoreTwiceWeighted(en: Engine, row: Query, e: Entry)
    requires en.Valid() && en.cfg.baseline == CareKv && e.start + e.len <= |row.a|
    ensures BatchedVScore(en, row, e) == VScore(en, row, e) * en.Sens()
  {
    MaskedMassIsMass(row.a, e);
  }

  // ---- selection masks of one row ----

  function NormScores(s: Vec): (r: Vec)
    ensures |r| == |s|
  {
    var scale := RMax(Mean(|s|, AbsValues(s)), EPS);
    seq(|s|, i requires 0 <= i < |s| => s[i] / scale)
  }

  predicate InColumn(top: set<nat>, off: nat, j: nat) { off + j in top }

  /** The slice of a merged mask that starts at column `off`. */
  function Columns(top: set<nat>, off: nat, n: nat): set<nat> { set j: nat | j < n && InColumn(top, off, j) }

  function RankScores(on: bool, s: Vec): (r: Vec)
    ensures |r| == |s|
  {
    if on then NormScores(s) else s
  }

  /** Both kinds are scored, so their scores are made comparable when asked. */
  predicate Rescaled(wanted: Wanted, normalize: bool, bk: nat, bv: nat)
  {
    normalize && wanted == Both && bk > 0 && bv > 0
  }

  /** Both kinds are scored, and the policy ranks them together. */
  predicate Merging(cfg: CacheConfig, wanted: Wanted, bk: nat, bv: nat)
  {
    cfg.routePolicy == Joint && wanted == Both && bk > 0 && bv > 0
  }

  /** K and V masks of one row from its scores and the two budgets. */
  function RowPicks(cfg: CacheConfig, topk: TopK, wanted: Wanted, normalize: bool,
                    sk: Vec, sv: Vec, bk: nat, bv: nat): (set<nat>, set<nat>)
  {
    var on := Rescaled(wanted, normalize, bk, bv);
    var rk, rv := RankScores(on, sk), RankScores(on, sv);
    if Merging(cfg, wanted, bk, bv) then
      var top := topk(rk + rv, Min(bk + bv, |rk + rv|));
      (Columns(top, 0, |rk|), Columns(top, |rk|, |rv|))
    else
      (if bk > 0 then topk(rk, Min(bk, |rk|)) else {}, if bv > 0 then topk(rv, Min(bv, |rv|)) else {})
  }

  /** What the batched path reads for one query: none without a budget. */
  function BatchedPicks(en: Engine, par: Params, topk: TopK, kes: seq<Entry>, ves: seq<Entry>,
                        row: Query, v: seq<Vec>): (set<nat>, set<nat>)
    requires en.Valid()
  {
    var b := ReadBudgets(en, par.wanted, |kes|, |ves|);
    if b.0 == 0 && b.1 == 0 then ({}, {})
    else RowPicks(en.cfg, topk, par.wanted, par.normalize, KScores(en, v, row, kes), VScores(en, row, ves), b.0, b.1)
  }

  // ---- applying the masks ----

  /** The first slot covering a token, or 0: `argmax` over the 0/1 columns. */
  function TokenToSlot(es: seq<Entry>, t: int, i: nat): nat
    requires i <= |es|
    decreases |es| - i
  {
    if i == |es| then 0 else if Covers(es[i], t) then i else TokenToSlot(es, t, i + 1)
  }

  /** The gathered residual row of a token, kept only where its slot is selected. */
  function GatheredRow(slab: Slab, sel: set<nat>, t: int): Vec
  {
    var i := TokenToSlot(slab.es, t, 0);
    if i < |slab.es| && Covers(slab.es[i], t) && i in sel then Row(Block(slab, i), t - slab.es[i].start) else []
  }

  function Gathered(slab: Slab, sel: set<nat>, n: nat): (r: seq<Vec>)
    ensures |r| == n
  {
    seq(n, t requires 0 <= t < n => GatheredRow(slab, sel, t))
  }

  lemma {:induction false} TokenToSlotFinds(es: seq<Entry>, t: int, i: nat, total: nat)
    requires WellPlaced(es, VSlot, total) && i <= |es|
    ensures var j := TokenToSlot(es, t, i);
      (exists k :: i <= k < |es| && Covers(es[k], t)) ==>
      j < |es| && Covers(es[j], t) && forall k :: 0 <= k < |es| && k != j ==> !Covers(es[k], t)
    decreases |es| - i
  {
    if i == |es| {
    } else {
      if Covers(es[i], t) {
        forall k | 0 <= k < |es| && k != i ensures !Covers(es[k], t) { if k < i {} else {} }
      } else {
        TokenToSlotFinds(es, t, i + 1, total);
      }
    }
  }

  lemma RowAt(m: seq<Vec>, i: int, d: int)
    ensures At(Row(m, i), d) == At2(m, i, d) && At([], d) == 0.0
  {
  }

  /** Because stored V ranges never overlap, gathering one row a token loses nothing: the masked
    * gather is the sum over all selected slots. */
  lemma GatherIsSum(slab: Slab, sel: set<nat>, t: int, d: int, total: nat)
    requires WellPlaced(slab.es, VSlot, total)
    ensures At(GatheredRow(slab, sel, t), d) == Rho(slab, sel, t, d)
  {
    hide WellPlaced, TokenToSlot, At2, At, Row, Block, Covers, Sum;
    var es, j := slab.es, TokenToSlot(slab.es, t, 0);
    TokenToSlotFinds(es, t, 0, total);
    RowAt(Block(slab, j), t - if j < |es| then es[j].start else 0, d);
    if exists k :: 0 <= k < |es| && Covers(es[k], t) {
      SumSingle(0, |es|, VPart(slab, sel, t, d), j);
    } else {
      SumZero(0, |es|, VPart(slab, sel, t, d));
    }
  }

  /** `(A·wK) @ V − rowsum(A·wK)·O`, one coordinate. */
  function LinearK(a: Vec, wk: Vec, v: seq<Vec>, o: Vec, d: int): real
  {
    var awk := Times(Values(a), Values(wk));
    Sum(0, |a|, Times(awk, Column(v, d))) - Prod(Sum(0, |a|, awk), At(o, d))
  }

  /** Subtracting the output once per row is subtracting it under every token. */
  lemma LinearKIsSum(w: nat, row: Query, wk: Vec, v: seq<Vec>, slab: Slab, sel: set<nat>, d: int)
    requires |wk| == |row.a| && ShiftSoFar(w, slab, sel, row.q, wk)
    ensures LinearK(row.a, wk, v, row.o, d) == Sum(0, |row.a|, KTerm(w, row, v, slab, sel, d))
  {
    hide Shift, Sum, At2, Prod;
    var n, o := |row.a|, At(row.o, d);
    var awk := Times(Values(row.a), Values(wk));
    var less := t => Prod(awk(t), -o);
    forall t | 0 <= t < n
      ensures KTerm(w, row, v, slab, sel, d)(t) == Times(awk, Column(v, d))(t) + less(t)
    {
      ProdSum(awk(t), At2(v, t, d) - o, At2(v, t, d), -o);
    }
    SumAdd(0, n, Times(awk, Column(v, d)), less, KTerm(w, row, v, slab, sel, d));
    ScaleByProd(n, awk, o, less);
  }

  lemma ScaleByProd(n: nat, f: int -> real, o: real, g: int -> real)
    requires forall t :: 0 <= t < n ==> g(t) == Prod(f(t), -o)
    ensures Sum(0, n, g) == -Prod(Sum(0, n, f), o)
  {
    SumScale(0, n, -o, f, g);
  }

  // ---- one batch ----

  /** Base attention of a row: weights, and the output they give. */
  ghost predicate BaseAttention(row: Query, v: seq<Vec>, dim: nat)
  {
    Weights(row.a) && forall d :: 0 <= d < dim ==> At(row.o, d) == Sum(0, |row.a|, Times(Values(row.a), Column(v, d)))
  }

  /** Combine one row. `anyK` and `anyV` say whether any row of the batch reads a slot of the kind. */
  function CombineRow(par: Params, dim: nat, row: Query, v: seq<Vec>, wk: Vec, residual: seq<Vec>,
                      anyK: bool, anyV: bool): (delta: Vec)
    requires par.rootD > 0.0
    ensures |delta| == dim
  {
    if par.exact && anyK then
      ExactRow(par.exp, row.a, seq(|wk|, t requires 0 <= t < |wk| => wk[t] / par.rootD), v, row.o, residual, dim)
    else
      seq(dim, d requires 0 <= d < dim =>
        (if anyV then Sum(0, |row.a|, Times(Values(row.a), Column(residual, d))) else 0.0)
        + (if anyK then Prod(par.scale, LinearK(row.a, wk, v, row.o, d)) else 0.0))
  }

  lemma LinearRow(par: Params, cfg: CacheConfig, row: Query, v: seq<Vec>, kslab: Slab, vslab: Slab,
                  sk: set<nat>, sv: set<nat>, wk: Vec, anyK: bool, anyV: bool, d: nat)
    requires WellPlaced(vslab.es, VSlot, |row.a|) && |wk| == |row.a| && par.rootD > 0.0
    requires ShiftSoFar(cfg.kChannelGroup, kslab, sk, row.q, wk)
    requires (sk != {} ==> anyK) && (sv != {} ==> anyV) && d < cfg.headDim && !(par.exact && anyK)
    ensures CombineRow(par, cfg.headDim, row, v, wk, Gathered(vslab, sv, |row.a|), anyK, anyV)[d]
         == CorrectedAt(par, cfg.kChannelGroup, row, v, kslab, vslab, sk, sv, d)
  {
    hide WellPlaced, ShiftSoFar, KTermAt, LinearK, GatheredRow, Rho;
    var w, residual := cfg.kChannelGroup, Gathered(vslab, sv, |row.a|);
    EmptySelection(par, w, row, v, kslab, vslab, d);
    ProdZero(par.scale);
    LinearKIsSum(w, row, wk, v, kslab, sk, d);
    forall t | 0 <= t < |row.a| ensures Times(Values(row.a), Column(residual, d))(t) == VTerm(row.a, vslab, sv, d)(t) {
      GatherIsSum(vslab, sv, t, d, |row.a|);
      assert Column(residual, d)(t) == Rho(vslab, sv, t, d);
    }
    hide Prod;
    SumExt(0, |row.a|, Times(Values(row.a), Column(residual, d)), VTerm(row.a, vslab, sv, d));
  }

  lemma GatheredMatches(slab: Slab, sel: set<nat>, n: nat, d: nat)
    requires WellPlaced(slab.es, VSlot, n)
    ensures forall t :: 0 <= t < n ==> At2(Gathered(slab, sel, n), t, d) == Rho(slab, sel, t, d)
  {
    hide WellPlaced, Rho, GatheredRow;
    forall t | 0 <= t < n ensures At2(Gathered(slab, sel, n), t, d) == Rho(slab, sel, t, d) {
      GatherIsSum(slab, sel, t, d, n);
    }
  }

  /** In exact mode a row without K reads, in a batch that has some, still gets its linear V term. */
  lemma ExactWithoutKReads(par: Params, cfg: CacheConfig, row: Query, v: seq<Vec>, kslab: Slab, vslab: Slab,
                           sv: set<nat>, ds: Vec, d: nat)
    requires Exponential(par.exp) && BaseAttention(row, v, cfg.headDim) && d < cfg.headDim && par.rootD > 0.0
    requires |ds| == |row.a| && forall t :: 0 <= t < |ds| ==> ds[t] == 0.0
    ensures ExactDelta(par.exp, row.a, ds, CorrectedValue(v, vslab, sv, d), At(row.o, d))
         == CorrectedAt(par, cfg.kChannelGroup, row, v, kslab, vslab, {}, sv, d)
  {
    hide Exponential, ExactDelta, Weights, Rho, Shift, At2;
    EmptySelection(par, cfg.kChannelGroup, row, v, kslab, vslab, d);
    ProdZero(par.scale);
    var rho := t => Rho(vslab, sv, t, d);
    NoShiftIsLinear(par.exp, row.a, ds, Column(v, d), rho, CorrectedValue(v, vslab, sv, d), At(row.o, d));
    SumExt(0, |row.a|, Times(Values(row.a), rho), VTerm(row.a, vslab, sv, d));
  }

  lemma ExactRowCombined(par: Params, cfg: CacheConfig, row: Query, v: seq<Vec>, kslab: Slab, vslab: Slab,
                         sk: set<nat>, sv: set<nat>, wk: Vec, anyV: bool, d: nat)
    requires WellPlaced(vslab.es, VSlot, |row.a|) && |wk| == |row.a| && par.rootD > 0.0 && par.exact
    requires ShiftSoFar(cfg.kChannelGroup, kslab, sk, row.q, wk) && d < cfg.headDim
    requires Exponential(par.exp) && BaseAttention(row, v, cfg.headDim)
    ensures CombineRow(par, cfg.headDim, row, v, wk, Gathered(vslab, sv, |row.a|), true, anyV)[d]
         == CorrectedAt(par, cfg.kChannelGroup, row, v, kslab, vslab, sk, sv, d)
  {
    hide Exponential, ExactDelta, BaseAttention, WellPlaced, Gathered, Rho, Shift, ExactRow;
    var w, ds := cfg.kChannelGroup, seq(|wk|, t requires 0 <= t < |wk| => wk[t] / par.rootD);
    assert ds == Shifts(w, row, kslab, sk, par.rootD);
    GatheredMatches(vslab, sv, |row.a|, d);
    ExactRowIsDelta(par.exp, row.a, ds, v, row.o, Gathered(vslab, sv, |row.a|), cfg.headDim, vslab, sv, d);
    if sk == {} {
      EmptySelection(par, w, row, v, kslab, vslab, d);
      ExactWithoutKReads(par, cfg, row, v, kslab, vslab, sv, ds, d);
    }
  }

  /** The combined row is the token-level correction of the row's own selection. */
  lemma CombinedRow(par: Params, cfg: CacheConfig, row: Query, v: seq<Vec>, kslab: Slab, vslab: Slab,
                    sk: set<nat>, sv: set<nat>, wk: Vec, anyK: bool, anyV: bool)
    requires WellPlaced(vslab.es, VSlot, |row.a|) && |wk| == |row.a| && par.rootD > 0.0
    requires ShiftSoFar(cfg.kChannelGroup, kslab, sk, row.q, wk)
    requires (sk != {} ==> anyK) && (sv != {} ==> anyV)
    requires par.exact ==> Exponential(par.exp) && BaseAttention(row, v, cfg.headDim)
    ensures CombineRow(par, cfg.headDim, row, v, wk, Gathered(vslab, sv, |row.a|), anyK, anyV)
         == Corrected(par, cfg, row, v, kslab, vslab, sk, sv)
  {
    hide CombineRow, CorrectedAt, WellPlaced, ShiftSoFar, BaseAttention, Exponential;
    forall d | 0 <= d < cfg.headDim
      ensures CombineRow(par, cfg.headDim, row, v, wk, Gathered(vslab, sv, |row.a|), anyK, anyV)[d]
           == CorrectedAt(par, cfg.kChannelGroup, row, v, kslab, vslab, sk, sv, d)
    {
      if par.exact && anyK {
        ExactRowCombined(par, cfg, row, v, kslab, vslab, sk, sv, wk, anyV, d);
      } else {
        LinearRow(par, cfg, row, v, kslab, vslab, sk, sv, wk, anyK, anyV, d);
      }
    }
  }
}
