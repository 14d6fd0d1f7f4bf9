/** What the exact mode computes, in terms of keys: attention over the dequantized keys plus the residual blocks
  * that were read. */
module CorrectedKeys {

  import opened Numbers
  import opened Sums
  import opened Config
  import opened Selection
  import opened Pages
  import opened ExactSoftmax
  import opened Correction
  import opened Router

  /** q·k over `dim` channels. */
  function Dot(dim: nat, q: Vec, k: int -> real): real { Sum(0, dim, Times(Values(q), k)) }

  predicate InGroup(w: nat, e: Entry, c: int) { e.group * w <= c < e.group * w + w }

  /** Slot `i` puts a residual on channel `c` of token `t`. */
  predicate Touches(w: nat, slab: Slab, sel: set<nat>, t: int, c: int, i: int)
  {
    0 <= i < |slab.es| && i in sel && Covers(slab.es[i], t) && InGroup(w, slab.es[i], c)
  }

  function KeyPart(w: nat, slab: Slab, sel: set<nat>, t: int, c: int): int -> real
  {
    i => if Touches(w, slab, sel, t, c, i) then At2(Block(slab, i), t - slab.es[i].start, c - slab.es[i].group * w)
         else 0.0
  }

  /** The residual that the slots read put on channel `c` of the key of token `t`. */
  function KeyResidual(w: nat, slab: Slab, sel: set<nat>, t: int): int -> real
  {
    c => Sum(0, |slab.es|, KeyPart(w, slab, sel, t, c))
  }

  function CorrectedKey(w: nat, khat: seq<Vec>, slab: Slab, sel: set<nat>, t: int): int -> real
  {
    c => At2(khat, t, c) + KeyResidual(w, slab, sel, t)(c)
  }

  /** One slot's contribution to one channel of q·R_K. */
  function Cell(w: nat, slab: Slab, sel: set<nat>, q: Vec, t: int, i: int, c: int): real
  {
    Prod(At(q, c), KeyPart(w, slab, sel, t, c)(i))
  }

  /** Every slot's channel group lies within the head. */
  predicate GroupsFit(w: nat, dim: nat, slab: Slab)
  {
    forall i :: 0 <= i < |slab.es| ==> slab.es[i].group * w + w <= dim
  }

  /** One slot, over all channels: q·R_K over its own group. */
  lemma OneSlot(w: nat, dim: nat, slab: Slab, sel: set<nat>, q: Vec, t: int, i: nat)
    requires i < |slab.es| && slab.es[i].group * w + w <= dim
    ensures Sum(0, dim, c => Cell(w, slab, sel, q, t, i, c)) == KPart(w, slab, sel, q, t)(i)
  {
    hide At2, Prod, Block, Sum, At;
    var e, block := slab.es[i], Block(slab, i);
    var f := c => Cell(w, slab, sel, q, t, i, c);
    if i in sel && Covers(e, t) {
      var lo := e.group * w;
      var g := c => Prod(At(q, c), At2(block, t - e.start, c - lo));
      ZeroCells(w, slab, sel, q, t, i);
      SumRestrict(0, lo, lo + w, dim, g, f);
      SumShift(0, w, lo, g, Channel(w, e, block, q, t));
    } else {
      ZeroCells(w, slab, sel, q, t, i);
      SumZero(0, dim, f);
    }
  }

  lemma ZeroCells(w: nat, slab: Slab, sel: set<nat>, q: Vec, t: int, i: nat)
    ensures forall c :: !Touches(w, slab, sel, t, c, i) ==> Cell(w, slab, sel, q, t, i, c) == 0.0
  {
    forall c | !Touches(w, slab, sel, t, c, i) ensures Cell(w, slab, sel, q, t, i, c) == 0.0 { ProdZero(At(q, c)); }
  }

  /** One channel, over all slots. */
  lemma OneChannel(w: nat, slab: Slab, sel: set<nat>, q: Vec, t: int, c: int)
    ensures Sum(0, |slab.es|, i => Cell(w, slab, sel, q, t, i, c)) == Prod(At(q, c), KeyResidual(w, slab, sel, t)(c))
  {
    hide Prod, KeyPart;
    SumProd(0, |slab.es|, At(q, c), KeyPart(w, slab, sel, t, c), i => Cell(w, slab, sel, q, t, i, c));
  }

  /** The logit shift is q·R, where R is the whole key residual of the token: channel groups of a page add up to
    * one key. */
  lemma ShiftIsDot(w: nat, dim: nat, slab: Slab, sel: set<nat>, q: Vec, t: int)
    requires GroupsFit(w, dim, slab)
    ensures Shift(w, slab, sel, q, t) == Dot(dim, q, KeyResidual(w, slab, sel, t))
  {
    hide Cell, Prod, KeyPart, KeyResidual;
    var n := |slab.es|;
    var f := (i: int, c: int) => Cell(w, slab, sel, q, t, i, c);
    SumExchange(n, dim, f);
    var rows, columns := i => Sum(0, dim, c => f(i, c)), c => Sum(0, n, i => f(i, c));
    forall i | 0 <= i < n ensures KPart(w, slab, sel, q, t)(i) == rows(i) {
      OneSlot(w, dim, slab, sel, q, t, i);
      SumExt(0, dim, c => f(i, c), c => Cell(w, slab, sel, q, t, i, c));
    }
    SumExt(0, n, KPart(w, slab, sel, q, t), rows);
    forall c | 0 <= c < dim ensures Times(Values(q), KeyResidual(w, slab, sel, t))(c) == columns(c) {
      OneChannel(w, slab, sel, q, t, c);
      SumExt(0, n, i => f(i, c), i => Cell(w, slab, sel, q, t, i, c));
    }
    SumExt(0, dim, Times(Values(q), KeyResidual(w, slab, sel, t)), columns);
  }

  lemma DotAdds(w: nat, dim: nat, khat: seq<Vec>, slab: Slab, sel: set<nat>, q: Vec, t: int)
    requires GroupsFit(w, dim, slab)
    ensures Dot(dim, q, CorrectedKey(w, khat, slab, sel, t))
         == Dot(dim, q, c => At2(khat, t, c)) + Shift(w, slab, sel, q, t)
  {
    hide Prod, KeyResidual, At2, Shift;
    ShiftIsDot(w, dim, slab, sel, q, t);
    var base := c => At2(khat, t, c);
    forall c ensures Times(Values(q), CorrectedKey(w, khat, slab, sel, t))(c)
      == Times(Values(q), base)(c) + Times(Values(q), KeyResidual(w, slab, sel, t))(c)
    {
      ProdSum(At(q, c), CorrectedKey(w, khat, slab, sel, t)(c), base(c), KeyResidual(w, slab, sel, t)(c));
    }
    SumAdd(0, dim, Times(Values(q), base), Times(Values(q), KeyResidual(w, slab, sel, t)),
           Times(Values(q), CorrectedKey(w, khat, slab, sel, t)));
  }

  /** The stored channel groups of a head fit it. */
  lemma StoredGroupsFit(cfg: CacheConfig, view: HeadView)
    requires ViewOk(cfg, view)
    ensures GroupsFit(cfg.kChannelGroup, cfg.headDim, KSlab(cfg, view))
  {
    hide SlotBlock;
    ViewShaped(cfg, view);
    var slab := KSlab(cfg, view);
    forall i | 0 <= i < |slab.es| ensures slab.es[i].group * cfg.kChannelGroup + cfg.kChannelGroup <= cfg.headDim {
      EntrySource(cfg, KSlot, view.pages, |view.pages|, i);
      BlockBound(slab.es[i].group, cfg.NumCg(), cfg.kChannelGroup);
    }
  }

  /** The logits of a query against the dequantized keys, and against the corrected ones. */
  function Logits(dim: nat, rootD: real, q: Vec, khat: seq<Vec>, n: nat): (s: Vec)
    requires rootD > 0.0
    ensures |s| == n
  {
    seq(n, t requires 0 <= t < n => Dot(dim, q, c => At2(khat, t, c)) / rootD)
  }

  function CorrectedLogits(w: nat, dim: nat, rootD: real, q: Vec, khat: seq<Vec>, slab: Slab, sel: set<nat>, n: nat)
    : (s: Vec)
    requires rootD > 0.0
    ensures |s| == n
  {
    seq(n, t requires 0 <= t < n => Dot(dim, q, CorrectedKey(w, khat, slab, sel, t)) / rootD)
  }

  lemma ShiftedLogits(cfg: CacheConfig, view: HeadView, par: Params, row: Query, khat: seq<Vec>, sel: set<nat>, t: nat)
    requires ViewOk(cfg, view) && par.rootD > 0.0 && t < |row.a|
    ensures var w, dim, slab := cfg.kChannelGroup, cfg.headDim, KSlab(cfg, view);
      CorrectedLogits(w, dim, par.rootD, row.q, khat, slab, sel, |row.a|)[t]
        == Logits(dim, par.rootD, row.q, khat, |row.a|)[t] + Shifts(w, row, slab, sel, par.rootD)[t]
  {
    hide ViewOk, SlotBlock, Entries, Shift, Dot, GroupsFit;
    var w, dim, slab := cfg.kChannelGroup, cfg.headDim, KSlab(cfg, view);
    StoredGroupsFit(cfg, view);
    DotAdds(w, dim, khat, slab, sel, row.q, t);
    QuotientAdds(Dot(dim, row.q, c => At2(khat, t, c)), Shift(w, slab, sel, row.q, t), par.rootD);
  }

  lemma QuotientAdds(x: real, y: real, r: real)
    requires r > 0.0
    ensures (x + y) / r == x / r + y / r
  {
  }

  /** In exact mode, on base attention over the dequantized keys, the new weights are attention over the
    * dequantized keys plus the residual blocks read. */
  lemma ExactModeAttends(cfg: CacheConfig, view: HeadView, par: Params, row: Query, khat: seq<Vec>, sel: set<nat>,
                         t: nat)
    requires ViewOk(cfg, view) && par.rootD > 0.0 && Exponential(par.exp) && t < |row.a|
    requires forall u :: 0 <= u < |row.a| ==>
      row.a[u] == Softmax(par.exp, Logits(cfg.headDim, par.rootD, row.q, khat, |row.a|), u)
    requires Mass(par.exp, row.a, Shifts(cfg.kChannelGroup, row, KSlab(cfg, view), sel, par.rootD)) >= FLOOR
    ensures var w, dim, slab := cfg.kChannelGroup, cfg.headDim, KSlab(cfg, view);
      NewWeight(par.exp, row.a, Shifts(w, row, slab, sel, par.rootD))(t)
        == Softmax(par.exp, CorrectedLogits(w, dim, par.rootD, row.q, khat, slab, sel, |row.a|), t)
  {
    hide ViewOk, SlotBlock, Entries, Exponential, Softmax, NewWeight, Mass, Logits, CorrectedLogits, Shifts;
    var w, dim, slab, n := cfg.kChannelGroup, cfg.headDim, KSlab(cfg, view), |row.a|;
    forall u: nat | u < n
      ensures CorrectedLogits(w, dim, par.rootD, row.q, khat, slab, sel, n)[u]
           == Logits(dim, par.rootD, row.q, khat, n)[u] + Shifts(w, row, slab, sel, par.rootD)[u]
    {
      ShiftedLogits(cfg, view, par, row, khat, sel, u);
    }
    NewWeightIsSoftmax(par.exp, Logits(dim, par.rootD, row.q, khat, n), row.a,
                       Shifts(w, row, slab, sel, par.rootD),
                       CorrectedLogits(w, dim, par.rootD, row.q, khat, slab, sel, n), t);
  }
}
