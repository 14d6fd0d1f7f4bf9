/** The correction a selection of stored slots makes to one query's output, token by token, and the
  * slot-by-slot loop that computes it. */
module Correction {

  import opened Numbers
  import opened Sums
  import opened Config
  import opened ResidualPack
  import opened Selection
  import opened Pages
  import opened Router
  import opened ExactSoftmax

  /** `exact` selects the renormalised softmax; `rootD` is the square root of the head dimension. */
  datatype Params = Params(wanted: Wanted, scale: real, normalize: bool, exact: bool,
                           exp: real -> real, rootD: real)

  /** The stored slots of one kind with their unpacked blocks. */
  datatype Slab = Slab(es: seq<Entry>, blocks: seq<seq<Vec>>)

  function KBlock(cfg: CacheConfig, view: HeadView, slot: int): seq<Vec>
    requires ViewOk(cfg, view)
  {
    if 0 <= slot < |view.kBuf| then UnpackBlock(view.kBuf[slot], cfg.pageSize, cfg.kChannelGroup, cfg.residualBits)
    else []
  }

  function VBlock(cfg: CacheConfig, view: HeadView, slot: int): seq<Vec>
    requires ViewOk(cfg, view)
  {
    if 0 <= slot < |view.vBuf| then UnpackBlock(view.vBuf[slot], cfg.vTokenBlock, cfg.headDim, cfg.residualBits)
    else []
  }

  lemma ViewShaped(cfg: CacheConfig, view: HeadView)
    requires ViewOk(cfg, view)
    ensures MetaShaped(view.pages)
  {
  }

  function SlotBlock(cfg: CacheConfig, view: HeadView, kind: Kind, slot: int): seq<Vec>
    requires ViewOk(cfg, view)
  {
    if kind == KSlot then KBlock(cfg, view, slot) else VBlock(cfg, view, slot)
  }

  function SlabOf(cfg: CacheConfig, view: HeadView, kind: Kind, es: seq<Entry>): (s: Slab)
    requires ViewOk(cfg, view)
    ensures |s.blocks| == |s.es|
  {
    Slab(es, seq(|es|, i requires 0 <= i < |es| => SlotBlock(cfg, view, kind, es[i].slot)))
  }

  function KSlab(cfg: CacheConfig, view: HeadView): (s: Slab)
    requires ViewOk(cfg, view)
    ensures |s.blocks| == |s.es|
  {
    ViewShaped(cfg, view);
    SlabOf(cfg, view, KSlot, Stored(cfg, KSlot, view.pages))
  }

  function VSlab(cfg: CacheConfig, view: HeadView): (s: Slab)
    requires ViewOk(cfg, view)
    ensures |s.blocks| == |s.es|
  {
    ViewShaped(cfg, view);
    SlabOf(cfg, view, VSlot, Stored(cfg, VSlot, view.pages))
  }

  // ---- the token-level meaning of a selection ----

  predicate Covers(e: Entry, t: int) { e.start <= t < e.start + e.len }

  function Block(slab: Slab, i: int): seq<Vec> { if 0 <= i < |slab.blocks| then slab.blocks[i] else [] }

  /** Slot `i`'s contribution to coordinate `d` of token `t`'s value residual. */
  function VPart(slab: Slab, sel: set<nat>, t: int, d: int): int -> real
  {
    i => if 0 <= i < |slab.es| && i in sel && Covers(slab.es[i], t)
         then At2(Block(slab, i), t - slab.es[i].start, d) else 0.0
  }

  /** The value residual the selected slots put on token `t`. */
  function Rho(slab: Slab, sel: set<nat>, t: int, d: int): real
  {
    Sum(0, |slab.es|, VPart(slab, sel, t, d))
  }

  function Channel(w: nat, e: Entry, block: seq<Vec>, q: Vec, t: int): int -> real
  {
    c => Prod(At(q, e.group * w + c), At2(block, t - e.start, c))
  }

  /** q·R_K over one slot's channel group, at token `t`. */
  function KDot(w: nat, e: Entry, block: seq<Vec>, q: Vec, t: int): real
  {
    Sum(0, w, Channel(w, e, block, q, t))
  }

  function KPart(w: nat, slab: Slab, sel: set<nat>, q: Vec, t: int): int -> real
  {
    i => if 0 <= i < |slab.es| && i in sel && Covers(slab.es[i], t)
         then KDot(w, slab.es[i], Block(slab, i), q, t) else 0.0
  }

  /** The logit shift, before scaling, that the selected slots put on token `t`. */
  function Shift(w: nat, slab: Slab, sel: set<nat>, q: Vec, t: int): real
  {
    Sum(0, |slab.es|, KPart(w, slab, sel, q, t))
  }

  /** The summands of the V correction and of the first-order K correction. */
  function VTermAt(a: Vec, slab: Slab, sel: set<nat>, d: int, t: int): real
  {
    Prod(At(a, t), Rho(slab, sel, t, d))
  }

  function KTermAt(w: nat, row: Query, v: seq<Vec>, slab: Slab, sel: set<nat>, d: int, t: int): real
  {
    Prod(Prod(At(row.a, t), Shift(w, slab, sel, row.q, t)), At2(v, t, d) - At(row.o, d))
  }

  function VTerm(a: Vec, slab: Slab, sel: set<nat>, d: int): int -> real
  {
    t => VTermAt(a, slab, sel, d, t)
  }

  function KTerm(w: nat, row: Query, v: seq<Vec>, slab: Slab, sel: set<nat>, d: int): int -> real
  {
    t => KTermAt(w, row, v, slab, sel, d, t)
  }

  function Shifts(w: nat, row: Query, slab: Slab, sel: set<nat>, rootD: real): (ds: Vec)
    requires rootD > 0.0
    ensures |ds| == |row.a|
  {
    seq(|row.a|, t requires 0 <= t < |row.a| => Shift(w, slab, sel, row.q, t) / rootD)
  }

  function CorrectedValue(v: seq<Vec>, slab: Slab, sel: set<nat>, d: int): int -> real
  {
    t => At2(v, t, d) + Rho(slab, sel, t, d)
  }

  /** One coordinate of the correction: the V term plus the scaled first-order K term, or, in exact
    * mode with any K slot read, the renormalised softmax over corrected values. */
  function CorrectedAt(par: Params, w: nat, row: Query, v: seq<Vec>, kslab: Slab, vslab: Slab,
                       sk: set<nat>, sv: set<nat>, d: int): real
    requires par.rootD > 0.0
  {
    if par.exact && sk != {} then
      ExactDelta(par.exp, row.a, Shifts(w, row, kslab, sk, par.rootD), CorrectedValue(v, vslab, sv, d), At(row.o, d))
    else
      Sum(0, |row.a|, VTerm(row.a, vslab, sv, d)) + Prod(par.scale, Sum(0, |row.a|, KTerm(w, row, v, kslab, sk, d)))
  }

  function Corrected(par: Params, cfg: CacheConfig, row: Query, v: seq<Vec>, kslab: Slab, vslab: Slab,
                     sk: set<nat>, sv: set<nat>): (delta: Vec)
    requires par.rootD > 0.0
    ensures |delta| == cfg.headDim
  {
    seq(cfg.headDim, d requires 0 <= d < cfg.headDim =>
      CorrectedAt(par, cfg.kChannelGroup, row, v, kslab, vslab, sk, sv, d))
  }

  // ---- reading one more slot ----

  lemma RhoAdd(slab: Slab, sel: set<nat>, i: nat, t: int, d: int)
    requires i < |slab.es| && i !in sel
    ensures Rho(slab, sel + {i}, t, d) == Rho(slab, sel, t, d)
      + if Covers(slab.es[i], t) then At2(Block(slab, i), t - slab.es[i].start, d) else 0.0
  {
    var n := |slab.es|;
    var one := VPart(slab, {i}, t, d);
    hide At2, Covers;
    SumAdd(0, n, VPart(slab, sel, t, d), one, VPart(slab, sel + {i}, t, d));
    SumSingle(0, n, one, i);
  }

  lemma ShiftAdd(w: nat, slab: Slab, sel: set<nat>, i: nat, q: Vec, t: int)
    requires i < |slab.es| && i !in sel
    ensures Shift(w, slab, sel + {i}, q, t) == Shift(w, slab, sel, q, t)
      + if Covers(slab.es[i], t) then KDot(w, slab.es[i], Block(slab, i), q, t) else 0.0
  {
    var n := |slab.es|;
    var one := KPart(w, slab, {i}, q, t);
    hide KDot, Covers;
    SumAdd(0, n, KPart(w, slab, sel, q, t), one, KPart(w, slab, sel + {i}, q, t));
    SumSingle(0, n, one, i);
  }

  /** The summands of one slot alone, at its own tokens. */
  function VSlotTermAt(a: Vec, e: Entry, block: seq<Vec>, d: int, t: int): real
  {
    Prod(At(a, t), At2(block, t - e.start, d))
  }

  function KSlotTermAt(w: nat, row: Query, v: seq<Vec>, e: Entry, block: seq<Vec>, d: int, t: int): real
  {
    Prod(Prod(At(row.a, t), KDot(w, e, block, row.q, t)), At2(v, t, d) - At(row.o, d))
  }

  function VSlotTerm(a: Vec, e: Entry, block: seq<Vec>, d: int): int -> real
  {
    t => VSlotTermAt(a, e, block, d, t)
  }

  function KSlotTerm(w: nat, row: Query, v: seq<Vec>, e: Entry, block: seq<Vec>, d: int): int -> real
  {
    t => KSlotTermAt(w, row, v, e, block, d, t)
  }

  /** `f` on the tokens of one slot, zero elsewhere. */
  function OnSlot(e: Entry, f: int -> real): int -> real { t => if Covers(e, t) then f(t) else 0.0 }

  lemma OnSlotSum(e: Entry, n: nat, f: int -> real)
    requires e.start + e.len <= n
    ensures Sum(0, n, OnSlot(e, f)) == Sum(e.start, e.start + e.len, f)
  {
    hide Sum;
    var a, b, g := e.start, e.start + e.len, OnSlot(e, f);
    assert forall t :: 0 <= t < n ==> g(t) == if a <= t < b then f(t) else 0.0;
    SumRestrict(0, a, b, n, f, g);
  }

  lemma VTermStep(a: Vec, slab: Slab, sel: set<nat>, i: nat, t: int, d: int)
    requires i < |slab.es| && i !in sel
    ensures VTermAt(a, slab, sel + {i}, d, t) == VTermAt(a, slab, sel, d, t)
      + if Covers(slab.es[i], t) then VSlotTermAt(a, slab.es[i], Block(slab, i), d, t) else 0.0
  {
    hide Rho, At2, Prod, At, Block, Covers;
    var e, block := slab.es[i], Block(slab, i);
    RhoAdd(slab, sel, i, t, d);
    var x, y := Rho(slab, sel + {i}, t, d), Rho(slab, sel, t, d);
    var p, z := At(a, t), At2(block, t - e.start, d);
    if Covers(e, t) {
      assert x == y + z;
      ProdSum(p, x, y, z);
    } else {
      assert x == y;
    }
  }

  lemma KTermStep(w: nat, row: Query, v: seq<Vec>, slab: Slab, sel: set<nat>, i: nat, t: int, d: int)
    requires i < |slab.es| && i !in sel
    ensures KTermAt(w, row, v, slab, sel + {i}, d, t) == KTermAt(w, row, v, slab, sel, d, t)
      + if Covers(slab.es[i], t) then KSlotTermAt(w, row, v, slab.es[i], Block(slab, i), d, t) else 0.0
  {
    hide Shift, At2, KDot, Prod, At, Block, Covers;
    var e, block := slab.es[i], Block(slab, i);
    ShiftAdd(w, slab, sel, i, row.q, t);
    var x, y := Shift(w, slab, sel + {i}, row.q, t), Shift(w, slab, sel, row.q, t);
    var a, b := At(row.a, t), At2(v, t, d) - At(row.o, d);
    if Covers(e, t) {
      var z := KDot(w, e, block, row.q, t);
      ProdSum(a, x, y, z);
      ProdSum(b, Prod(a, x), Prod(a, y), Prod(a, z));
    } else {
      assert x == y;
    }
  }

  lemma VTermAdd(a: Vec, slab: Slab, sel: set<nat>, i: nat, d: int)
    requires i < |slab.es| && i !in sel && slab.es[i].start + slab.es[i].len <= |a|
    ensures var e := slab.es[i];
      Sum(0, |a|, VTerm(a, slab, sel + {i}, d)) == Sum(0, |a|, VTerm(a, slab, sel, d))
      + Sum(e.start, e.start + e.len, VSlotTerm(a, e, Block(slab, i), d))
  {
    hide VTermAt, VSlotTermAt, Sum, Covers, Block;
    var e := slab.es[i];
    var f := VSlotTerm(a, e, Block(slab, i), d);
    forall t | 0 <= t < |a|
      ensures VTerm(a, slab, sel + {i}, d)(t) == VTerm(a, slab, sel, d)(t) + OnSlot(e, f)(t)
    {
      VTermStep(a, slab, sel, i, t, d);
    }
    SumAdd(0, |a|, VTerm(a, slab, sel, d), OnSlot(e, f), VTerm(a, slab, sel + {i}, d));
    OnSlotSum(e, |a|, f);
  }

  lemma KTermAdd(w: nat, row: Query, v: seq<Vec>, slab: Slab, sel: set<nat>, i: nat, d: int)
    requires i < |slab.es| && i !in sel && slab.es[i].start + slab.es[i].len <= |row.a|
    ensures var e := slab.es[i];
      Sum(0, |row.a|, KTerm(w, row, v, slab, sel + {i}, d)) == Sum(0, |row.a|, KTerm(w, row, v, slab, sel, d))
      + Sum(e.start, e.start + e.len, KSlotTerm(w, row, v, e, Block(slab, i), d))
  {
    hide KTermAt, KSlotTermAt, Sum, Covers, Block;
    var n, e := |row.a|, slab.es[i];
    var f := KSlotTerm(w, row, v, e, Block(slab, i), d);
    forall t | 0 <= t < n
      ensures KTerm(w, row, v, slab, sel + {i}, d)(t) == KTerm(w, row, v, slab, sel, d)(t) + OnSlot(e, f)(t)
    {
      KTermStep(w, row, v, slab, sel, i, t, d);
    }
    SumAdd(0, n, KTerm(w, row, v, slab, sel, d), OnSlot(e, f), KTerm(w, row, v, slab, sel + {i}, d));
    OnSlotSum(e, n, f);
  }

  lemma EmptySelection(par: Params, w: nat, row: Query, v: seq<Vec>, kslab: Slab, vslab: Slab, d: int)
    ensures Sum(0, |row.a|, VTerm(row.a, vslab, {}, d)) == 0.0
    ensures Sum(0, |row.a|, KTerm(w, row, v, kslab, {}, d)) == 0.0
    ensures forall t :: Shift(w, kslab, {}, row.q, t) == 0.0 && Rho(vslab, {}, t, d) == 0.0
  {
    forall t ensures Shift(w, kslab, {}, row.q, t) == 0.0 && Rho(vslab, {}, t, d) == 0.0 {
      SumZero(0, |kslab.es|, KPart(w, kslab, {}, row.q, t));
      SumZero(0, |vslab.es|, VPart(vslab, {}, t, d));
    }
    hide Shift, Rho;
    SumZero(0, |row.a|, VTerm(row.a, vslab, {}, d));
    SumZero(0, |row.a|, KTerm(w, row, v, kslab, {}, d));
  }
}
