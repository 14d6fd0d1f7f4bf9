/** The per-query loop over routed slots, proved to compute the token-level correction. */
module SlotLoop {

  import opened Numbers
  import opened Sums
  import opened Config
  import opened Selection
  import opened Pages
  import opened Router
  import opened RouterSoundness
  import opened ExactSoftmax
  import opened Correction

  function RefOf(e: Entry): SlotRef { SlotRef(e.page, e.group, e.slot) }

  /** The indices of the stored slots a list of references names. */
  ghost function Chosen(es: seq<Entry>, refs: seq<SlotRef>): (s: set<nat>)
    ensures forall i :: i in s <==> 0 <= i < |es| && RefOf(es[i]) in refs
  {
    set i: nat | i < |es| && RefOf(es[i]) in refs
  }

  ghost predicate Names(ref: SlotRef, es: seq<Entry>) { exists i :: 0 <= i < |es| && RefOf(es[i]) == ref }

  /** Distinct references, each to a stored slot. */
  ghost predicate RefsInto(refs: seq<SlotRef>, es: seq<Entry>)
  {
    NoDup(refs) && forall n :: 0 <= n < |refs| ==> Names(refs[n], es)
  }

  ghost predicate DistinctEntries(es: seq<Entry>)
  {
    forall i, j :: 0 <= i < j < |es| ==> es[i].page != es[j].page || es[i].group != es[j].group
  }

  lemma ChosenStep(es: seq<Entry>, refs: seq<SlotRef>, n: nat, i: nat)
    requires DistinctEntries(es) && NoDup(refs) && n < |refs| && i < |es| && RefOf(es[i]) == refs[n]
    ensures i !in Chosen(es, refs[..n]) && Chosen(es, refs[..n + 1]) == Chosen(es, refs[..n]) + {i}
  {
    assert refs[..n + 1] == refs[..n] + [refs[n]];
    forall j | j in Chosen(es, refs[..n + 1]) ensures j in Chosen(es, refs[..n]) + {i} {
      if RefOf(es[j]) == refs[n] { assert j == i; }
    }
  }

  lemma StoredDistinct(cfg: CacheConfig, kind: Kind, pages: seq<PageState>)
    requires MetaShaped(pages)
    ensures DistinctEntries(Stored(cfg, kind, pages))
    ensures WellPlaced(Stored(cfg, kind, pages), kind, TokenCount(pages))
  {
    EntriesWellPlaced(cfg, kind, pages, |pages|, false);
  }

  lemma SubRefs(sel: seq<Candidate>, ranked: seq<Candidate>, es: seq<Entry>)
    requires Subselection(sel, ranked) && |ranked| == |es| && DistinctEntries(es)
    requires forall i :: 0 <= i < |es| ==>
      ranked[i].page == es[i].page && ranked[i].group == es[i].group && ranked[i].slot == es[i].slot
    ensures RefsInto(Refs(sel), es)
  {
    var refs := Refs(sel);
    forall n | 0 <= n < |refs| ensures Names(refs[n], es) {
      assert sel[n] in ranked;
      var i :| 0 <= i < |ranked| && ranked[i] == sel[n];
      assert RefOf(es[i]) == refs[n];
    }
    forall m, n | 0 <= m < n < |refs| ensures refs[m] != refs[n] {
      assert sel[m] in ranked && sel[n] in ranked;
      var i :| 0 <= i < |ranked| && ranked[i] == sel[m];
      var j :| 0 <= j < |ranked| && ranked[j] == sel[n];
      assert i != j;
    }
  }

  /** The router's reads name distinct stored slots of each kind. */
  lemma RoutedRefs(en: Engine, v: seq<Vec>, row: Query, pages: seq<PageState>, wanted: Wanted, normalize: bool)
    requires en.Valid() && MetaShaped(pages) && PagesInOrder(pages)
    ensures var sel := Routed(en, v, row, pages, wanted, normalize);
      RefsInto(Refs(OfKind(sel, KSlot)), Stored(en.cfg, KSlot, pages))
      && RefsInto(Refs(OfKind(sel, VSlot)), Stored(en.cfg, VSlot, pages))
  {
    hide KScore, VScore, Choose, Normalise;
    var ks, vs := RouterK(en, v, row, pages, wanted), RouterV(en, row, pages, wanted);
    CandidatesDistinct(en, v, row, pages, wanted);
    StoredDistinct(en.cfg, KSlot, pages);
    StoredDistinct(en.cfg, VSlot, pages);
    WalksAgree(en.cfg, KSlot, pages);
    WalksAgree(en.cfg, VSlot, pages);
    if row.a != [] {
      ChoiceSub(en, row.a, ks, vs, wanted, normalize);
      RankKeepsShape(ks, wanted, normalize, KSlot);
      RankKeepsShape(vs, wanted, normalize, VSlot);
      var sel := Choose(en, row.a, ks, vs, wanted, normalize);
      if wanted.K() { SubRefs(OfKind(sel, KSlot), Ranked(ks, wanted, normalize), Stored(en.cfg, KSlot, pages)); }
      else if OfKind(sel, KSlot) != [] { SomethingRanked(OfKind(sel, KSlot), Ranked(ks, wanted, normalize)); }
      if wanted.V() { SubRefs(OfKind(sel, VSlot), Ranked(vs, wanted, normalize), Stored(en.cfg, VSlot, pages)); }
      else if OfKind(sel, VSlot) != [] { SomethingRanked(OfKind(sel, VSlot), Ranked(vs, wanted, normalize)); }
    }
  }

  lemma SomethingRanked(sel: seq<Candidate>, ranked: seq<Candidate>)
    requires Subselection(sel, ranked) && sel != []
    ensures ranked != []
  {
    assert sel[0] in ranked;
  }

  // ---- the loop's vector operations ----

  /** `delta + (blk_a ⊗ block).sum(0)` over the slot's tokens. */
  function AddV(delta: Vec, a: Vec, e: Entry, block: seq<Vec>): (r: Vec)
    ensures |r| == |delta|
  {
    seq(|delta|, d requires 0 <= d < |delta| => delta[d] + Sum(e.start, e.start + e.len, VSlotTerm(a, e, block, d)))
  }

  function AddK(delta: Vec, w: nat, row: Query, v: seq<Vec>, e: Entry, block: seq<Vec>): (r: Vec)
    ensures |r| == |delta|
  {
    seq(|delta|, d requires 0 <= d < |delta| =>
      delta[d] + Sum(e.start, e.start + e.len, KSlotTerm(w, row, v, e, block, d)))
  }

  /** Base values under the new weights, plus residual rows under them, minus the base output. */
  function ExactRow(exp: real -> real, a: Vec, ds: Vec, v: seq<Vec>, o: Vec, residual: seq<Vec>, n: nat): (r: Vec)
    ensures |r| == n
  {
    seq(n, d requires 0 <= d < n =>
      Sum(0, |a|, Times(NewWeight(exp, a, ds), Column(v, d)))
      + Sum(0, |a|, Times(NewWeight(exp, a, ds), Column(residual, d))) - At(o, d))
  }

  lemma ExactRowIsDelta(exp: real -> real, a: Vec, ds: Vec, v: seq<Vec>, o: Vec, residual: seq<Vec>, n: nat,
                        slab: Slab, sel: set<nat>, d: nat)
    requires d < n && forall t :: 0 <= t < |a| ==> At2(residual, t, d) == Rho(slab, sel, t, d)
    ensures ExactRow(exp, a, ds, v, o, residual, n)[d]
         == ExactDelta(exp, a, ds, CorrectedValue(v, slab, sel, d), At(o, d))
  {
    hide NewWeight, Rho, At2, Prod, Sum;
    var w := NewWeight(exp, a, ds);
    forall t | 0 <= t < |a|
      ensures Times(w, CorrectedValue(v, slab, sel, d))(t)
           == Times(w, Column(v, d))(t) + Times(w, Column(residual, d))(t)
    {
      ProdSum(w(t), CorrectedValue(v, slab, sel, d)(t), Column(v, d)(t), Column(residual, d)(t));
    }
    SumAdd(0, |a|, Times(w, Column(v, d)), Times(w, Column(residual, d)), Times(w, CorrectedValue(v, slab, sel, d)));
  }

  /** Selected V slots do not overlap, so a token in one of them has no other residual. */
  lemma OnlyOwner(slab: Slab, sel: set<nat>, i: nat, t: int, d: int, total: nat)
    requires WellPlaced(slab.es, VSlot, total) && i < |slab.es| && i !in sel && Covers(slab.es[i], t)
    ensures Rho(slab, sel, t, d) == 0.0
  {
    forall j | 0 <= j < |slab.es| ensures VPart(slab, sel, t, d)(j) == 0.0 {
      if j < i { assert !Covers(slab.es[j], t); } else if i < j { assert !Covers(slab.es[j], t); }
    }
    SumZero(0, |slab.es|, VPart(slab, sel, t, d));
  }

  /** Page `p` starts after the valid tokens of every page before it. */
  method PageTokenOffsets(pages: seq<PageState>) returns (m: map<nat, (nat, nat)>)
    ensures forall p :: p in m <==> 0 <= p < |pages| && pages[p].valid > 0
    ensures forall p :: p in m ==> m[p] == (Cursor(pages, p, false), Cursor(pages, p + 1, false))
  {
    m := map[];
    var cursor, p := 0, 0;
    while p < |pages|
      invariant 0 <= p <= |pages| && cursor == Cursor(pages, p, false)
      invariant forall i :: i in m <==> 0 <= i < p && pages[i].valid > 0
      invariant forall i :: i in m ==> m[i] == (Cursor(pages, i, false), Cursor(pages, i + 1, false))
    {
      var n := pages[p].valid;
      if n > 0 { m := m[p := (cursor, cursor + n)]; }
      cursor := cursor + n;
      p := p + 1;
    }
  }

  // ---- one read ----

  /** Where the loop places a block of a page: its start, and its end trimmed to the page's valid
    * tokens. */
  lemma Placed(cfg: CacheConfig, kind: Kind, pages: seq<PageState>, i: nat)
    requires MetaShaped(pages) && i < |Stored(cfg, kind, pages)|
    ensures var e := Stored(cfg, kind, pages)[i];
      && e.page < |pages| && pages[e.page].valid > 0 && e.len > 0
      && Cursor(pages, e.page + 1, false) == Cursor(pages, e.page, false) + pages[e.page].valid
      && e.start == Cursor(pages, e.page, false) + BlockStart(cfg, kind, e.group)
      && e.start + e.len == Cursor(pages, e.page, false) + BlockEnd(cfg, kind, e.group, pages[e.page].valid)
      && e.start + e.len <= TokenCount(pages)
  {
    EntrySource(cfg, kind, pages, |pages|, i);
    StoredDistinct(cfg, kind, pages);
  }

  ghost predicate VSoFar(a: Vec, slab: Slab, sel: set<nat>, delta: Vec)
  {
    forall d :: 0 <= d < |delta| ==> delta[d] == Sum(0, |a|, VTerm(a, slab, sel, d))
  }

  ghost predicate KSoFar(w: nat, row: Query, v: seq<Vec>, slab: Slab, sel: set<nat>, delta: Vec)
  {
    forall d :: 0 <= d < |delta| ==> delta[d] == Sum(0, |row.a|, KTerm(w, row, v, slab, sel, d))
  }

  lemma ReadV(a: Vec, slab: Slab, sel: set<nat>, i: nat, delta: Vec)
    requires i < |slab.es| && i !in sel && slab.es[i].start + slab.es[i].len <= |a|
    requires VSoFar(a, slab, sel, delta)
    ensures VSoFar(a, slab, sel + {i}, AddV(delta, a, slab.es[i], Block(slab, i)))
  {
    hide Sum, VTerm, VSlotTerm;
    forall d | 0 <= d < |delta|
      ensures AddV(delta, a, slab.es[i], Block(slab, i))[d] == Sum(0, |a|, VTerm(a, slab, sel + {i}, d))
    {
      VTermAdd(a, slab, sel, i, d);
    }
  }

  lemma ReadK(w: nat, row: Query, v: seq<Vec>, slab: Slab, sel: set<nat>, i: nat, delta: Vec)
    requires i < |slab.es| && i !in sel && slab.es[i].start + slab.es[i].len <= |row.a|
    requires KSoFar(w, row, v, slab, sel, delta)
    ensures KSoFar(w, row, v, slab, sel + {i}, AddK(delta, w, row, v, slab.es[i], Block(slab, i)))
  {
    hide Sum, KTerm, KSlotTerm;
    forall d | 0 <= d < |delta|
      ensures AddK(delta, w, row, v, slab.es[i], Block(slab, i))[d]
           == Sum(0, |row.a|, KTerm(w, row, v, slab, sel + {i}, d))
    {
      KTermAdd(w, row, v, slab, sel, i, d);
    }
  }

  /** What the exact-mode buffers hold after reading the V slots of `sel`: a residual row on the
    * tokens marked, and no residual elsewhere. */
  ghost predicate ResidualSoFar(slab: Slab, sel: set<nat>, marked: seq<bool>, rv: seq<Vec>, dim: nat)
  {
    |marked| == |rv| && forall t, d :: 0 <= t < |rv| && 0 <= d < dim ==>
      Rho(slab, sel, t, d) == if marked[t] then At(rv[t], d) else 0.0
  }

  /** Assigning a block's rows and marking its tokens. */
  function MarkSlot(e: Entry, marked: seq<bool>): (r: seq<bool>)
    ensures |r| == |marked|
  {
    seq(|marked|, t requires 0 <= t < |marked| => if Covers(e, t) then true else marked[t])
  }

  function StoreRows(e: Entry, block: seq<Vec>, rv: seq<Vec>): (r: seq<Vec>)
    ensures |r| == |rv|
  {
    seq(|rv|, t requires 0 <= t < |rv| => if Covers(e, t) then Row(block, t - e.start) else rv[t])
  }

  lemma ReadResidual(slab: Slab, sel: set<nat>, i: nat, marked: seq<bool>, rv: seq<Vec>, dim: nat, total: nat)
    requires WellPlaced(slab.es, VSlot, total) && i < |slab.es| && i !in sel
    requires ResidualSoFar(slab, sel, marked, rv, dim)
    ensures ResidualSoFar(slab, sel + {i}, MarkSlot(slab.es[i], marked),
                          StoreRows(slab.es[i], Block(slab, i), rv), dim)
  {
    var e := slab.es[i];
    hide Rho, WellPlaced, Block, At2, At, Covers, MarkSlot, StoreRows;
    forall t, d | 0 <= t < |rv| && 0 <= d < dim
      ensures Rho(slab, sel + {i}, t, d)
           == if MarkSlot(e, marked)[t] then At(StoreRows(e, Block(slab, i), rv)[t], d) else 0.0
    {
      ResidualAt(e, Block(slab, i), marked, rv, t, d);
      RhoReplaced(slab, sel, i, t, d, total);
    }
  }

  /** Reading a slot sets the residual of its own tokens and no other. */
  lemma RhoReplaced(slab: Slab, sel: set<nat>, i: nat, t: int, d: int, total: nat)
    requires WellPlaced(slab.es, VSlot, total) && i < |slab.es| && i !in sel
    ensures Rho(slab, sel + {i}, t, d)
         == if Covers(slab.es[i], t) then At2(Block(slab, i), t - slab.es[i].start, d) else Rho(slab, sel, t, d)
  {
    hide Rho, WellPlaced, Block, At2, Covers;
    RhoAdd(slab, sel, i, t, d);
    if Covers(slab.es[i], t) { OnlyOwner(slab, sel, i, t, d, total); }
  }

  lemma ResidualAt(e: Entry, block: seq<Vec>, marked: seq<bool>, rv: seq<Vec>, t: nat, d: nat)
    requires t < |rv| == |marked|
    ensures MarkSlot(e, marked)[t] == (Covers(e, t) || marked[t])
    ensures At(StoreRows(e, block, rv)[t], d) == if Covers(e, t) then At2(block, t - e.start, d) else At(rv[t], d)
  {
  }

  ghost predicate ShiftSoFar(w: nat, slab: Slab, sel: set<nat>, q: Vec, ds: Vec)
  {
    forall t :: 0 <= t < |ds| ==> ds[t] == Shift(w, slab, sel, q, t)
  }

  function AddShift(w: nat, e: Entry, block: seq<Vec>, q: Vec, ds: Vec): (r: Vec)
    ensures |r| == |ds|
  {
    seq(|ds|, t requires 0 <= t < |ds| => if Covers(e, t) then ds[t] + KDot(w, e, block, q, t) else ds[t])
  }

  lemma ReadShift(w: nat, slab: Slab, sel: set<nat>, i: nat, q: Vec, ds: Vec)
    requires i < |slab.es| && i !in sel && ShiftSoFar(w, slab, sel, q, ds)
    ensures ShiftSoFar(w, slab, sel + {i}, q, AddShift(w, slab.es[i], Block(slab, i), q, ds))
  {
    hide Shift, KDot;
    forall t | 0 <= t < |ds|
      ensures AddShift(w, slab.es[i], Block(slab, i), q, ds)[t] == Shift(w, slab, sel + {i}, q, t)
    {
      ShiftAdd(w, slab, sel, i, q, t);
    }
  }

  function Zeros(n: nat): (z: Vec)
    ensures |z| == n
  {
    seq(n, _ => 0.0)
  }

  lemma NothingRead(par: Params, w: nat, row: Query, v: seq<Vec>, kslab: Slab, vslab: Slab, dim: nat,
                    marked: seq<bool>, rv: seq<Vec>)
    requires |marked| == |rv| && forall t :: 0 <= t < |marked| ==> !marked[t]
    ensures VSoFar(row.a, vslab, {}, Zeros(dim)) && KSoFar(w, row, v, kslab, {}, Zeros(dim))
    ensures ResidualSoFar(vslab, {}, marked, rv, dim) && ShiftSoFar(w, kslab, {}, row.q, Zeros(|row.a|))
  {
    hide Sum, VTerm, KTerm, Shift, Rho;
    forall d ensures Sum(0, |row.a|, VTerm(row.a, vslab, {}, d)) == 0.0
      && Sum(0, |row.a|, KTerm(w, row, v, kslab, {}, d)) == 0.0
    { EmptySelection(par, w, row, v, kslab, vslab, d); }
    forall t, d ensures Rho(vslab, {}, t, d) == 0.0 { EmptySelection(par, w, row, v, kslab, vslab, d); }
    EmptySelection(par, w, row, v, kslab, vslab, 0);
  }

  /** The stored slot behind reference `n`, not read so far. */
  lemma NextRead(es: seq<Entry>, refs: seq<SlotRef>, n: nat) returns (i: nat)
    requires DistinctEntries(es) && RefsInto(refs, es) && n < |refs|
    ensures i < |es| && i !in Chosen(es, refs[..n])
    ensures Chosen(es, refs[..n + 1]) == Chosen(es, refs[..n]) + {i}
    ensures es[i].page == refs[n].page && es[i].group == refs[n].group && es[i].slot == refs[n].slot
  {
    assert Names(refs[n], es);
    i :| 0 <= i < |es| && RefOf(es[i]) == refs[n];
    ChosenStep(es, refs, n, i);
  }

  ghost predicate Offsets(pages: seq<PageState>, offsets: map<nat, (nat, nat)>)
  {
    && (forall p :: p in offsets <==> 0 <= p < |pages| && pages[p].valid > 0)
    && (forall p :: p in offsets ==> offsets[p] == (Cursor(pages, p, false), Cursor(pages, p + 1, false)))
  }

  /** The loops' placement of a reference is the stored slot's. */
  lemma NextV(cfg: CacheConfig, view: HeadView, refs: seq<SlotRef>, n: nat, offsets: map<nat, (nat, nat)>)
    returns (i: nat)
    requires ViewOk(cfg, view) && MetaShaped(view.pages) && Offsets(view.pages, offsets)
    requires RefsInto(refs, Stored(cfg, VSlot, view.pages)) && n < |refs|
    ensures var slab, ref := VSlab(cfg, view), refs[n];
      && i < |slab.es| && i !in Chosen(slab.es, refs[..n])
      && Chosen(slab.es, refs[..n + 1]) == Chosen(slab.es, refs[..n]) + {i}
      && ref.page in offsets && slab.es[i].group == ref.group && slab.es[i].len > 0
      && var (start, end) := offsets[ref.page];
      && start <= end
      && slab.es[i].start == start + BlockStart(cfg, VSlot, ref.group)
      && slab.es[i].start + slab.es[i].len == start + BlockEnd(cfg, VSlot, ref.group, end - start)
      && slab.es[i].start + slab.es[i].len <= TokenCount(view.pages)
      && Block(slab, i) == VBlock(cfg, view, ref.slot)
  {
    hide BlockStart, BlockEnd, VBlock, ViewOk, Entries;
    var es := Stored(cfg, VSlot, view.pages);
    StoredDistinct(cfg, VSlot, view.pages);
    i := NextRead(es, refs, n);
    Placed(cfg, VSlot, view.pages, i);
    assert offsets[es[i].page] == (Cursor(view.pages, es[i].page, false), Cursor(view.pages, es[i].page + 1, false));
  }

  lemma NextK(cfg: CacheConfig, view: HeadView, refs: seq<SlotRef>, n: nat, offsets: map<nat, (nat, nat)>)
    returns (i: nat)
    requires ViewOk(cfg, view) && MetaShaped(view.pages) && Offsets(view.pages, offsets)
    requires RefsInto(refs, Stored(cfg, KSlot, view.pages)) && n < |refs|
    ensures var slab, ref := KSlab(cfg, view), refs[n];
      && i < |slab.es| && i !in Chosen(slab.es, refs[..n])
      && Chosen(slab.es, refs[..n + 1]) == Chosen(slab.es, refs[..n]) + {i}
      && ref.page in offsets && slab.es[i].group == ref.group && slab.es[i].len > 0
      && var (start, end) := offsets[ref.page];
      && start <= end
      && slab.es[i].start == start + BlockStart(cfg, KSlot, ref.group)
      && slab.es[i].start + slab.es[i].len == start + BlockEnd(cfg, KSlot, ref.group, end - start)
      && slab.es[i].start + slab.es[i].len <= TokenCount(view.pages)
      && Block(slab, i) == KBlock(cfg, view, ref.slot)
  {
    hide BlockStart, BlockEnd, KBlock, ViewOk, Entries;
    var es := Stored(cfg, KSlot, view.pages);
    StoredDistinct(cfg, KSlot, view.pages);
    i := NextRead(es, refs, n);
    Placed(cfg, KSlot, view.pages, i);
    assert offsets[es[i].page] == (Cursor(view.pages, es[i].page, false), Cursor(view.pages, es[i].page + 1, false));
  }

  /** The V loop: every routed V slot added to the delta and, for exact mode, to the residual rows. */
  method ApplyV(cfg: CacheConfig, view: HeadView, a: Vec, refs: seq<SlotRef>, offsets: map<nat, (nat, nat)>)
    returns (delta: Vec, marked: seq<bool>, rv: seq<Vec>)
    requires ViewOk(cfg, view) && |a| == TokenCount(view.pages)
    requires MetaShaped(view.pages) && RefsInto(refs, Stored(cfg, VSlot, view.pages))
    requires Offsets(view.pages, offsets)
    ensures |delta| == cfg.headDim && |marked| == |rv| == |a|
    ensures VSoFar(a, VSlab(cfg, view), Chosen(VSlab(cfg, view).es, refs), delta)
    ensures ResidualSoFar(VSlab(cfg, view), Chosen(VSlab(cfg, view).es, refs), marked, rv, cfg.headDim)
  {
    hide VSoFar, ResidualSoFar, WellPlaced, AddV, MarkSlot, StoreRows, VBlock, Entries, ViewOk, MetaShaped,
      RefsInto, Offsets, BlockStart, BlockEnd;
    ghost var slab := VSlab(cfg, view);
    delta, marked, rv := Zeros(cfg.headDim), seq(|a|, _ => false), seq(|a|, _ => []);
    ghost var none: Params := Params(Both, 0.0, false, false, _ => 0.0, 1.0);
    NothingRead(none, 0, Query([], [], a, []), [], slab, slab, cfg.headDim, marked, rv);
    StoredDistinct(cfg, VSlot, view.pages);
    var n := 0;
    assert Chosen(slab.es, refs[..0]) == {};
    while n < |refs|
      invariant 0 <= n <= |refs| && |delta| == cfg.headDim && |marked| == |rv| == |a|
      invariant VSoFar(a, slab, Chosen(slab.es, refs[..n]), delta)
      invariant ResidualSoFar(slab, Chosen(slab.es, refs[..n]), marked, rv, cfg.headDim)
    {
      var ref := refs[n];
      ghost var i := NextV(cfg, view, refs, n, offsets);
      if ref.page in offsets {
        var (start, end) := offsets[ref.page];
        var t0, t1 := BlockStart(cfg, VSlot, ref.group), BlockEnd(cfg, VSlot, ref.group, end - start);
        if t1 > t0 {
          var e := Entry(ref.page, ref.group, ref.slot, start + t0, t1 - t0, 0.0, []);
          var block := VBlock(cfg, view, ref.slot);
          SamePlace(e, slab.es[i], a, block, delta, marked, rv);
          ReadV(a, slab, Chosen(slab.es, refs[..n]), i, delta);
          ReadResidual(slab, Chosen(slab.es, refs[..n]), i, marked, rv, cfg.headDim, |a|);
          delta, marked, rv := AddV(delta, a, e, block), MarkSlot(e, marked), StoreRows(e, block, rv);
        }
      }
      n := n + 1;
    }
    assert refs[..|refs|] == refs;
  }

  lemma SamePlace(e: Entry, f: Entry, a: Vec, block: seq<Vec>, delta: Vec, marked: seq<bool>, rv: seq<Vec>)
    requires e.start == f.start && e.len == f.len
    ensures AddV(delta, a, e, block) == AddV(delta, a, f, block)
    ensures MarkSlot(e, marked) == MarkSlot(f, marked) && StoreRows(e, block, rv) == StoreRows(f, block, rv)
  {
    forall d ensures Sum(e.start, e.start + e.len, VSlotTerm(a, e, block, d))
      == Sum(f.start, f.start + f.len, VSlotTerm(a, f, block, d))
    {
      SumExt(e.start, e.start + e.len, VSlotTerm(a, e, block, d), VSlotTerm(a, f, block, d));
    }
  }

  lemma SameKPlace(w: nat, e: Entry, f: Entry, row: Query, v: seq<Vec>, block: seq<Vec>, delta: Vec, ds: Vec)
    requires e.start == f.start && e.len == f.len && e.group == f.group
    ensures AddK(delta, w, row, v, e, block) == AddK(delta, w, row, v, f, block)
    ensures AddShift(w, e, block, row.q, ds) == AddShift(w, f, block, row.q, ds)
  {
    forall t ensures KDot(w, e, block, row.q, t) == KDot(w, f, block, row.q, t) {
      SumExt(0, w, Channel(w, e, block, row.q, t), Channel(w, f, block, row.q, t));
    }
    hide KDot, Sum, Prod;
    forall d ensures Sum(e.start, e.start + e.len, KSlotTerm(w, row, v, e, block, d))
      == Sum(f.start, f.start + f.len, KSlotTerm(w, row, v, f, block, d))
    {
      SumExt(e.start, e.start + e.len, KSlotTerm(w, row, v, e, block, d), KSlotTerm(w, row, v, f, block, d));
    }
  }

  /** The K loop: every routed K slot added to the first-order delta and to the logit shift. */
  method ApplyK(cfg: CacheConfig, view: HeadView, row: Query, v: seq<Vec>, refs: seq<SlotRef>,
                offsets: map<nat, (nat, nat)>)
    returns (delta: Vec, ds: Vec)
    requires ViewOk(cfg, view) && |row.a| == TokenCount(view.pages)
    requires MetaShaped(view.pages) && RefsInto(refs, Stored(cfg, KSlot, view.pages))
    requires Offsets(view.pages, offsets)
    ensures |delta| == cfg.headDim && |ds| == |row.a|
    ensures KSoFar(cfg.kChannelGroup, row, v, KSlab(cfg, view), Chosen(KSlab(cfg, view).es, refs), delta)
    ensures ShiftSoFar(cfg.kChannelGroup, KSlab(cfg, view), Chosen(KSlab(cfg, view).es, refs), row.q, ds)
  {
    hide KSoFar, ShiftSoFar, AddK, AddShift, KBlock, Entries, ViewOk, MetaShaped, RefsInto, Offsets;
    ghost var slab, w := KSlab(cfg, view), cfg.kChannelGroup;
    delta, ds := Zeros(cfg.headDim), Zeros(|row.a|);
    ghost var none: Params := Params(Both, 0.0, false, false, _ => 0.0, 1.0);
    NothingRead(none, w, row, v, slab, slab, cfg.headDim, [], []);
    var n := 0;
    assert Chosen(slab.es, refs[..0]) == {};
    while n < |refs|
      invariant 0 <= n <= |refs| && |delta| == cfg.headDim && |ds| == |row.a|
      invariant KSoFar(w, row, v, slab, Chosen(slab.es, refs[..n]), delta)
      invariant ShiftSoFar(w, slab, Chosen(slab.es, refs[..n]), row.q, ds)
    {
      var ref := refs[n];
      ghost var i := NextK(cfg, view, refs, n, offsets);
      if ref.page in offsets {
        var (start, end) := offsets[ref.page];
        var e := Entry(ref.page, ref.group, ref.slot, start, end - start, 0.0, []);
        var block := KBlock(cfg, view, ref.slot);
        SameKPlace(w, e, slab.es[i], row, v, block, delta, ds);
        ReadK(w, row, v, slab, Chosen(slab.es, refs[..n]), i, delta);
        ReadShift(w, slab, Chosen(slab.es, refs[..n]), i, row.q, ds);
        delta, ds := AddK(delta, cfg.kChannelGroup, row, v, e, block), AddShift(cfg.kChannelGroup, e, block, row.q, ds);
      }
      n := n + 1;
    }
    assert refs[..|refs|] == refs;
  }

  /** The stored slots the router reads for one query. */
  ghost function ReadSet(en: Engine, par: Params, view: HeadView, row: Query, v: seq<Vec>, kind: Kind): set<nat>
    requires en.Valid() && ViewOk(en.cfg, view) && MetaShaped(view.pages)
  {
    Chosen(Stored(en.cfg, kind, view.pages),
           Refs(OfKind(Routed(en, v, row, view.pages, par.wanted, par.normalize), kind)))
  }

  /** Route, place, accumulate, combine: on any page table without a gap before its last page, the
    * loop computes the token-level correction of the slots it reads. */
  method ApplySlotCorrections(en: Engine, par: Params, view: HeadView, row: Query, v: seq<Vec>)
    returns (delta: Vec)
    requires en.Valid() && ViewOk(en.cfg, view) && MetaShaped(view.pages) && PagesInOrder(view.pages)
    requires |row.a| == TokenCount(view.pages) && par.rootD > 0.0
    ensures delta == Corrected(par, en.cfg, row, v, KSlab(en.cfg, view), VSlab(en.cfg, view),
                               ReadSet(en, par, view, row, v, KSlot), ReadSet(en, par, view, row, v, VSlot))
  {
    hide Routed, Entries, ViewOk, KBlock, VBlock, VSoFar, KSoFar, ResidualSoFar, ShiftSoFar, ExactRow, CorrectedAt;
    ghost var kslab, vslab := KSlab(en.cfg, view), VSlab(en.cfg, view);
    RoutedRefs(en, v, row, view.pages, par.wanted, par.normalize);
    var k, w := Route(en, v, row, view.pages, par.wanted, par.normalize);
    var offsets := PageTokenOffsets(view.pages);
    var deltaV, marked, rv := ApplyV(en.cfg, view, row.a, w, offsets);
    var deltaK, ds := ApplyK(en.cfg, view, row, v, k, offsets);
    ghost var sk, sv := Chosen(kslab.es, k), Chosen(vslab.es, w);
    AnyChosen(k, kslab.es);
    if par.exact && |k| > 0 {
      var residual := seq(|rv|, t requires 0 <= t < |rv| => if marked[t] then rv[t] else []);
      var scaled := seq(|ds|, t requires 0 <= t < |ds| => ds[t] / par.rootD);
      delta := ExactRow(par.exp, row.a, scaled, v, row.o, residual, en.cfg.headDim);
      ExactCombined(par, en.cfg, row, v, kslab, vslab, sk, sv, marked, rv, ds, delta);
    } else {
      delta := seq(en.cfg.headDim, d requires 0 <= d < en.cfg.headDim => deltaV[d] + Prod(par.scale, deltaK[d]));
      LinearCombined(par, en.cfg, row, v, kslab, vslab, sk, sv, deltaV, deltaK, delta);
    }
  }

  lemma AnyChosen(refs: seq<SlotRef>, es: seq<Entry>)
    requires RefsInto(refs, es)
    ensures Chosen(es, refs) != {} <==> refs != []
  {
    if refs != [] {
      assert Names(refs[0], es);
      var i :| 0 <= i < |es| && RefOf(es[i]) == refs[0];
      assert i in Chosen(es, refs);
    }
  }

  lemma ExactCombined(par: Params, cfg: CacheConfig, row: Query, v: seq<Vec>, kslab: Slab, vslab: Slab,
                      sk: set<nat>, sv: set<nat>, marked: seq<bool>, rv: seq<Vec>, ds: Vec, delta: Vec)
    requires par.rootD > 0.0 && par.exact && sk != {} && |ds| == |row.a| == |marked| == |rv|
    requires ResidualSoFar(vslab, sv, marked, rv, cfg.headDim)
    requires ShiftSoFar(cfg.kChannelGroup, kslab, sk, row.q, ds)
    requires delta == ExactRow(par.exp, row.a, seq(|ds|, t requires 0 <= t < |ds| => ds[t] / par.rootD), v, row.o,
                               seq(|rv|, t requires 0 <= t < |rv| => if marked[t] then rv[t] else []), cfg.headDim)
    ensures delta == Corrected(par, cfg, row, v, kslab, vslab, sk, sv)
  {
    hide Rho, Shift, ExactDelta;
    var scaled: Vec := seq(|ds|, t requires 0 <= t < |ds| => ds[t] / par.rootD);
    var residual: seq<Vec> := seq(|rv|, t requires 0 <= t < |rv| => if marked[t] then rv[t] else []);
    assert scaled == Shifts(cfg.kChannelGroup, row, kslab, sk, par.rootD);
    forall d | 0 <= d < cfg.headDim
      ensures delta[d] == CorrectedAt(par, cfg.kChannelGroup, row, v, kslab, vslab, sk, sv, d)
    {
      ExactRowIsDelta(par.exp, row.a, scaled, v, row.o, residual, cfg.headDim, vslab, sv, d);
    }
  }

  lemma LinearCombined(par: Params, cfg: CacheConfig, row: Query, v: seq<Vec>, kslab: Slab, vslab: Slab,
                       sk: set<nat>, sv: set<nat>, deltaV: Vec, deltaK: Vec, delta: Vec)
    requires par.rootD > 0.0 && !(par.exact && sk != {}) && |deltaV| == |deltaK| == cfg.headDim
    requires VSoFar(row.a, vslab, sv, deltaV) && KSoFar(cfg.kChannelGroup, row, v, kslab, sk, deltaK)
    requires delta == seq(cfg.headDim, d requires 0 <= d < cfg.headDim => deltaV[d] + Prod(par.scale, deltaK[d]))
    ensures delta == Corrected(par, cfg, row, v, kslab, vslab, sk, sv)
  {
    hide Sum, VTerm, KTerm, Prod;
    forall d | 0 <= d < cfg.headDim
      ensures delta[d] == CorrectedAt(par, cfg.kChannelGroup, row, v, kslab, vslab, sk, sv, d)
    {
      assert deltaK[d] == Sum(0, |row.a|, KTerm(cfg.kChannelGroup, row, v, kslab, sk, d));
    }
  }
}
