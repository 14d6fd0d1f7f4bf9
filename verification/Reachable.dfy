/** Correction over the caches that runs actually produce. */
module Reachable {

  import opened Numbers
  import opened Sums
  import opened Config
  import opened Quantizer
  import opened ResidualPack
  import opened Selection
  import opened Pages
  import opened BaseRows
  import opened SlotArena
  import opened CacheState
  import opened PageTables
  import opened Router
  import opened StorePlan
  import opened LayerSteps
  import opened Sessions
  import opened Correction
  import opened SlotLoop
  import opened Batched
  import opened Vectorized
  import opened Agreement
  import opened Cache

  /** What correction reads of one head in a state that a run has reached. */
  ghost function ReachedView(m: Manager, st: State, kv: seq<seq<Token>>, n: nat, h: nat): (view: HeadView)
    requires Holds(m, st, kv, n) && h < m.en.cfg.numKvHeads
    ensures ViewOk(m.en.cfg, view) && MetaShaped(view.pages) && PagesInOrder(view.pages) && TokenCount(view.pages) == n
  {
    ReachableView(m, st, kv, n, h);
    View(st, m.en.layer, h)
  }

  /** Batched equals looped, on every cache a run reaches: no hypothesis on the pages is left. */
  lemma BatchedEqualsLoopedInRuns(m: Manager, st: State, kv: seq<seq<Token>>, n: nat, h: nat,
                                  par: Params, topk: TopK, row: Query, v: seq<Vec>)
    requires Holds(m, st, kv, n) && h < m.en.cfg.numKvHeads && |row.a| == n && par.rootD > 0.0 && Chooses(topk)
    requires Alike(m.en, par, topk, ReachedView(m, st, kv, n, h), row, v)
    ensures var view, cfg := ReachedView(m, st, kv, n, h), m.en.cfg;
      BatchedDelta(m.en, par, topk, view, row, v)
        == Corrected(par, cfg, row, v, KSlab(cfg, view), VSlab(cfg, view),
                     ReadSet(m.en, par, view, row, v, KSlot), ReadSet(m.en, par, view, row, v, VSlot))
  {
    hide Holds, Alike, Chooses, BatchedDelta, ReadSet, Corrected, ViewOk, KSlab, VSlab, PagesInOrder;
    HoldsParts(m, st, kv, n);
    BatchedEqualsLooped(m.en, par, topk, ReachedView(m, st, kv, n, h), row, v);
  }

  // ---- reading a run back ----

  lemma RowReadsBack(cfg: CacheConfig, t: Token, kc: seq<int>, ks: Vec, vc: seq<int>, vs: Vec)
    requires cfg.Valid() && TokenOk(cfg, t) && Decodes(cfg, EncodeRow(cfg, t), kc, ks, vc, vs)
    ensures kc == Codes(t.k, BaseQuant(cfg)) && ks == Scales(t.k, BaseQuant(cfg))
    ensures vc == Codes(t.v, BaseQuant(cfg)) && vs == Scales(t.v, BaseQuant(cfg))
    ensures Dequantize(kc, ks, cfg.groupSize) == Hat(cfg, t.k) && Dequantize(vc, vs, cfg.groupSize) == Hat(cfg, t.v)
  {
    hide Codes, Scales, EncodeCodes, DecodeCodes, Dequantize, RowOk;
    CodesRoundTrip(cfg, t.k);
    CodesRoundTrip(cfg, t.v);
  }

  /** The codes and scales of a list of tokens. */
  ghost predicate CodesOf(cfg: CacheConfig, ts: seq<Token>, kCodes: seq<seq<int>>, kScale: seq<Vec>,
                          vCodes: seq<seq<int>>, vScale: seq<Vec>)
    requires cfg.Valid() && TokensOk(cfg, ts)
  {
    && |kCodes| == |kScale| == |vCodes| == |vScale| == |ts|
    && forall i :: 0 <= i < |ts| ==>
      && kCodes[i] == Codes(ts[i].k, BaseQuant(cfg)) && kScale[i] == Scales(ts[i].k, BaseQuant(cfg))
      && vCodes[i] == Codes(ts[i].v, BaseQuant(cfg)) && vScale[i] == Scales(ts[i].v, BaseQuant(cfg))
  }

  lemma AllReadBack(cfg: CacheConfig, ts: seq<Token>, kCodes: seq<seq<int>>, kScale: seq<Vec>,
                    vCodes: seq<seq<int>>, vScale: seq<Vec>)
    requires cfg.Valid() && TokensOk(cfg, ts) && DecodesAll(cfg, EncodeAll(cfg, ts), kCodes, kScale, vCodes, vScale)
    ensures CodesOf(cfg, ts, kCodes, kScale, vCodes, vScale)
  {
    hide Codes, Scales, Decodes, Dequantize, EncodeRow, Hat;
    forall i | 0 <= i < |ts|
      ensures kCodes[i] == Codes(ts[i].k, BaseQuant(cfg)) && kScale[i] == Scales(ts[i].k, BaseQuant(cfg))
           && vCodes[i] == Codes(ts[i].v, BaseQuant(cfg)) && vScale[i] == Scales(ts[i].v, BaseQuant(cfg))
    {
      RowReadsBack(cfg, ts[i], kCodes[i], kScale[i], vCodes[i], vScale[i]);
    }
  }

  /** Reading all pages of a head after a run returns the codes and scales of exactly the run's tokens, in
    * order, packed or not: no padded row leaks and none is missing. */
  method ReadRun(m: Manager, cache: KVCache, ghost kv: seq<seq<Token>>, ghost n: nat, h: nat)
    returns (kCodes: seq<seq<int>>, kScale: seq<Vec>, vCodes: seq<seq<int>>, vScale: seq<Vec>)
    requires cache.Valid() && cache.cfg == m.en.cfg && Holds(m, cache.st, kv, n) && h < m.en.cfg.numKvHeads
    ensures h < |kv| && |kv[h]| == n && TokensOk(m.en.cfg, kv[h])
    ensures CodesOf(m.en.cfg, kv[h], kCodes, kScale, vCodes, vScale)
  {
    hide Inv, KVCache.Valid, DecodesAll, EncodeAll, CodesOf, PageTable, TokensOk, PageOk;
    var cfg, l := m.en.cfg, m.en.layer;
    HoldsPrompt(m, cache.st, kv, n);
    HeldAt(m, cache.st, kv, n, h);
    OneHead(cfg, cache.st, l, h);
    ghost var hd := cache.st.heads[l][h];
    HeadFilled(cfg, hd);
    var count := cache.NumPages(l, h);
    var ids := seq(count, i requires 0 <= i < count => i);
    var lens;
    kCodes, kScale, vCodes, vScale, lens := cache.ReadBaseConcat(l, h, ids);
    GatherAll(hd.pages, count, ids);
    AllReadBack(cfg, kv[h], kCodes, kScale, vCodes, vScale);
  }

  /** The dequantized value rows of a head's tokens. */
  ghost function HeadValues(m: Manager, st: State, kv: seq<seq<Token>>, n: nat, h: nat): (v: seq<Vec>)
    requires Holds(m, st, kv, n) && h < m.en.cfg.numKvHeads
    ensures h < |kv| && TokensOk(m.en.cfg, kv[h]) && |kv[h]| == n == |v|
    ensures forall i :: 0 <= i < n ==> v[i] == Hat(m.en.cfg, kv[h][i].v)
  {
    HoldsPrompt(m, st, kv, n);
    HeldAt(m, st, kv, n, h);
    seq(n, i requires 0 <= i < n => Hat(m.en.cfg, kv[h][i].v))
  }

  /** Read all pages of a head and dequantize the values. */
  method ReadValues(m: Manager, cache: KVCache, ghost kv: seq<seq<Token>>, ghost n: nat, h: nat) returns (v: seq<Vec>)
    requires cache.Valid() && cache.cfg == m.en.cfg && Holds(m, cache.st, kv, n) && h < m.en.cfg.numKvHeads
    ensures v == HeadValues(m, cache.st, kv, n, h)
  {
    hide Inv, KVCache.Valid, Holds, TokensOk, Codes, Scales, Dequantize;
    HoldsParts(m, cache.st, kv, n);
    var kCodes, kScale, vCodes, vScale := ReadRun(m, cache, kv, n, h);
    ghost var ts := kv[h];
    forall i | 0 <= i < |vCodes| ensures
      && |vCodes[i]| == m.en.cfg.headDim && |vScale[i]| == m.en.cfg.headDim / m.en.cfg.groupSize
      && Dequantize(vCodes[i], vScale[i], m.en.cfg.groupSize) == Hat(m.en.cfg, ts[i].v)
    {
      ValueShape(m.en.cfg, ts, i);
    }
    v := seq(|vCodes|, i requires 0 <= i < |vCodes| => Dequantize(vCodes[i], vScale[i], m.en.cfg.groupSize));
  }

  lemma ValueShape(cfg: CacheConfig, ts: seq<Token>, i: nat)
    requires cfg.Valid() && TokensOk(cfg, ts) && i < |ts|
    ensures |ts[i].v| == cfg.headDim && |Codes(ts[i].v, BaseQuant(cfg))| == cfg.headDim
    ensures |Scales(ts[i].v, BaseQuant(cfg))| == cfg.headDim / cfg.groupSize
    ensures Dequantize(Codes(ts[i].v, BaseQuant(cfg)), Scales(ts[i].v, BaseQuant(cfg)), cfg.groupSize)
         == Hat(cfg, ts[i].v)
  {
    hide Codes, Scales, Dequantize;
  }

  /** The stored-slot correction of one KV head of the cache object, over the head's own dequantized values: by
    * either implementation, with any chunking, every row gets the token-level correction of the slots the router
    * picks for it. */
  method CorrectStored(m: Manager, cache: KVCache, ghost kv: seq<seq<Token>>, ghost n: nat, h: nat, par: Params,
                       topk: TopK, impl: Impl, rows: seq<Query>)
    returns (out: seq<Vec>)
    requires cache.Valid() && cache.cfg == m.en.cfg && Holds(m, cache.st, kv, n) && h < m.en.cfg.numKvHeads
    requires var view, v := ReachedView(m, cache.st, kv, n, h), HeadValues(m, cache.st, kv, n, h);
      && Chooses(topk) && RowsOk(par, m.en.cfg, view.pages, rows, v)
      && (impl.Batch? ==> forall r :: 0 <= r < |rows| ==> Alike(m.en, par, topk, view, rows[r], v))
    ensures |out| == |rows|
    ensures var view, v, cfg := ReachedView(m, cache.st, kv, n, h), HeadValues(m, cache.st, kv, n, h), m.en.cfg;
      forall r :: 0 <= r < |rows| ==>
        out[r] == Corrected(par, cfg, rows[r], v, KSlab(cfg, view), VSlab(cfg, view),
                            ReadSet(m.en, par, view, rows[r], v, KSlot), ReadSet(m.en, par, view, rows[r], v, VSlot))
  {
    hide KVCache.Valid, Alike, Chooses, ReadSet, Corrected, ViewOk, KSlab, VSlab, PagesInOrder, RowsOk, HeadValues;
    HoldsParts(m, cache.st, kv, n);
    HeldAt(m, cache.st, kv, n, h);
    OneHead(m.en.cfg, cache.st, m.en.layer, h);
    var v := ReadValues(m, cache, kv, n, h);
    var view := cache.ReadView(m.en.layer, h);
    out := CorrectHead(m.en, par, topk, impl, view, rows, v);
  }

  /** Read and unpack a slot that some metadata refers to: every entry is within half a slot step of the block
    * written when that metadata was made, and zeros are zeros. */
  method ReadBlock(cache: KVCache, kind: Kind, ghost at: Position, slot: nat) returns (rows: seq<Vec>)
    requires cache.Valid() && Inv(cache.cfg, cache.st) && RefersTo(cache.st, kind, at, slot)
    ensures BlockOk(cache.cfg, kind, rows)
    ensures slot in ArenaOf(cache.st, kind).claims
    ensures BlockOk(cache.cfg, kind, ArenaOf(cache.st, kind).claims[slot].rows)
    ensures var written := ArenaOf(cache.st, kind).claims[slot];
      && written.at == at
      && forall i, c :: 0 <= i < BlockRows(cache.cfg, kind) && 0 <= c < BlockWidth(cache.cfg, kind) ==>
           && Within(written.rows[i][c], rows[i][c], HalfStep(cache.cfg, kind, written.rows))
           && (written.rows[i][c] == 0.0 ==> rows[i][c] == 0.0)
  {
    hide Inv, KVCache.Valid, KVCache.Shaped, RefersTo, ReadBack, PackedRows, HalfStep, ZeroFrom;
    ReferredIsTaken(cache.cfg, cache.st, kind, at, slot);
    Referred(cache.cfg, cache.st, kind, at, slot);
    var packed: Packed;
    if kind == KSlot { packed := cache.ReadKResidual(slot); } else { packed := cache.ReadVResidual(slot); }
    rows := ReadBack(cache.cfg, kind, packed);
    ghost var written := ArenaOf(cache.st, kind).claims[slot].rows;
    forall i, c | 0 <= i < BlockRows(cache.cfg, kind) && 0 <= c < BlockWidth(cache.cfg, kind)
      ensures Within(written[i][c], rows[i][c], HalfStep(cache.cfg, kind, written))
           && (written[i][c] == 0.0 ==> rows[i][c] == 0.0)
    {
      ReadBackEntry(cache.cfg, kind, written, i, c);
    }
  }

  // ---- appended tokens ----

  /** Only one page holds token `t`. */
  lemma OnePage(pages: seq<PageState>, p: nat, q: nat, t: int)
    requires p < |pages| && q < |pages|
    requires Cursor(pages, p, false) <= t < Cursor(pages, p + 1, false)
    requires Cursor(pages, q, false) <= t < Cursor(pages, q + 1, false)
    ensures p == q
  {
    if p < q { CursorMonotone(pages, p + 1, q, false); }
    if q < p { CursorMonotone(pages, q + 1, p, false); }
  }

  /** Token `t` lies on page `p`, beyond the tokens the page had when it was last processed. */
  predicate AppendedSince(pages: seq<PageState>, p: nat, t: int)
  {
    && p < |pages| && pages[p].meta.Some?
    && Cursor(pages, p, false) + pages[p].meta.value.numTokens <= t < Cursor(pages, p + 1, false)
  }

  /** A stored slot covering such a token belongs to that page, and its row there is zero. */
  lemma StaleRow(m: Manager, st: State, kv: seq<seq<Token>>, n: nat, h: nat, kind: Kind, p: nat, t: int, i: nat, c: nat)
    requires Holds(m, st, kv, n) && h < m.en.cfg.numKvHeads
    requires var pages := ReachedView(m, st, kv, n, h).pages;
      AppendedSince(pages, p, t) && i < |Stored(m.en.cfg, kind, pages)| && Covers(Stored(m.en.cfg, kind, pages)[i], t)
    requires c < BlockWidth(m.en.cfg, kind)
    ensures var view := ReachedView(m, st, kv, n, h);
      var e := Stored(m.en.cfg, kind, view.pages)[i];
      At2(SlotBlock(m.en.cfg, view, kind, e.slot), t - e.start, c) == 0.0
  {
    hide Inv, Log, UnpackBlock, Stored, ViewOk;
    var cfg, l, view := m.en.cfg, m.en.layer, ReachedView(m, st, kv, n, h);
    var e := Stored(cfg, kind, view.pages)[i];
    ReachableView(m, st, kv, n, h);
    PageFits(cfg, view, p);
    Source(cfg, kind, view.pages, i);
    OnePage(view.pages, p, e.page, t);
    var at := Position(l, h, p, e.group);
    assert view.pages[p] == st.heads[l][h].pages[p];
    assert RefersTo(st, kind, at, e.slot);
    AppendedTokensUntouched(cfg, st, kind, at, e.slot, t - e.start, c);
  }

  lemma PageFits(cfg: CacheConfig, view: HeadView, p: nat)
    requires ViewOk(cfg, view) && p < |view.pages|
    ensures view.pages[p].valid <= cfg.pageSize
  {
  }

  /** Where a stored slot comes from, and that its tokens are its page's. */
  lemma Source(cfg: CacheConfig, kind: Kind, pages: seq<PageState>, i: nat)
    requires MetaShaped(pages) && i < |Stored(cfg, kind, pages)|
    ensures var e := Stored(cfg, kind, pages)[i];
      && e.page < |pages| && Active(pages[e.page]) && e.slot >= 0
      && e.group < |Slots(pages[e.page].meta.value, kind)| && e.slot == Slots(pages[e.page].meta.value, kind)[e.group]
      && e.start == Cursor(pages, e.page, false) + BlockStart(cfg, kind, e.group)
      && e.start + e.len <= Cursor(pages, e.page + 1, false)
      && e.len <= if kind == KSlot then pages[e.page].valid else cfg.vTokenBlock
  {
    EntrySource(cfg, kind, pages, |pages|, i);
  }

  /** Appended tokens are untouched by stale slots: whatever slots a query reads, a token added since its
    * page was processed gets no value residual and no logit shift, until the page is processed again. */
  lemma AppendedTokensUncorrected(m: Manager, st: State, kv: seq<seq<Token>>, n: nat, h: nat, p: nat, t: int,
                                  sel: set<nat>, q: Vec, d: nat)
    requires Holds(m, st, kv, n) && h < m.en.cfg.numKvHeads && d < m.en.cfg.headDim
    requires AppendedSince(ReachedView(m, st, kv, n, h).pages, p, t)
    ensures var view, cfg := ReachedView(m, st, kv, n, h), m.en.cfg;
      Rho(VSlab(cfg, view), sel, t, d) == 0.0 && Shift(cfg.kChannelGroup, KSlab(cfg, view), sel, q, t) == 0.0
  {
    hide Holds, ReachedView, SlotBlock, Entries, ViewOk, AppendedSince;
    var view, cfg := ReachedView(m, st, kv, n, h), m.en.cfg;
    var vslab, kslab := VSlab(cfg, view), KSlab(cfg, view);
    forall i | 0 <= i < |vslab.es| ensures VPart(vslab, sel, t, d)(i) == 0.0 {
      if Covers(vslab.es[i], t) { StaleRow(m, st, kv, n, h, VSlot, p, t, i, d); }
    }
    SumZero(0, |vslab.es|, VPart(vslab, sel, t, d));
    var w := cfg.kChannelGroup;
    forall i | 0 <= i < |kslab.es| ensures KPart(w, kslab, sel, q, t)(i) == 0.0 {
      if Covers(kslab.es[i], t) {
        var e, block := kslab.es[i], Block(kslab, i);
        forall c | 0 <= c < w ensures Channel(w, e, block, q, t)(c) == 0.0 {
          StaleRow(m, st, kv, n, h, KSlot, p, t, i, c);
          ProdZero(At(q, e.group * w + c));
        }
        SumZero(0, w, Channel(w, e, block, q, t));
      }
    }
    SumZero(0, |kslab.es|, KPart(w, kslab, sel, q, t));
  }
}
