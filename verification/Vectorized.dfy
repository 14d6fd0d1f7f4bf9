/** The batched correction as it runs: score columns and logit shifts filled slot by slot, rows
  * combined, and the optional split of the queries into chunks. */
module Vectorized {

  import opened Numbers
  import opened Sums
  import opened Config
  import opened Selection
  import opened Pages
  import opened Router
  import opened ExactSoftmax
  import opened Correction
  import opened SlotLoop
  import opened Batched

  /** One column of `score_K` per stored slot. */
  method ScoreColumns(en: Engine, v: seq<Vec>, rows: seq<Query>, es: seq<Entry>) returns (scores: seq<Vec>)
    requires en.Valid()
    ensures |scores| == |rows| && forall r :: 0 <= r < |rows| ==> scores[r] == KScores(en, v, rows[r], es)
  {
    hide BatchedKScore;
    var buf := new real[|rows|, |es|];
    var si := 0;
    while si < |es|
      invariant 0 <= si <= |es|
      invariant forall r, i :: 0 <= r < |rows| && 0 <= i < si ==> buf[r, i] == BatchedKScore(en, v, rows[r], es[i])
    {
      forall r | 0 <= r < |rows| { buf[r, si] := BatchedKScore(en, v, rows[r], es[si]); }
      si := si + 1;
    }
    scores := seq(|rows|, r requires 0 <= r < |rows| reads buf =>
                seq(|es|, i requires 0 <= i < |es| reads buf => buf[r, i]));
  }

  /** The summed q·R_K of every row's selected slots, added page by page. */
  method BuildShifts(w: nat, slab: Slab, rows: seq<Query>, sel: seq<set<nat>>, n: nat) returns (wk: seq<Vec>)
    requires |sel| == |rows| && |slab.blocks| == |slab.es|
    ensures |wk| == |rows|
    ensures forall r :: 0 <= r < |rows| ==> |wk[r]| == n && ShiftSoFar(w, slab, sel[r], rows[r].q, wk[r])
  {
    hide KDot;
    var buf := new real[|rows|, n]((_, _) => 0.0);
    var si := 0;
    while si < |slab.es|
      invariant 0 <= si <= |slab.es|
      invariant forall r, t :: 0 <= r < |rows| && 0 <= t < n ==>
        buf[r, t] == Sum(0, si, KPart(w, slab, sel[r], rows[r].q, t))
    {
      var e, block := slab.es[si], slab.blocks[si];
      forall r, t | 0 <= r < |rows| && 0 <= t < n && Covers(e, t) {
        buf[r, t] := buf[r, t] + if si in sel[r] then KDot(w, e, block, rows[r].q, t) else 0.0;
      }
      si := si + 1;
    }
    wk := seq(|rows|, r requires 0 <= r < |rows| reads buf =>
            seq(n, t requires 0 <= t < n reads buf => buf[r, t]));
  }

  /** Rows the batched path accepts: aligned with the page table and, in exact mode, base attention. */
  ghost predicate RowsOk(par: Params, cfg: CacheConfig, pages: seq<PageState>, rows: seq<Query>, v: seq<Vec>)
  {
    && par.rootD > 0.0
    && (forall r :: 0 <= r < |rows| ==> |rows[r].a| == TokenCount(pages))
    && (par.exact ==> Exponential(par.exp) && forall r :: 0 <= r < |rows| ==> BaseAttention(rows[r], v, cfg.headDim))
  }

  /** What every batched run must return for one row. */
  ghost function BatchedDelta(en: Engine, par: Params, topk: TopK, view: HeadView, row: Query, v: seq<Vec>): Vec
    requires en.Valid() && ViewOk(en.cfg, view) && par.rootD > 0.0
  {
    var p := BatchedPicks(en, par, topk, KSlab(en.cfg, view).es, VSlab(en.cfg, view).es, row, v);
    Corrected(par, en.cfg, row, v, KSlab(en.cfg, view), VSlab(en.cfg, view), p.0, p.1)
  }

  // ---- what a batch computes ----

  ghost function RowReads(en: Engine, par: Params, topk: TopK, view: HeadView, row: Query, v: seq<Vec>)
    : (set<nat>, set<nat>)
    requires en.Valid() && ViewOk(en.cfg, view)
  {
    BatchedPicks(en, par, topk, KSlab(en.cfg, view).es, VSlab(en.cfg, view).es, row, v)
  }

  ghost predicate AnyK(en: Engine, par: Params, topk: TopK, view: HeadView, rows: seq<Query>, v: seq<Vec>)
    requires en.Valid() && ViewOk(en.cfg, view)
  {
    exists r :: 0 <= r < |rows| && RowReads(en, par, topk, view, rows[r], v).0 != {}
  }

  ghost predicate AnyV(en: Engine, par: Params, topk: TopK, view: HeadView, rows: seq<Query>, v: seq<Vec>)
    requires en.Valid() && ViewOk(en.cfg, view)
  {
    exists r :: 0 <= r < |rows| && RowReads(en, par, topk, view, rows[r], v).1 != {}
  }

  /** The summed q·R_K of one row's selected slots. */
  function ShiftRow(w: nat, slab: Slab, sel: set<nat>, q: Vec, n: nat): (wk: Vec)
    ensures |wk| == n && ShiftSoFar(w, slab, sel, q, wk)
  {
    seq(n, t requires 0 <= t < n => Shift(w, slab, sel, q, t))
  }

  /** One row of a batch: it depends on the other rows through `anyK` and `anyV` only. */
  ghost function BatchRow(en: Engine, par: Params, topk: TopK, view: HeadView, row: Query, v: seq<Vec>,
                          anyK: bool, anyV: bool): (delta: Vec)
    requires en.Valid() && ViewOk(en.cfg, view) && par.rootD > 0.0
    ensures |delta| == en.cfg.headDim
  {
    var n, p := TokenCount(view.pages), RowReads(en, par, topk, view, row, v);
    CombineRow(par, en.cfg.headDim, row, v, ShiftRow(en.cfg.kChannelGroup, KSlab(en.cfg, view), p.0, row.q, n),
               Gathered(VSlab(en.cfg, view), p.1, n), anyK, anyV)
  }

  ghost function BatchRows(en: Engine, par: Params, topk: TopK, view: HeadView, rows: seq<Query>, v: seq<Vec>)
    : (out: seq<Vec>)
    requires en.Valid() && ViewOk(en.cfg, view) && par.rootD > 0.0
    ensures |out| == |rows| && forall r :: 0 <= r < |rows| ==> |out[r]| == en.cfg.headDim
  {
    seq(|rows|, r requires 0 <= r < |rows| =>
      BatchRow(en, par, topk, view, rows[r], v, AnyK(en, par, topk, view, rows, v), AnyV(en, par, topk, view, rows, v)))
  }

  /** Chunk after chunk of the queries, each a batch of its own. */
  ghost function ChunkedRows(en: Engine, par: Params, topk: TopK, view: HeadView, rows: seq<Query>, v: seq<Vec>,
                             chunk: int): (out: seq<Vec>)
    requires en.Valid() && ViewOk(en.cfg, view) && par.rootD > 0.0
    ensures |out| == |rows| && forall r :: 0 <= r < |rows| ==> |out[r]| == en.cfg.headDim
  {
    if chunk <= 0 || |rows| <= chunk then BatchRows(en, par, topk, view, rows, v)
    else BatchRows(en, par, topk, view, rows[..chunk], v) + ChunkedRows(en, par, topk, view, rows[chunk..], v, chunk)
  }

  lemma NoReads(par: Params, dim: nat, row: Query, v: seq<Vec>, wk: Vec, residual: seq<Vec>)
    requires par.rootD > 0.0
    ensures CombineRow(par, dim, row, v, wk, residual, false, false) == Zeros(dim)
  {
  }

  /** Build the indices, resolve the budgets, score, select, apply and combine every row. */
  method CorrectBatch(en: Engine, par: Params, topk: TopK, view: HeadView, rows: seq<Query>, v: seq<Vec>)
    returns (out: seq<Vec>)
    requires en.Valid() && ViewOk(en.cfg, view) && MetaShaped(view.pages) && PagesInOrder(view.pages)
    requires par.rootD > 0.0
    ensures out == BatchRows(en, par, topk, view, rows, v)
  {
    hide ViewOk, RowPicks, ReadBudgets, CombineRow, Gathered, SlotBlock, Entries, ShiftSoFar, KScores, VScores, Shift;
    var n := TokenCount(view.pages);
    var vslab := BuildVSlotIndex(en.cfg, view);
    var kslab := BuildKSlotIndex(en.cfg, view);
    WalksAgree(en.cfg, VSlot, view.pages);
    assert vslab == VSlab(en.cfg, view) && kslab == KSlab(en.cfg, view);
    var b := ReadBudgets(en, par.wanted, |kslab.es|, |vslab.es|);
    if b.0 == 0 && b.1 == 0 {
      out := seq(|rows|, _ => Zeros(en.cfg.headDim));
      forall r | 0 <= r < |rows| ensures out[r] == BatchRows(en, par, topk, view, rows, v)[r] {
        NoReads(par, en.cfg.headDim, rows[r], v, ShiftRow(en.cfg.kChannelGroup, kslab, {}, rows[r].q, n),
                Gathered(vslab, {}, n));
      }
      return;
    }
    var scores := ScoreColumns(en, v, rows, kslab.es);
    var picks := seq(|rows|, r requires 0 <= r < |rows| =>
      RowPicks(en.cfg, topk, par.wanted, par.normalize, scores[r], VScores(en, rows[r], vslab.es), b.0, b.1));
    var sk := seq(|rows|, r requires 0 <= r < |rows| => picks[r].0);
    var anyK := exists r :: 0 <= r < |rows| && sk[r] != {};
    var anyV := exists r :: 0 <= r < |rows| && picks[r].1 != {};
    var wk := BuildShifts(en.cfg.kChannelGroup, kslab, rows, sk, n);
    out := seq(|rows|, r requires 0 <= r < |rows| =>
      CombineRow(par, en.cfg.headDim, rows[r], v, wk[r], Gathered(vslab, picks[r].1, n), anyK, anyV));
    forall r | 0 <= r < |rows| ensures picks[r] == RowReads(en, par, topk, view, rows[r], v) {}
    assert anyK == AnyK(en, par, topk, view, rows, v) && anyV == AnyV(en, par, topk, view, rows, v);
    forall r | 0 <= r < |rows| ensures out[r] == BatchRows(en, par, topk, view, rows, v)[r] {
      SameShiftRow(en.cfg.kChannelGroup, kslab, sk[r], rows[r].q, wk[r]);
    }
  }

  lemma SameShiftRow(w: nat, slab: Slab, sel: set<nat>, q: Vec, wk: Vec)
    requires ShiftSoFar(w, slab, sel, q, wk)
    ensures wk == ShiftRow(w, slab, sel, q, |wk|)
  {
    hide Shift;
  }

  /** All queries at once, or chunk by chunk. */
  method VectorizedJointCorrection(en: Engine, par: Params, topk: TopK, view: HeadView, rows: seq<Query>,
                                   v: seq<Vec>, chunk: int) returns (out: seq<Vec>)
    requires en.Valid() && ViewOk(en.cfg, view) && MetaShaped(view.pages) && PagesInOrder(view.pages)
    requires par.rootD > 0.0
    ensures out == ChunkedRows(en, par, topk, view, rows, v, chunk)
  {
    hide ViewOk, BatchRows;
    if chunk <= 0 || |rows| <= chunk {
      out := CorrectBatch(en, par, topk, view, rows, v);
      return;
    }
    out := [];
    var c0 := 0;
    assert rows[0..] == rows;
    while c0 < |rows|
      invariant 0 <= c0 <= |rows|
      invariant out + ChunkedRows(en, par, topk, view, rows[c0..], v, chunk)
             == ChunkedRows(en, par, topk, view, rows, v, chunk)
      decreases |rows| - c0
    {
      var c1 := Min(c0 + chunk, |rows|);
      var part := CorrectBatch(en, par, topk, view, rows[c0..c1], v);
      NextChunk(en, par, topk, view, rows, v, chunk, c0, c1);
      assert out + (part + ChunkedRows(en, par, topk, view, rows[c1..], v, chunk))
          == (out + part) + ChunkedRows(en, par, topk, view, rows[c1..], v, chunk);
      out := out + part;
      c0 := c1;
    }
    assert out + [] == out;
  }

  lemma NextChunk(en: Engine, par: Params, topk: TopK, view: HeadView, rows: seq<Query>, v: seq<Vec>, chunk: int,
                  c0: nat, c1: nat)
    requires en.Valid() && ViewOk(en.cfg, view) && par.rootD > 0.0 && chunk > 0
    requires c0 < |rows| && c1 == Min(c0 + chunk, |rows|)
    ensures ChunkedRows(en, par, topk, view, rows[c0..], v, chunk)
         == BatchRows(en, par, topk, view, rows[c0..c1], v) + ChunkedRows(en, par, topk, view, rows[c1..], v, chunk)
  {
    hide ViewOk, BatchRows;
    var rest := rows[c0..];
    if |rest| <= chunk {
      assert rows[c0..c1] == rest && rows[c1..] == [];
      assert ChunkedRows(en, par, topk, view, [], v, chunk) == [];
    } else {
      assert rest[..chunk] == rows[c0..c1] && rest[chunk..] == rows[c1..];
    }
  }

  // ---- chunking ----

  lemma BatchRowsCorrect(en: Engine, par: Params, topk: TopK, view: HeadView, rows: seq<Query>, v: seq<Vec>, r: nat)
    requires en.Valid() && ViewOk(en.cfg, view) && MetaShaped(view.pages) && PagesInOrder(view.pages)
    requires RowsOk(par, en.cfg, view.pages, rows, v) && r < |rows|
    ensures BatchRows(en, par, topk, view, rows, v)[r] == BatchedDelta(en, par, topk, view, rows[r], v)
  {
    hide ViewOk, BatchedPicks, CombineRow, Gathered, SlotBlock, Entries, Corrected, BaseAttention, Exponential,
      ShiftSoFar, WellPlaced;
    StoredDistinct(en.cfg, VSlot, view.pages);
    var p := RowReads(en, par, topk, view, rows[r], v);
    CombinedRow(par, en.cfg, rows[r], v, KSlab(en.cfg, view), VSlab(en.cfg, view), p.0, p.1,
                ShiftRow(en.cfg.kChannelGroup, KSlab(en.cfg, view), p.0, rows[r].q, TokenCount(view.pages)),
                AnyK(en, par, topk, view, rows, v), AnyV(en, par, topk, view, rows, v));
  }

  lemma RowsOkPart(par: Params, cfg: CacheConfig, pages: seq<PageState>, rows: seq<Query>, v: seq<Vec>, i: nat, j: nat)
    requires RowsOk(par, cfg, pages, rows, v) && i <= j <= |rows|
    ensures RowsOk(par, cfg, pages, rows[i..j], v)
  {
    hide Exponential, BaseAttention;
  }

  /** Chunking is invisible: for every chunk size and every number of queries the assembled result is, row for
    * row, that of one batch; in exact mode, for rows of base attention. */
  lemma {:induction false} ChunkingInvisible(en: Engine, par: Params, topk: TopK, view: HeadView, rows: seq<Query>,
                                             v: seq<Vec>, chunk: int)
    requires en.Valid() && ViewOk(en.cfg, view) && MetaShaped(view.pages) && PagesInOrder(view.pages)
    requires RowsOk(par, en.cfg, view.pages, rows, v)
    ensures forall r :: 0 <= r < |rows| ==>
      ChunkedRows(en, par, topk, view, rows, v, chunk)[r] == BatchedDelta(en, par, topk, view, rows[r], v)
    decreases |rows|
  {
    hide ViewOk, BatchRows, BatchedDelta, RowsOk;
    RowsOkRoot(par, en.cfg, view.pages, rows, v);
    if chunk <= 0 || |rows| <= chunk {
      forall r | 0 <= r < |rows|
        ensures BatchRows(en, par, topk, view, rows, v)[r] == BatchedDelta(en, par, topk, view, rows[r], v)
      {
        BatchRowsCorrect(en, par, topk, view, rows, v, r);
      }
    } else {
      RowsOkPart(par, en.cfg, view.pages, rows, v, 0, chunk);
      RowsOkPart(par, en.cfg, view.pages, rows, v, chunk, |rows|);
      assert rows[0..chunk] == rows[..chunk] && rows[chunk..|rows|] == rows[chunk..];
      forall r | 0 <= r < chunk
        ensures BatchRows(en, par, topk, view, rows[..chunk], v)[r] == BatchedDelta(en, par, topk, view, rows[r], v)
      {
        BatchRowsCorrect(en, par, topk, view, rows[..chunk], v, r);
      }
      ChunkingInvisible(en, par, topk, view, rows[chunk..], v, chunk);
    }
  }

  lemma RowsOkRoot(par: Params, cfg: CacheConfig, pages: seq<PageState>, rows: seq<Query>, v: seq<Vec>)
    requires RowsOk(par, cfg, pages, rows, v)
    ensures par.rootD > 0.0
  {
  }

  lemma NoResidual(slab: Slab, n: nat, row: Query, d: int)
    ensures Sum(0, |row.a|, Times(Values(row.a), Column(Gathered(slab, {}, n), d))) == 0.0
  {
    var res := Gathered(slab, {}, n);
    forall t | 0 <= t < |row.a| ensures Times(Values(row.a), Column(res, d))(t) == 0.0 {
      assert Column(res, d)(t) == 0.0;
      ProdZero(At(row.a, t));
    }
    SumZero(0, |row.a|, Times(Values(row.a), Column(res, d)));
  }

  lemma UnshiftedExact(par: Params, row: Query, v: seq<Vec>, ds: Vec, residual: seq<Vec>, dim: nat, d: nat)
    requires Exponential(par.exp) && Weights(row.a) && |ds| == |row.a| && d < dim
    requires forall t :: 0 <= t < |ds| ==> ds[t] == 0.0
    ensures ExactRow(par.exp, row.a, ds, v, row.o, residual, dim)[d]
         == Sum(0, |row.a|, Times(Values(row.a), Column(v, d)))
          + Sum(0, |row.a|, Times(Values(row.a), Column(residual, d))) - At(row.o, d)
  {
    hide NewWeight, Exponential, Weights, Column;
    var w := NewWeight(par.exp, row.a, ds);
    forall t | 0 <= t < |row.a| ensures w(t) == Values(row.a)(t) { NoShiftKeepsWeights(par.exp, row.a, ds, t); }
    SumExt(0, |row.a|, Times(w, Column(v, d)), Times(Values(row.a), Column(v, d)));
    SumExt(0, |row.a|, Times(w, Column(residual, d)), Times(Values(row.a), Column(residual, d)));
  }

  lemma CombineEffect(par: Params, dim: nat, row: Query, v: seq<Vec>, wk: Vec, residual: seq<Vec>, anyV: bool,
                      anyV': bool, d: nat)
    requires par.rootD > 0.0 && par.exact && d < dim && Exponential(par.exp) && Weights(row.a) && |wk| == |row.a|
    requires forall t :: 0 <= t < |wk| ==> wk[t] == 0.0
    requires !anyV' ==> Sum(0, |row.a|, Times(Values(row.a), Column(residual, d))) == 0.0
    ensures CombineRow(par, dim, row, v, wk, residual, true, anyV)[d]
          - CombineRow(par, dim, row, v, wk, residual, false, anyV')[d]
         == Sum(0, |row.a|, Times(Values(row.a), Column(v, d))) - At(row.o, d)
  {
    hide Exponential, Weights, ExactRow, Column, Sum, LinearK;
    var ds := seq(|wk|, t requires 0 <= t < |wk| => wk[t] / par.rootD);
    UnshiftedExact(par, row, v, ds, residual, dim, d);
  }

  /** What a K read elsewhere in its batch does to a row that reads none, in exact mode. */
  lemma CompanionEffect(en: Engine, par: Params, topk: TopK, view: HeadView, row: Query, v: seq<Vec>, anyV: bool,
                        anyV': bool, d: nat)
    requires en.Valid() && ViewOk(en.cfg, view) && par.rootD > 0.0 && par.exact && d < en.cfg.headDim
    requires Exponential(par.exp) && Weights(row.a) && |row.a| == TokenCount(view.pages)
    requires var p := RowReads(en, par, topk, view, row, v); p.0 == {} && (p.1 != {} ==> anyV')
    ensures BatchRow(en, par, topk, view, row, v, true, anyV)[d]
          - BatchRow(en, par, topk, view, row, v, false, anyV')[d]
         == Sum(0, |row.a|, Times(Values(row.a), Column(v, d))) - At(row.o, d)
  {
    hide ViewOk, RowReads, Gathered, SlotBlock, Entries, Exponential, Weights, CombineRow, Shift, Column, Sum;
    var n, p := TokenCount(view.pages), RowReads(en, par, topk, view, row, v);
    var kslab, vslab := KSlab(en.cfg, view), VSlab(en.cfg, view);
    EmptySelection(par, en.cfg.kChannelGroup, row, v, kslab, vslab, 0);
    if !anyV' { NoResidual(vslab, n, row, d); }
    CombineEffect(par, en.cfg.headDim, row, v, ShiftRow(en.cfg.kChannelGroup, kslab, {}, row.q, n),
                  Gathered(vslab, p.1, n), anyV, anyV', d);
  }

  /** The queries computed together with query `r`. */
  function ChunkOf(rows: seq<Query>, chunk: int, r: nat): (part: seq<Query>)
    requires r < |rows|
  {
    if chunk <= 0 then rows
    else if r < chunk then rows[..Min(chunk, |rows|)]
    else ChunkOf(rows[chunk..], chunk, r - chunk)
  }

  /** A row depends on the rest of its chunk only through whether some row of it reads a slot of a kind. */
  lemma {:induction false} ChunkRow(en: Engine, par: Params, topk: TopK, view: HeadView, rows: seq<Query>, v: seq<Vec>,
                                    chunk: int, r: nat)
    requires en.Valid() && ViewOk(en.cfg, view) && par.rootD > 0.0 && r < |rows|
    ensures rows[r] in ChunkOf(rows, chunk, r) && forall row :: row in ChunkOf(rows, chunk, r) ==> row in rows
    ensures ChunkedRows(en, par, topk, view, rows, v, chunk)[r]
         == BatchRow(en, par, topk, view, rows[r], v, AnyK(en, par, topk, view, ChunkOf(rows, chunk, r), v),
                     AnyV(en, par, topk, view, ChunkOf(rows, chunk, r), v))
    decreases |rows|
  {
    hide ViewOk, BatchRow, AnyK, AnyV;
    if chunk <= 0 || |rows| <= chunk {
      assert rows[..|rows|] == rows;
    } else if r >= chunk {
      ChunkRow(en, par, topk, view, rows[chunk..], v, chunk, r - chunk);
    }
  }

  lemma AnyReads(en: Engine, par: Params, topk: TopK, view: HeadView, rows: seq<Query>, v: seq<Vec>, row: Query)
    requires en.Valid() && ViewOk(en.cfg, view) && row in rows
    ensures RowReads(en, par, topk, view, row, v).0 != {} ==> AnyK(en, par, topk, view, rows, v)
    ensures RowReads(en, par, topk, view, row, v).1 != {} ==> AnyV(en, par, topk, view, rows, v)
  {
    hide RowReads, ViewOk;
  }

  lemma AnyInPart(en: Engine, par: Params, topk: TopK, view: HeadView, part: seq<Query>, rows: seq<Query>, v: seq<Vec>)
    requires en.Valid() && ViewOk(en.cfg, view) && forall row :: row in part ==> row in rows
    ensures AnyK(en, par, topk, view, part, v) ==> AnyK(en, par, topk, view, rows, v)
  {
    hide RowReads, ViewOk;
    if AnyK(en, par, topk, view, part, v) {
      var r :| 0 <= r < |part| && RowReads(en, par, topk, view, part[r], v).0 != {};
      assert part[r] in rows;
    }
  }

  /** V reads elsewhere in the batch do nothing to a row. */
  lemma AnyVMute(en: Engine, par: Params, topk: TopK, view: HeadView, row: Query, v: seq<Vec>, anyK: bool,
                 anyV: bool, anyV': bool, d: nat)
    requires en.Valid() && ViewOk(en.cfg, view) && par.rootD > 0.0 && d < en.cfg.headDim
    requires |row.a| == TokenCount(view.pages)
    requires RowReads(en, par, topk, view, row, v).1 != {} ==> anyV && anyV'
    ensures BatchRow(en, par, topk, view, row, v, anyK, anyV)[d]
         == BatchRow(en, par, topk, view, row, v, anyK, anyV')[d]
  {
    hide ViewOk, RowReads, Gathered, SlotBlock, Entries, ExactRow, Shift, Column, Sum, LinearK;
    if anyV != anyV' { NoResidual(VSlab(en.cfg, view), TokenCount(view.pages), row, d); }
  }

  /** When cutting shows, in exact mode, for any batch, chunk size, row and coordinate: the chunked result is that of
    * one batch unless some query of the batch reads a K slot and none of the row's own chunk does; and then only
    * where the row's base output is the average that its weights give. */
  lemma ChunkingShows(en: Engine, par: Params, topk: TopK, view: HeadView, rows: seq<Query>, v: seq<Vec>, chunk: int,
                      r: nat, d: nat)
    requires en.Valid() && ViewOk(en.cfg, view) && par.rootD > 0.0 && par.exact && d < en.cfg.headDim && r < |rows|
    requires Exponential(par.exp) && Weights(rows[r].a) && |rows[r].a| == TokenCount(view.pages)
    ensures ChunkedRows(en, par, topk, view, rows, v, chunk)[r][d] == ChunkedRows(en, par, topk, view, rows, v, 0)[r][d]
       <==> (AnyK(en, par, topk, view, rows, v) ==> AnyK(en, par, topk, view, ChunkOf(rows, chunk, r), v))
            || At(rows[r].o, d) == Sum(0, |rows[r].a|, Times(Values(rows[r].a), Column(v, d)))
  {
    hide ViewOk, RowReads, BatchRow, Exponential, Weights, Sum, Column, AnyK, AnyV, ChunkedRows;
    var row, part := rows[r], ChunkOf(rows, chunk, r);
    ChunkRow(en, par, topk, view, rows, v, chunk, r);
    ChunkRow(en, par, topk, view, rows, v, 0, r);
    AnyReads(en, par, topk, view, rows, v, row);
    AnyReads(en, par, topk, view, part, v, row);
    AnyInPart(en, par, topk, view, part, rows, v);
    var anyV, anyV' := AnyV(en, par, topk, view, rows, v), AnyV(en, par, topk, view, part, v);
    if AnyK(en, par, topk, view, part, v) == AnyK(en, par, topk, view, rows, v) {
      AnyVMute(en, par, topk, view, row, v, AnyK(en, par, topk, view, rows, v), anyV, anyV', d);
    } else {
      CompanionEffect(en, par, topk, view, row, v, anyV, anyV', d);
    }
  }
}
