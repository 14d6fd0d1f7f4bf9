/** The cache object: preallocated buffers updated in place, two slot arenas, and a metadata table.
  *
  * `st` is the cache as a value; `Valid()` ties every buffer to it, and every method says what it does
  * to it. */
module Cache {

  import opened Numbers
  import opened Config
  import opened ResidualPack
  import opened Pages
  import opened Selection
  import opened BaseRows
  import opened SlotArena
  import S = CacheState
  import opened Capacity
  import opened Protocol

  class KVCache {

    const cfg: CacheConfig
    const device: nat
    const base: array3<seq<StoredRow>>
    const valid: array3<nat>
    const meta: array3<Option<PageMeta>>
    const next: array2<nat>
    const kBuf: array<Packed>
    const vBuf: array<Packed>
    var kFree: seq<nat>
    var vFree: seq<nat>
    ghost var st: S.State

    ghost const Repr: set<object>

    /** The buffers' dimensions; they never change. */
    ghost predicate Shaped()
    {
      && cfg.Valid() && kBuf != vBuf && Repr == {this, base, valid, meta, next, kBuf, vBuf}
      && base.Length0 == valid.Length0 == meta.Length0 == next.Length0 == cfg.numLayers
      && base.Length1 == valid.Length1 == meta.Length1 == next.Length1 == cfg.numKvHeads
      && base.Length2 == valid.Length2 == meta.Length2 == cfg.maxPages
    }

    /** Page `p` of head `h` of layer `l`, as the buffers hold it. */
    ghost predicate PageIs(l: nat, h: nat, p: nat, page: PageState)
      requires Shaped() && l < cfg.numLayers && h < cfg.numKvHeads && p < cfg.maxPages
      reads base, valid, meta
    {
      base[l, h, p] == page.rows && valid[l, h, p] == page.valid && meta[l, h, p] == page.meta
    }

    ghost predicate HeadIs(l: nat, h: nat, hd: S.Head)
      requires Shaped() && l < cfg.numLayers && h < cfg.numKvHeads
      reads base, valid, meta, next
    {
      |hd.pages| == cfg.maxPages && next[l, h] == hd.next
      && forall p :: 0 <= p < cfg.maxPages ==> PageIs(l, h, p, hd.pages[p])
    }

    ghost predicate Valid()
      reads Repr
    {
      && Shaped() && S.Framed(cfg, st)
      && (forall l, h :: 0 <= l < cfg.numLayers && 0 <= h < cfg.numKvHeads ==> HeadIs(l, h, st.heads[l][h]))
      && st.k.buf == kBuf[..] && st.v.buf == vBuf[..] && st.k.free == kFree && st.v.free == vFree
    }

    /** What a valid cache owns, and its fixed dimensions. */
    lemma Owned()
      requires Valid()
      ensures Shaped() && Repr == {this, base, valid, meta, next, kBuf, vBuf} && S.Framed(cfg, st)
    {
    }

    /** Every buffer is as a new cache has it. */
    ghost predicate Blank()
      reads Repr
    {
      && Shaped() && kFree == vFree == seq(ArenaSlots(cfg), i => i)
      && (forall l, h :: 0 <= l < cfg.numLayers && 0 <= h < cfg.numKvHeads ==> next[l, h] == 0)
      && (forall l, h, p :: 0 <= l < cfg.numLayers && 0 <= h < cfg.numKvHeads && 0 <= p < cfg.maxPages ==>
            base[l, h, p] == BlankPage(cfg).rows && valid[l, h, p] == 0 && meta[l, h, p] == None)
      && kBuf[..] == seq(ArenaSlots(cfg), _ => BlankPacked(cfg, KSlot))
      && vBuf[..] == seq(ArenaSlots(cfg), _ => BlankPacked(cfg, VSlot))
    }

    lemma BlankValid()
      requires Blank() && st == Fresh(cfg)
      ensures Valid()
    {
      hide ArenaSlots, BlankPacked, Fresh, BlankHead, BlankPage, BlankArena;
      FreshBuffers(cfg);
      BlankPages(cfg);
    }

    /** All buffers zeroed, every slot free, no metadata. */
    constructor (cfg: CacheConfig, device: nat)
      requires cfg.Valid()
      ensures Valid() && this.cfg == cfg && this.device == device && st == Fresh(cfg) && fresh(Repr)
    {
      hide ArenaSlots, BlankPacked, Fresh, BlankPage, BlankRow, Valid;
      var l, h, p, n := cfg.numLayers, cfg.numKvHeads, cfg.maxPages, ArenaSlots(cfg);
      this.cfg := cfg;
      this.device := device;
      base := new seq<StoredRow>[l, h, p]((_, _, _) => BlankPage(cfg).rows);
      valid := new nat[l, h, p]((_, _, _) => 0);
      meta := new Option<PageMeta>[l, h, p]((_, _, _) => None);
      next := new nat[l, h]((_, _) => 0);
      kBuf := new Packed[n](_ => BlankPacked(cfg, KSlot));
      vBuf := new Packed[n](_ => BlankPacked(cfg, VSlot));
      kFree := seq(n, i => i);
      vFree := seq(n, i => i);
      st := Fresh(cfg);
      Repr := {this, base, valid, meta, next, kBuf, vBuf};
      new;
      BlankValid();
    }

    // ---- pages ----

    method AllocPage(l: nat, h: nat) returns (pid: Option<nat>)
      requires Valid() && l < cfg.numLayers && h < cfg.numKvHeads
      modifies this, next
      ensures Valid()
      ensures match S.AllocPage(cfg, old(st).heads[l][h])
        case None => pid == None && st == old(st)
        case Some(more) => pid == Some(old(st).heads[l][h].next) && st == S.SetHead(old(st), l, h, more)
    {
      assert HeadIs(l, h, st.heads[l][h]);
      if next[l, h] >= cfg.maxPages { return None; }
      pid := Some(next[l, h]);
      next[l, h] := next[l, h] + 1;
      st := S.SetHead(st, l, h, st.heads[l][h].(next := st.heads[l][h].next + 1));
    }

    method GetOpenPage(l: nat, h: nat) returns (pid: Option<nat>)
      requires Valid() && l < cfg.numLayers && h < cfg.numKvHeads && S.HeadOk(cfg, st.heads[l][h])
      ensures pid == S.OpenPage(cfg, st.heads[l][h])
    {
      assert HeadIs(l, h, st.heads[l][h]);
      var n := next[l, h];
      if n == 0 { return None; }
      assert PageIs(l, h, n - 1, st.heads[l][h].pages[n - 1]);
      if valid[l, h, n - 1] < cfg.pageSize { return Some(n - 1); }
      return None;
    }

    /** `valid_tokens[l, h, p] = n`. */
    method SetValid(l: nat, h: nat, p: nat, n: nat)
      requires Valid() && l < cfg.numLayers && h < cfg.numKvHeads && p < cfg.maxPages
      modifies this, valid
      ensures Valid()
      ensures var hd := old(st).heads[l][h]; st == S.SetHead(old(st), l, h, S.SetPage(hd, p, hd.pages[p].(valid := n)))
    {
      assert HeadIs(l, h, st.heads[l][h]);
      valid[l, h, p] := n;
      st := S.SetHead(st, l, h, S.SetPage(st.heads[l][h], p, st.heads[l][h].pages[p].(valid := n)));
    }

    /** A page of codes and scales, packed when the cache is, of which the first `n` rows are tokens. */
    method WriteBase(l: nat, h: nat, p: nat, kCodes: seq<seq<int>>, kScale: seq<Vec>,
                     vCodes: seq<seq<int>>, vScale: seq<Vec>, n: nat)
      requires Valid() && l < cfg.numLayers && h < cfg.numKvHeads && p < cfg.maxPages && n <= cfg.pageSize
      requires |kCodes| == |kScale| == |vCodes| == |vScale|
      requires forall i :: 0 <= i < |kCodes| ==> CodesOk(cfg, kCodes[i]) && CodesOk(cfg, vCodes[i])
      modifies this, base, valid
      ensures Valid()
      ensures st == S.SetHead(old(st), l, h,
                              S.WriteBase(old(st).heads[l][h], p, MakeRows(cfg, kCodes, kScale, vCodes, vScale), n))
    {
      hide MakeRows;
      assert HeadIs(l, h, st.heads[l][h]);
      var rows := MakeRows(cfg, kCodes, kScale, vCodes, vScale);
      base[l, h, p] := rows;
      valid[l, h, p] := n;
      st := S.SetHead(st, l, h, S.WriteBase(st.heads[l][h], p, rows, n));
    }

    /** One row at the page's first free offset. */
    method AppendToPage(l: nat, h: nat, p: nat, kCodes: seq<int>, kScale: Vec, vCodes: seq<int>, vScale: Vec)
      returns (offset: nat)
      requires Valid() && l < cfg.numLayers && h < cfg.numKvHeads && p < cfg.maxPages
      requires CodesOk(cfg, kCodes) && CodesOk(cfg, vCodes)
      requires st.heads[l][h].pages[p].valid < |st.heads[l][h].pages[p].rows|
      modifies this, base, valid
      ensures Valid() && offset == old(st).heads[l][h].pages[p].valid
      ensures st == S.SetHead(old(st), l, h,
                              S.AppendRow(old(st).heads[l][h], p, MakeRow(cfg, kCodes, kScale, vCodes, vScale)))
    {
      hide MakeRow;
      assert HeadIs(l, h, st.heads[l][h]);
      assert PageIs(l, h, p, st.heads[l][h].pages[p]);
      offset := valid[l, h, p];
      var row := MakeRow(cfg, kCodes, kScale, vCodes, vScale);
      base[l, h, p] := base[l, h, p][offset := row];
      valid[l, h, p] := offset + 1;
      st := S.SetHead(st, l, h, S.AppendRow(st.heads[l][h], p, row));
    }

    /** `meta_table[l][h][p] = m`: whatever slots the old metadata listed are not freed. */
    method SetMeta(l: nat, h: nat, p: nat, m: PageMeta)
      requires Valid() && l < cfg.numLayers && h < cfg.numKvHeads && p < cfg.maxPages
      modifies this, meta
      ensures Valid() && st == S.SetHead(old(st), l, h, S.SetMeta(old(st).heads[l][h], p, m))
    {
      assert HeadIs(l, h, st.heads[l][h]);
      meta[l, h, p] := Some(m);
      st := S.SetHead(st, l, h, S.SetMeta(st.heads[l][h], p, m));
    }

    // ---- reading ----

    /** Valid rows of the listed pages, concatenated in order, and each page's count. */
    method ReadBaseConcat(l: nat, h: nat, ids: seq<nat>)
      returns (kCodes: seq<seq<int>>, kScale: seq<Vec>, vCodes: seq<seq<int>>, vScale: seq<Vec>, lens: seq<nat>)
      requires Valid() && l < cfg.numLayers && h < cfg.numKvHeads && S.HeadOk(cfg, st.heads[l][h])
      requires forall i :: 0 <= i < |ids| ==> ids[i] < cfg.maxPages
      ensures DecodesAll(cfg, Gather(st.heads[l][h].pages, ids), kCodes, kScale, vCodes, vScale)
      ensures |lens| == |ids| && forall i :: 0 <= i < |ids| ==> lens[i] == st.heads[l][h].pages[ids[i]].valid
    {
      hide RowOk, DecodesAll, DecodeAllK, DecodeAllV;
      kCodes, kScale, vCodes, vScale, lens := [], [], [], [], [];
      ghost var pages, rows := st.heads[l][h].pages, [];
      DecodesNone(cfg);
      assert HeadIs(l, h, st.heads[l][h]);
      var i := 0;
      while i < |ids|
        invariant 0 <= i <= |ids| && rows == Gather(pages, ids[..i])
        invariant DecodesAll(cfg, rows, kCodes, kScale, vCodes, vScale)
        invariant |lens| == i && forall j :: 0 <= j < i ==> lens[j] == pages[ids[j]].valid
      {
        var n := valid[l, h, ids[i]];
        assert PageIs(l, h, ids[i], pages[ids[i]]) && S.PageOk(cfg, pages[ids[i]]);
        var part := base[l, h, ids[i]][..n];
        lens := lens + [n];
        GatherMore(pages, ids, i);
        if n > 0 {
          DecodesMore(cfg, rows, kCodes, kScale, vCodes, vScale, part);
          kCodes := kCodes + DecodeAllK(cfg, part);
          kScale := kScale + ScalesK(part);
          vCodes := vCodes + DecodeAllV(cfg, part);
          vScale := vScale + ScalesV(part);
        } else {
          assert rows + part == rows;
        }
        rows := rows + part;
        i := i + 1;
      }
      assert ids[..i] == ids;
    }

    method NumPages(l: nat, h: nat) returns (n: nat)
      requires Valid() && l < cfg.numLayers && h < cfg.numKvHeads
      ensures n == st.heads[l][h].next
    {
      assert HeadIs(l, h, st.heads[l][h]);
      n := next[l, h];
    }

    /** Over all allocated pages: the number of stored tokens. */
    method TotalValidTokens(l: nat, h: nat) returns (n: nat)
      requires Valid() && l < cfg.numLayers && h < cfg.numKvHeads && S.HeadOk(cfg, st.heads[l][h])
      ensures n == |S.Log(cfg, st.heads[l][h])|
    {
      n := 0;
      var p := 0;
      ghost var pages := st.heads[l][h].pages;
      assert HeadIs(l, h, st.heads[l][h]);
      S.HeadFilled(cfg, st.heads[l][h]);
      while p < next[l, h]
        invariant 0 <= p <= next[l, h] && n == Cursor(pages, p, false)
      {
        assert PageIs(l, h, p, pages[p]);
        n := n + valid[l, h, p];
        p := p + 1;
      }
    }

    /** What correction sees of one head: its allocated pages and the slot buffers. */
    method ReadView(l: nat, h: nat) returns (view: HeadView)
      requires Valid() && l < cfg.numLayers && h < cfg.numKvHeads && st.heads[l][h].next <= cfg.maxPages
      ensures st.heads[l][h].next <= |st.heads[l][h].pages|
      ensures view == HeadView(st.heads[l][h].pages[..st.heads[l][h].next], st.k.buf, st.v.buf)
    {
      assert HeadIs(l, h, st.heads[l][h]);
      ghost var hd := st.heads[l][h];
      var pages: seq<PageState>, p := [], 0;
      while p < next[l, h]
        invariant 0 <= p <= next[l, h] == hd.next && pages == hd.pages[..p]
      {
        assert PageIs(l, h, p, hd.pages[p]);
        pages := pages + [PageState(base[l, h, p], valid[l, h, p], meta[l, h, p])];
        p := p + 1;
      }
      view := HeadView(pages, kBuf[..], vBuf[..]);
    }

    // ---- slots ----

    method AllocKSlot() returns (slot: Option<nat>)
      requires Valid()
      modifies this
      ensures Valid()
      ensures if old(st).k.free == [] then slot == None && st == old(st)
        else slot == Some(old(st).k.free[0]) && st == old(st).(k := old(st).k.(free := old(st).k.free[1..]))
    {
      if kFree == [] { return None; }
      slot, kFree := Some(kFree[0]), kFree[1..];
      st := st.(k := st.k.(free := st.k.free[1..]));
    }

    method AllocVSlot() returns (slot: Option<nat>)
      requires Valid()
      modifies this
      ensures Valid()
      ensures if old(st).v.free == [] then slot == None && st == old(st)
        else slot == Some(old(st).v.free[0]) && st == old(st).(v := old(st).v.(free := old(st).v.free[1..]))
    {
      if vFree == [] { return None; }
      slot, vFree := Some(vFree[0]), vFree[1..];
      st := st.(v := st.v.(free := st.v.free[1..]));
    }

    method FreeKSlot(slot: nat)
      requires Valid()
      modifies this
      ensures Valid() && st == old(st).(k := Release(old(st).k, slot))
    {
      kFree := kFree + [slot];
      st := st.(k := Release(st.k, slot));
    }

    method FreeVSlot(slot: nat)
      requires Valid()
      modifies this
      ensures Valid() && st == old(st).(v := Release(old(st).v, slot))
    {
      vFree := vFree + [slot];
      st := st.(v := Release(st.v, slot));
    }

    method WriteKResidual(slot: nat, packed: Packed, ghost c: Claim) returns (ok: bool)
      requires Valid() && slot < |st.k.buf|
      modifies this, kBuf
      ensures Valid() && (ok <==> PackedBytes(packed) == SlotBytes(cfg, KSlot))
      ensures st == if !ok then old(st) else
        old(st).(k := Arena(old(st).k.buf[slot := packed], old(st).k.free, old(st).k.claims[slot := c]))
    {
      ok := PackedBytes(packed) == SlotBytes(cfg, KSlot);
      if !ok { return; }
      kBuf[slot] := packed;
      st := st.(k := Arena(st.k.buf[slot := packed], st.k.free, st.k.claims[slot := c]));
    }

    method WriteVResidual(slot: nat, packed: Packed, ghost c: Claim) returns (ok: bool)
      requires Valid() && slot < |st.v.buf|
      modifies this, vBuf
      ensures Valid() && (ok <==> PackedBytes(packed) == SlotBytes(cfg, VSlot))
      ensures st == if !ok then old(st) else
        old(st).(v := Arena(old(st).v.buf[slot := packed], old(st).v.free, old(st).v.claims[slot := c]))
    {
      ok := PackedBytes(packed) == SlotBytes(cfg, VSlot);
      if !ok { return; }
      vBuf[slot] := packed;
      st := st.(v := Arena(st.v.buf[slot := packed], st.v.free, st.v.claims[slot := c]));
    }

    method ReadKResidual(slot: nat) returns (packed: Packed)
      requires Valid() && slot < |st.k.buf|
      ensures packed == st.k.buf[slot]
    {
      packed := kBuf[slot];
    }

    method ReadVResidual(slot: nat) returns (packed: Packed)
      requires Valid() && slot < |st.v.buf|
      ensures packed == st.v.buf[slot]
    {
      packed := vBuf[slot];
    }

    /** One page's buffers, as decode reads them back when a page fills. */
    method ReadPage(l: nat, h: nat, p: nat) returns (page: PageState)
      requires Valid() && l < cfg.numLayers && h < cfg.numKvHeads && p < cfg.maxPages
      ensures page == st.heads[l][h].pages[p]
    {
      assert HeadIs(l, h, st.heads[l][h]);
      assert PageIs(l, h, p, st.heads[l][h].pages[p]);
      page := PageState(base[l, h, p], valid[l, h, p], meta[l, h, p]);
    }
  }

  // ---- rows in and out ----

  predicate CodesOk(cfg: CacheConfig, codes: seq<int>)
  {
    |codes| == cfg.headDim && forall i :: 0 <= i < |codes| ==> -8 <= codes[i] <= 7
  }

  function MakeRow(cfg: CacheConfig, kCodes: seq<int>, kScale: Vec, vCodes: seq<int>, vScale: Vec): StoredRow
    requires cfg.Valid() && CodesOk(cfg, kCodes) && CodesOk(cfg, vCodes)
  {
    StoredRow(EncodeCodes(cfg, kCodes), kScale, EncodeCodes(cfg, vCodes), vScale)
  }

  function MakeRows(cfg: CacheConfig, kCodes: seq<seq<int>>, kScale: seq<Vec>, vCodes: seq<seq<int>>, vScale: seq<Vec>)
    : seq<StoredRow>
    requires cfg.Valid() && |kCodes| == |kScale| == |vCodes| == |vScale|
    requires forall i :: 0 <= i < |kCodes| ==> CodesOk(cfg, kCodes[i]) && CodesOk(cfg, vCodes[i])
  {
    seq(|kCodes|, i requires 0 <= i < |kCodes| => MakeRow(cfg, kCodes[i], kScale[i], vCodes[i], vScale[i]))
  }

  /** Codes and scales of one stored row. */
  predicate Decodes(cfg: CacheConfig, row: StoredRow, kCodes: seq<int>, kScale: Vec, vCodes: seq<int>, vScale: Vec)
  {
    && RowOk(cfg, row) && kCodes == DecodeK(cfg, row) && vCodes == DecodeV(cfg, row)
    && kScale == row.kScale && vScale == row.vScale
  }

  function DecodeK(cfg: CacheConfig, row: StoredRow): seq<int>
    requires RowOk(cfg, row)
  {
    DecodeCodes(cfg, row.kCodes)
  }

  function DecodeV(cfg: CacheConfig, row: StoredRow): seq<int>
    requires RowOk(cfg, row)
  {
    DecodeCodes(cfg, row.vCodes)
  }

  function DecodeAllK(cfg: CacheConfig, rows: seq<StoredRow>): (r: seq<seq<int>>)
    requires forall i :: 0 <= i < |rows| ==> RowOk(cfg, rows[i])
    ensures |r| == |rows|
  {
    seq(|rows|, i requires 0 <= i < |rows| => DecodeK(cfg, rows[i]))
  }

  function DecodeAllV(cfg: CacheConfig, rows: seq<StoredRow>): (r: seq<seq<int>>)
    requires forall i :: 0 <= i < |rows| ==> RowOk(cfg, rows[i])
    ensures |r| == |rows|
  {
    seq(|rows|, i requires 0 <= i < |rows| => DecodeV(cfg, rows[i]))
  }

  function ScalesK(rows: seq<StoredRow>): (r: seq<Vec>)
    ensures |r| == |rows|
  {
    seq(|rows|, i requires 0 <= i < |rows| => rows[i].kScale)
  }

  function ScalesV(rows: seq<StoredRow>): (r: seq<Vec>)
    ensures |r| == |rows|
  {
    seq(|rows|, i requires 0 <= i < |rows| => rows[i].vScale)
  }

  /** Codes and scales of a run of stored rows. */
  predicate DecodesAll(cfg: CacheConfig, rows: seq<StoredRow>, kCodes: seq<seq<int>>, kScale: seq<Vec>,
                       vCodes: seq<seq<int>>, vScale: seq<Vec>)
  {
    && |kCodes| == |kScale| == |vCodes| == |vScale| == |rows|
    && forall i :: 0 <= i < |rows| ==> Decodes(cfg, rows[i], kCodes[i], kScale[i], vCodes[i], vScale[i])
  }

  lemma DecodesNone(cfg: CacheConfig)
    ensures DecodesAll(cfg, [], [], [], [], [])
  {
  }

  lemma DecodesMore(cfg: CacheConfig, rows: seq<StoredRow>, kCodes: seq<seq<int>>, kScale: seq<Vec>,
                    vCodes: seq<seq<int>>, vScale: seq<Vec>, part: seq<StoredRow>)
    requires DecodesAll(cfg, rows, kCodes, kScale, vCodes, vScale)
    requires forall i :: 0 <= i < |part| ==> RowOk(cfg, part[i])
    ensures DecodesAll(cfg, rows + part, kCodes + DecodeAllK(cfg, part), kScale + ScalesK(part),
                       vCodes + DecodeAllV(cfg, part), vScale + ScalesV(part))
  {
    hide DecodeCodes, RowOk;
  }

  /** Valid rows of the listed pages. */
  function Gather(pages: seq<PageState>, ids: seq<nat>): seq<StoredRow>
    requires S.Filled(pages) && forall i :: 0 <= i < |ids| ==> ids[i] < |pages|
  {
    if ids == [] then []
    else
      var page := pages[ids[|ids| - 1]];
      Gather(pages, ids[..|ids| - 1]) + page.rows[..page.valid]
  }

  lemma GatherMore(pages: seq<PageState>, ids: seq<nat>, i: nat)
    requires S.Filled(pages) && i < |ids| && forall j :: 0 <= j < |ids| ==> ids[j] < |pages|
    ensures Gather(pages, ids[..i + 1]) == Gather(pages, ids[..i]) + pages[ids[i]].rows[..pages[ids[i]].valid]
  {
    assert ids[..i + 1][..i] == ids[..i] && ids[..i + 1][i] == ids[i];
  }

  /** Reading every allocated page gives the whole log: no padded row leaks, none is lost. */
  lemma {:induction false} GatherAll(pages: seq<PageState>, n: nat, ids: seq<nat>)
    requires S.Filled(pages) && n <= |pages| && |ids| == n && forall i :: 0 <= i < n ==> ids[i] == i
    ensures Gather(pages, ids) == S.Rows(pages, n)
  {
    if n == 0 {
    } else {
      GatherAll(pages, n - 1, ids[..n - 1]);
    }
  }
}
