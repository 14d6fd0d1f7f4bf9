/** The cache as a value: the pages of every layer and KV head, and the two slot arenas.
  *
  * The cache object's methods are proved against the functions here; the laws that hold over whole
  * runs are proved about these functions. */
module CacheState {

  import opened Numbers
  import opened Config
  import opened ResidualPack
  import opened Selection
  import opened Pages
  import opened BaseRows
  import opened SlotArena

  /** The page buffers of one layer and KV head, and how many pages are allocated. */
  datatype Head = Head(pages: seq<PageState>, next: nat)

  datatype State = State(heads: seq<seq<Head>>, k: Arena, v: Arena)

  // ---- invariant ----

  predicate PageOk(cfg: CacheConfig, page: PageState)
  {
    && |page.rows| == cfg.pageSize && page.valid <= cfg.pageSize
    && forall i :: 0 <= i < |page.rows| ==> RowOk(cfg, page.rows[i])
  }

  predicate Unused(page: PageState) { page.valid == 0 && page.meta.None? }

  predicate HeadOk(cfg: CacheConfig, hd: Head)
  {
    && |hd.pages| == cfg.maxPages && hd.next <= cfg.maxPages
    && (forall p :: 0 <= p < |hd.pages| ==> PageOk(cfg, hd.pages[p]))
    && (forall p :: hd.next <= p < |hd.pages| ==> Unused(hd.pages[p]))
  }

  /** A block stored for group `g` when its page had `n` tokens is zero from row `n` of the page on. */
  predicate ZeroFrom(cfg: CacheConfig, kind: Kind, g: nat, rows: seq<Vec>, n: nat)
  {
    forall i :: 0 <= i < |rows| && BlockStart(cfg, kind, g) + i >= n ==> ZeroVec(rows[i])
  }

  /** The slot of one group, if any, is owned by exactly that group of that page. */
  ghost predicate SlotOk(cfg: CacheConfig, kind: Kind, a: Arena, slot: int, at: Position, n: nat)
  {
    slot >= 0 ==>
      slot in a.claims && a.claims[slot].at == at && ZeroFrom(cfg, kind, at.group, a.claims[slot].rows, n)
  }

  ghost predicate SlotsOk(cfg: CacheConfig, kind: Kind, a: Arena, m: PageMeta, l: nat, h: nat, p: nat)
  {
    forall g :: 0 <= g < |Slots(m, kind)| ==>
      SlotOk(cfg, kind, a, Slots(m, kind)[g], Position(l, h, p, g), m.numTokens)
  }

  predicate MetaComplete(cfg: CacheConfig, m: PageMeta)
    requires cfg.Valid()
  {
    |m.kSlots| == |m.kErr| == |m.kSketch| == cfg.NumCg() && |m.vSlots| == |m.vErr| == cfg.NumVb()
  }

  ghost predicate PageRefs(cfg: CacheConfig, k: Arena, v: Arena, page: PageState, l: nat, h: nat, p: nat)
    requires cfg.Valid()
  {
    page.meta.Some? ==>
      var m := page.meta.value;
      && MetaComplete(cfg, m) && m.numTokens <= page.valid
      && SlotsOk(cfg, KSlot, k, m, l, h, p) && SlotsOk(cfg, VSlot, v, m, l, h, p)
  }

  ghost predicate HeadRefs(cfg: CacheConfig, k: Arena, v: Arena, hd: Head, l: nat, h: nat)
    requires cfg.Valid()
  {
    forall p :: 0 <= p < |hd.pages| ==> PageRefs(cfg, k, v, hd.pages[p], l, h, p)
  }

  predicate Framed(cfg: CacheConfig, st: State)
  {
    |st.heads| == cfg.numLayers && forall l :: 0 <= l < |st.heads| ==> |st.heads[l]| == cfg.numKvHeads
  }

  ghost predicate HeadsOk(cfg: CacheConfig, st: State)
    requires cfg.Valid()
  {
    forall l, h :: 0 <= l < |st.heads| && 0 <= h < |st.heads[l]| ==>
      HeadOk(cfg, st.heads[l][h]) && HeadRefs(cfg, st.k, st.v, st.heads[l][h], l, h)
  }

  /** What every operation keeps: buffer shapes, the two partitions, and that every slot a page refers
    * to is owned by that page's group and holds the block written for it. */
  ghost predicate Inv(cfg: CacheConfig, st: State)
  {
    cfg.Valid() && Framed(cfg, st) && ArenaOk(cfg, KSlot, st.k) && ArenaOk(cfg, VSlot, st.v) && HeadsOk(cfg, st)
  }

  // ---- what the invariant rules out ----

  ghost function ArenaOf(st: State, kind: Kind): Arena { if kind == KSlot then st.k else st.v }

  ghost function WithArena(st: State, kind: Kind, a: Arena): State
  {
    if kind == KSlot then st.(k := a) else st.(v := a)
  }

  /** Group `g` of page `p` refers to a slot. */
  ghost predicate RefersTo(st: State, kind: Kind, at: Position, slot: int)
  {
    && at.layer < |st.heads| && at.head < |st.heads[at.layer]|
    && var hd := st.heads[at.layer][at.head];
    && at.page < |hd.pages| && hd.pages[at.page].meta.Some?
    && at.group < |Slots(hd.pages[at.page].meta.value, kind)|
    && Slots(hd.pages[at.page].meta.value, kind)[at.group] == slot && slot >= 0
  }

  lemma Referred(cfg: CacheConfig, st: State, kind: Kind, at: Position, slot: int)
    requires Inv(cfg, st) && RefersTo(st, kind, at, slot)
    ensures var a := ArenaOf(st, kind);
      slot in a.claims && a.claims[slot].at == at
      && ZeroFrom(cfg, kind, at.group, a.claims[slot].rows,
                  st.heads[at.layer][at.head].pages[at.page].meta.value.numTokens)
  {
    hide ArenaOk, ZeroFrom, HeadOk;
    var hd := st.heads[at.layer][at.head];
    assert HeadRefs(cfg, st.k, st.v, hd, at.layer, at.head);
    assert PageRefs(cfg, st.k, st.v, hd.pages[at.page], at.layer, at.head, at.page);
  }

  /** No two positions refer to the same slot of one kind. */
  lemma NoSharing(cfg: CacheConfig, st: State, kind: Kind, a: Position, b: Position, slot: int)
    requires Inv(cfg, st) && RefersTo(st, kind, a, slot) && RefersTo(st, kind, b, slot)
    ensures a == b
  {
    hide Inv, RefersTo, ZeroFrom;
    Referred(cfg, st, kind, a, slot);
    Referred(cfg, st, kind, b, slot);
  }

  /** A slot that a page refers to is never handed out, and holds the block its owner wrote. */
  lemma ReferredIsTaken(cfg: CacheConfig, st: State, kind: Kind, at: Position, slot: int)
    requires Inv(cfg, st) && RefersTo(st, kind, at, slot)
    ensures var a := ArenaOf(st, kind);
      && slot !in a.free && slot < |a.buf| && slot in a.claims
      && BlockOk(cfg, kind, a.claims[slot].rows)
      && a.buf[slot] == PackedRows(cfg, kind, a.claims[slot].rows)
  {
    hide RefersTo, ZeroFrom, HeadsOk, BlockOk, PackedRows, NoDup;
    Referred(cfg, st, kind, at, slot);
  }

  /** Stale slots are silent: on every token appended since its page was processed, a slot unpacks to
    * exactly zero. */
  lemma AppendedTokensUntouched(cfg: CacheConfig, st: State, kind: Kind, at: Position, slot: int, i: nat, c: nat)
    requires Inv(cfg, st) && RefersTo(st, kind, at, slot)
    requires i < BlockRows(cfg, kind) && c < BlockWidth(cfg, kind)
    requires BlockStart(cfg, kind, at.group) + i
          >= st.heads[at.layer][at.head].pages[at.page].meta.value.numTokens
    ensures var a := ArenaOf(st, kind);
      slot < |a.buf| && a.buf[slot].Fits(BlockRows(cfg, kind) * BlockWidth(cfg, kind), cfg.residualBits)
      && ReadBack(cfg, kind, a.buf[slot])[i][c] == 0.0
  {
    hide Inv, ReadBack, PackedRows, BlockStart;
    Referred(cfg, st, kind, at, slot);
    ReferredIsTaken(cfg, st, kind, at, slot);
    var rows := ArenaOf(st, kind).claims[slot].rows;
    assert ZeroVec(rows[i]);
    ReadBackEntry(cfg, kind, rows, i, c);
  }

  // ---- steps on one head ----

  function SetHead(st: State, l: nat, h: nat, hd: Head): State
    requires l < |st.heads| && h < |st.heads[l]|
  {
    st.(heads := st.heads[l := st.heads[l][h := hd]])
  }

  function SetPage(hd: Head, p: nat, page: PageState): Head
    requires p < |hd.pages|
  {
    hd.(pages := hd.pages[p := page])
  }

  /** `alloc_page`: the next page, unless the cache is full. */
  function AllocPage(cfg: CacheConfig, hd: Head): Option<Head>
  {
    if hd.next < cfg.maxPages then Some(hd.(next := hd.next + 1)) else None
  }

  /** `get_open_page`: the last page, if it has room. */
  function OpenPage(cfg: CacheConfig, hd: Head): Option<nat>
    requires HeadOk(cfg, hd)
  {
    if hd.next > 0 && hd.pages[hd.next - 1].valid < cfg.pageSize then Some(hd.next - 1) else None
  }

  /** `write_base`: a page's rows, of which the first `n` are real tokens. */
  function WriteBase(hd: Head, p: nat, rows: seq<StoredRow>, n: nat): Head
    requires p < |hd.pages|
  {
    SetPage(hd, p, hd.pages[p].(rows := rows, valid := n))
  }

  /** `append_to_page`: one row at the page's first free offset. */
  function AppendRow(hd: Head, p: nat, row: StoredRow): Head
    requires p < |hd.pages| && hd.pages[p].valid < |hd.pages[p].rows|
  {
    var page := hd.pages[p];
    SetPage(hd, p, page.(rows := page.rows[page.valid := row], valid := page.valid + 1))
  }

  function SetMeta(hd: Head, p: nat, m: PageMeta): Head
    requires p < |hd.pages|
  {
    SetPage(hd, p, hd.pages[p].(meta := Some(m)))
  }

  // ---- preservation ----

  lemma SlotsExtend(cfg: CacheConfig, kind: Kind, a: Arena, b: Arena, m: PageMeta, l: nat, h: nat, p: nat)
    requires SlotsOk(cfg, kind, a, m, l, h, p) && Extends(a, b)
    ensures SlotsOk(cfg, kind, b, m, l, h, p)
  {
    hide ZeroFrom;
  }

  lemma RefsExtend(cfg: CacheConfig, k: Arena, v: Arena, k': Arena, v': Arena, hd: Head, l: nat, h: nat)
    requires cfg.Valid() && HeadRefs(cfg, k, v, hd, l, h) && Extends(k, k') && Extends(v, v')
    ensures HeadRefs(cfg, k', v', hd, l, h)
  {
    hide SlotsOk, Extends, MetaComplete;
    forall p | 0 <= p < |hd.pages| ensures PageRefs(cfg, k', v', hd.pages[p], l, h, p) {
      assert PageRefs(cfg, k, v, hd.pages[p], l, h, p);
      if hd.pages[p].meta.Some? {
        SlotsExtend(cfg, KSlot, k, k', hd.pages[p].meta.value, l, h, p);
        SlotsExtend(cfg, VSlot, v, v', hd.pages[p].meta.value, l, h, p);
      }
    }
  }

  /** Replacing one head, with arenas that only grew, keeps the invariant. */
  lemma HeadStep(cfg: CacheConfig, st: State, l: nat, h: nat, hd: Head, k': Arena, v': Arena)
    requires Inv(cfg, st) && l < |st.heads| && h < |st.heads[l]|
    requires ArenaOk(cfg, KSlot, k') && ArenaOk(cfg, VSlot, v') && Extends(st.k, k') && Extends(st.v, v')
    requires HeadOk(cfg, hd) && HeadRefs(cfg, k', v', hd, l, h)
    ensures Inv(cfg, State(SetHead(st, l, h, hd).heads, k', v'))
  {
    hide ArenaOk, Extends, HeadOk, HeadRefs;
    var st' := State(SetHead(st, l, h, hd).heads, k', v');
    forall i, j | 0 <= i < |st'.heads| && 0 <= j < |st'.heads[i]|
      ensures HeadOk(cfg, st'.heads[i][j]) && HeadRefs(cfg, k', v', st'.heads[i][j], i, j)
    {
      if i != l || j != h {
        assert st'.heads[i][j] == st.heads[i][j];
        RefsExtend(cfg, st.k, st.v, k', v', st.heads[i][j], i, j);
      }
    }
  }

  lemma OneHead(cfg: CacheConfig, st: State, l: nat, h: nat)
    requires Inv(cfg, st) && l < cfg.numLayers && h < cfg.numKvHeads
    ensures l < |st.heads| && h < |st.heads[l]|
    ensures HeadOk(cfg, st.heads[l][h]) && HeadRefs(cfg, st.k, st.v, st.heads[l][h], l, h)
  {
    hide ArenaOk, HeadOk, HeadRefs;
  }

  /** Replacing one page of a head. */
  lemma PageStep(cfg: CacheConfig, k: Arena, v: Arena, hd: Head, p: nat, page: PageState, l: nat, h: nat)
    requires HeadOk(cfg, hd) && cfg.Valid() && HeadRefs(cfg, k, v, hd, l, h) && p < hd.next
    requires PageOk(cfg, page) && PageRefs(cfg, k, v, page, l, h, p)
    ensures HeadOk(cfg, SetPage(hd, p, page)) && HeadRefs(cfg, k, v, SetPage(hd, p, page), l, h)
  {
    hide PageOk, PageRefs;
  }

  lemma AllocKeeps(cfg: CacheConfig, k: Arena, v: Arena, hd: Head, l: nat, h: nat)
    requires HeadOk(cfg, hd) && cfg.Valid() && HeadRefs(cfg, k, v, hd, l, h) && AllocPage(cfg, hd).Some?
    ensures var hd' := AllocPage(cfg, hd).value;
      HeadOk(cfg, hd') && HeadRefs(cfg, k, v, hd', l, h) && hd'.next == hd.next + 1 && hd'.pages == hd.pages
      && Unused(hd.pages[hd.next])
  {
    hide PageOk, PageRefs;
  }

  // ---- the token log ----

  predicate Filled(pages: seq<PageState>) { forall p :: 0 <= p < |pages| ==> pages[p].valid <= |pages[p].rows| }

  /** `read_base_concat` over the first `n` pages: valid rows only, in page order. */
  function Rows(pages: seq<PageState>, n: nat): (r: seq<StoredRow>)
    requires n <= |pages| && Filled(pages)
    ensures |r| == Cursor(pages, n, false)
  {
    if n == 0 then [] else Rows(pages, n - 1) + pages[n - 1].rows[..pages[n - 1].valid]
  }

  lemma HeadFilled(cfg: CacheConfig, hd: Head)
    requires HeadOk(cfg, hd)
    ensures Filled(hd.pages) && hd.next <= |hd.pages|
  {
  }

  /** Every stored token of a head, in order. */
  function Log(cfg: CacheConfig, hd: Head): seq<StoredRow>
    requires HeadOk(cfg, hd)
  {
    HeadFilled(cfg, hd);
    Rows(hd.pages, hd.next)
  }

  lemma {:induction false} RowsExt(a: seq<PageState>, b: seq<PageState>, n: nat)
    requires n <= |a| && n <= |b| && Filled(a) && Filled(b)
    requires forall p :: 0 <= p < n ==> a[p].rows == b[p].rows && a[p].valid == b[p].valid
    ensures Rows(a, n) == Rows(b, n)
  {
    if n == 0 {
    } else {
      RowsExt(a, b, n - 1);
    }
  }

  // ---- the page table ----

  /** `n` pages of `size` tokens hold `total` tokens, and no fewer do. */
  predicate PageCount(size: nat, total: nat, n: nat)
  {
    total <= n * size && (n > 0 ==> (n - 1) * size < total)
  }

  /** Pages fill from the front: every page but the last is full; a full page has the metadata of a full
    * page; and metadata records the number of tokens in earlier pages. */
  ghost predicate PageTable(cfg: CacheConfig, hd: Head, total: nat)
  {
    && HeadOk(cfg, hd) && PageCount(cfg.pageSize, total, hd.next)
    && (forall p :: 0 <= p < hd.next ==> TablePage(cfg, hd.pages[p], p, total))
  }

  predicate TablePage(cfg: CacheConfig, page: PageState, p: nat, total: nat)
  {
    && page.valid == Min(cfg.pageSize, total - p * cfg.pageSize)
    && (page.valid == cfg.pageSize ==> page.meta.Some? && page.meta.value.numTokens == cfg.pageSize)
    && (page.meta.Some? ==> page.meta.value.tokenStart == p * cfg.pageSize)
  }

  lemma PageCountIsCeil(size: nat, total: nat, n: nat)
    requires size > 0 && PageCount(size, total, n)
    ensures n == (total + size - 1) / size
  {
    var q, r := (total + size - 1) / size, (total + size - 1) % size;
    assert total + size - 1 == q * size + r;
    if q < n - 1 { BlocksApart(q, n - 1, size); }
    if n < q { BlocksApart(n, q, size); }
  }
}
