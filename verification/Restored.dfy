/** What reading a slot restores, in every state a run reaches: the run's own tokens, to within half a slot step. */
module Restored {

  import opened Numbers
  import opened Sums
  import opened Config
  import opened ResidualPack
  import opened Selection
  import opened Pages
  import opened BaseRows
  import opened SlotArena
  import opened CacheState
  import opened PageTables
  import opened Router
  import opened StorePlan
  import opened Losses
  import opened SketchDots
  import opened LayerSteps
  import opened TrueSlots
  import opened Sessions
  import opened Correction
  import opened SlotLoop
  import opened CorrectedKeys
  import opened Reachable

  /** The channel that entry `c` of a block of group `g` belongs to. */
  function ChannelOf(cfg: CacheConfig, kind: Kind, g: nat, c: nat): nat
  {
    if kind == KSlot then g * cfg.kChannelGroup + c else c
  }

  /** What base storage loses of one channel of a token. */
  function LostChannel(cfg: CacheConfig, kind: Kind, t: Token, d: nat): real
    requires cfg.Valid() && TokenOk(cfg, t) && d < cfg.headDim
  {
    Side(kind, t)[d] - Hat(cfg, Side(kind, t))[d]
  }

  lemma TokenLostAt(cfg: CacheConfig, kind: Kind, g: nat, t: Token, c: nat)
    requires cfg.Valid() && TokenOk(cfg, t) && g < NumGroups(cfg, kind) && c < BlockWidth(cfg, kind)
    ensures ChannelOf(cfg, kind, g, c) < cfg.headDim
    ensures TokenLost(cfg, kind, g, t)[c] == LostChannel(cfg, kind, t, ChannelOf(cfg, kind, g, c))
  {
    hide CacheConfig.NumCg, CacheConfig.NumVb, Hat, Slice;
    if kind == KSlot { ChannelGroupFits(cfg, g); }
    SliceAt(cfg, kind, g, Side(kind, t), c);
    SliceAt(cfg, kind, g, Hat(cfg, Side(kind, t)), c);
  }

  lemma SliceAt(cfg: CacheConfig, kind: Kind, g: nat, row: Vec, c: nat)
    requires cfg.Valid() && g < NumGroups(cfg, kind) && |row| == cfg.headDim && c < BlockWidth(cfg, kind)
    ensures ChannelOf(cfg, kind, g, c) < cfg.headDim
    ensures Slice(cfg, kind, g, row)[c] == row[ChannelOf(cfg, kind, g, c)]
  {
    hide CacheConfig.NumCg, CacheConfig.NumVb;
    if kind == KSlot { ChannelGroupFits(cfg, g); }
  }

  // ---- one slot ----

  /** The metadata of the page at a position. */
  function MetaAt(st: State, kind: Kind, at: Position, slot: int): PageMeta
    requires RefersTo(st, kind, at, slot)
  {
    st.heads[at.layer][at.head].pages[at.page].meta.value
  }

  lemma GroupExists(cfg: CacheConfig, st: State, kind: Kind, at: Position, slot: int)
    requires Inv(cfg, st) && RefersTo(st, kind, at, slot)
    ensures at.group < NumGroups(cfg, kind)
  {
    hide ArenaOk, SlotsOk, HeadOk;
    var hd := st.heads[at.layer][at.head];
    assert HeadRefs(cfg, st.k, st.v, hd, at.layer, at.head);
    assert PageRefs(cfg, st.k, st.v, hd.pages[at.page], at.layer, at.head, at.page);
  }

  /** In every state of a run, a slot that a page refers to holds what was lost of the run's tokens in its place, and
    * the metadata beside it describes that block. */
  lemma SlotIsTrue(m: Manager, st: State, kv: seq<seq<Token>>, n: nat, kind: Kind, at: Position, slot: int)
    requires Holds(m, st, kv, n) && RefersTo(st, kind, at, slot)
    requires at.layer == m.en.layer && at.head < m.en.cfg.numKvHeads
    ensures m.en.Valid() && |kv| == m.en.cfg.numKvHeads && at.group < NumGroups(m.en.cfg, kind)
    ensures |kv[at.head]| == n && TokensOk(m.en.cfg, kv[at.head]) && slot in ArenaOf(st, kind).claims
    ensures var rows, meta := ArenaOf(st, kind).claims[slot].rows, MetaAt(st, kind, at, slot);
      && BlockTrue(m.en.cfg, kind, rows, at.page, at.group, meta.numTokens, kv[at.head])
      && RecordTrue(m, kind, meta, rows, at.group)
  {
    hide Inv, TokensOk, NumGroups, BlockTrue, RecordTrue, HeadHolds, HeadOk;
    HoldsPrompt(m, st, kv, n);
    HoldsParts(m, st, kv, n);
    GroupExists(m.en.cfg, st, kind, at, slot);
    OneHead(m.en.cfg, st, m.en.layer, at.head);
    var hd := HeadAt(m, st, at.head);
    assert HeadTrue(m, st.k, st.v, hd, kv[at.head]);
    assert PageTrue(m, kind, ArenaOf(st, kind), hd.pages[at.page], at.page, kv[at.head]);
    assert SlotTrue(m, kind, ArenaOf(st, kind), hd.pages[at.page].meta.value, at.page, at.group, kv[at.head]);
  }

  /** A slot as the invariant keeps it: owned, of the right size, and holding the block claimed for it. */
  lemma SlotKept(cfg: CacheConfig, st: State, kind: Kind, at: Position, slot: nat)
    requires Inv(cfg, st) && RefersTo(st, kind, at, slot)
    ensures var a := ArenaOf(st, kind);
      && slot < |a.buf| && slot in a.claims && BlockOk(cfg, kind, a.claims[slot].rows)
      && a.buf[slot].Fits(BlockRows(cfg, kind) * BlockWidth(cfg, kind), cfg.residualBits)
      && a.buf[slot] == PackedRows(cfg, kind, a.claims[slot].rows)
  {
    hide Inv, RefersTo, PackedRows;
    ReferredIsTaken(cfg, st, kind, at, slot);
  }

  /** Entry `(i, c)` of such a slot belongs to token `t` and channel `d` of the run; it was written as what base
    * storage loses of that channel; and reading it back restores the channel to within half a slot step. */
  lemma SlotRestoresToken(m: Manager, st: State, kv: seq<seq<Token>>, n: nat, kind: Kind, at: Position, slot: nat,
                          i: nat, c: nat, t: nat, d: nat)
    requires Holds(m, st, kv, n) && RefersTo(st, kind, at, slot)
    requires at.layer == m.en.layer && at.head < m.en.cfg.numKvHeads
    requires i < BlockRows(m.en.cfg, kind) && c < BlockWidth(m.en.cfg, kind)
    requires BlockStart(m.en.cfg, kind, at.group) + i < MetaAt(st, kind, at, slot).numTokens
    requires t == at.page * m.en.cfg.pageSize + BlockStart(m.en.cfg, kind, at.group) + i
    requires d == ChannelOf(m.en.cfg, kind, at.group, c)
    ensures m.en.Valid() && Inv(m.en.cfg, st) && |kv| == m.en.cfg.numKvHeads && t < n == |kv[at.head]|
    ensures TokenOk(m.en.cfg, kv[at.head][t]) && d < m.en.cfg.headDim && slot in ArenaOf(st, kind).claims
    ensures BlockOk(m.en.cfg, kind, ArenaOf(st, kind).claims[slot].rows)
    ensures ArenaOf(st, kind).claims[slot].rows[i][c] == LostChannel(m.en.cfg, kind, kv[at.head][t], d)
    ensures slot < |ArenaOf(st, kind).buf|
    ensures Restores(m.en.cfg, kind, ArenaOf(st, kind).claims[slot].rows, Side(kind, kv[at.head][t])[d],
                     Hat(m.en.cfg, Side(kind, kv[at.head][t]))[d]
                     + SlotEntry(m.en.cfg, kind, ArenaOf(st, kind).buf[slot], i, c))
  {
    hide Inv, NumGroups, HeadHolds, HeadOk, Holds, RefersTo, RecordTrue, ReadBack, PackedRows, TokenLost, BlockStart,
      LostChannel, Restores, Hat, ChannelOf;
    SlotIsTrue(m, st, kv, n, kind, at, slot);
    HoldsParts(m, st, kv, n);
    SlotKept(m.en.cfg, st, kind, at, slot);
    var rows := ArenaOf(st, kind).claims[slot].rows;
    assert RowTrue(m.en.cfg, kind, rows[i], at.group, t, kv[at.head]);
    TokenLostAt(m.en.cfg, kind, at.group, kv[at.head][t], c);
    EntryRestores(m.en.cfg, kind, rows, i, c, kv[at.head][t], d);
  }

  /** Entry `(i, c)` of a packed block as it is read. */
  function SlotEntry(cfg: CacheConfig, kind: Kind, p: Packed, i: nat, c: nat): real
  {
    if p.Fits(BlockRows(cfg, kind) * BlockWidth(cfg, kind), cfg.residualBits) then At2(ReadBack(cfg, kind, p), i, c)
    else 0.0
  }

  /** `y` restores `x` from a block: within half a step of it, so within `b / (2 * top)` for every bound `b` of the
    * block's entries. */
  ghost predicate Restores(cfg: CacheConfig, kind: Kind, rows: seq<Vec>, x: real, y: real)
    requires BlockOk(cfg, kind, rows)
  {
    && Within(x, y, HalfStep(cfg, kind, rows))
    && forall b :: RowsBounded(rows, b) && b >= 0.00000001 ==>
      Within(x, y, b / (2.0 * TopCode(cfg.residualBits) as real))
  }

  lemma EntryRestores(cfg: CacheConfig, kind: Kind, rows: seq<Vec>, i: nat, c: nat, t: Token, d: nat)
    requires cfg.Valid() && BlockOk(cfg, kind, rows) && i < BlockRows(cfg, kind) && c < BlockWidth(cfg, kind)
    requires TokenOk(cfg, t) && d < cfg.headDim && rows[i][c] == LostChannel(cfg, kind, t, d)
    ensures Restores(cfg, kind, rows, Side(kind, t)[d],
                     Hat(cfg, Side(kind, t))[d] + SlotEntry(cfg, kind, PackedRows(cfg, kind, rows), i, c))
  {
    hide ReadBack, PackedRows, HalfStep, Hat, RowsBounded;
    ReadBackEntry(cfg, kind, rows, i, c);
    var back := ReadBack(cfg, kind, PackedRows(cfg, kind, rows))[i][c];
    forall b | RowsBounded(rows, b) && b >= 0.00000001
      ensures Within(rows[i][c], back, b / (2.0 * TopCode(cfg.residualBits) as real))
    {
      ReadBackWithin(cfg, kind, rows, i, c, b);
    }
  }

  // ---- what correction adds ----

  lemma CursorAt(m: Manager, st: State, kv: seq<seq<Token>>, n: nat, h: nat, p: nat)
    requires Holds(m, st, kv, n) && h < m.en.cfg.numKvHeads && p < |ReachedView(m, st, kv, n, h).pages|
    ensures Cursor(ReachedView(m, st, kv, n, h).pages, p, false) == p * m.en.cfg.pageSize
  {
    hide Inv, Log, PageTable, HeadOk, LayerTrue, Cursor;
    HeldAt(m, st, kv, n, h);
    HeadFilled(m.en.cfg, HeadAt(m, st, h));
    TableCursor(m.en.cfg, HeadAt(m, st, h), n, p);
  }

  lemma TableCursor(cfg: CacheConfig, hd: Head, n: nat, p: nat)
    requires cfg.Valid() && PageTable(cfg, hd, n) && p < hd.next
    ensures hd.next <= |hd.pages| && Cursor(hd.pages[..hd.next], p, false) == p * cfg.pageSize
  {
    hide HeadOk, TablePage, Cursor;
    PageStart(cfg, hd, n, p);
    PageStart(cfg, hd, n, hd.next);
    PageBefore(cfg.pageSize, n, hd.next, p);
    CursorPrefix(hd.pages, hd.pages[..hd.next], p, false);
  }

  lemma PageBefore(size: nat, total: nat, n: nat, p: nat)
    requires PageCount(size, total, n) && p < n
    ensures p * size <= total
  {
    assert p * size <= (n - 1) * size;
  }

  /** Where a stored slot of a head stands. */
  function PlaceOf(m: Manager, h: nat, e: Entry): Position { Position(m.en.layer, h, e.page, e.group) }

  /** A stored slot, and a token it covers, in terms of the cache: its page's metadata, and the row of its block. */
  lemma Placed(m: Manager, st: State, kv: seq<seq<Token>>, n: nat, h: nat, kind: Kind, i: nat, t: int)
    requires Holds(m, st, kv, n) && h < m.en.cfg.numKvHeads
    requires i < |Stored(m.en.cfg, kind, ReachedView(m, st, kv, n, h).pages)|
    requires Covers(Stored(m.en.cfg, kind, ReachedView(m, st, kv, n, h).pages)[i], t)
    ensures m.en.Valid() && Inv(m.en.cfg, st)
    ensures var e := Stored(m.en.cfg, kind, ReachedView(m, st, kv, n, h).pages)[i];
      && e.slot >= 0 && RefersTo(st, kind, PlaceOf(m, h, e), e.slot) && e.group < NumGroups(m.en.cfg, kind)
      && e.start == e.page * m.en.cfg.pageSize + BlockStart(m.en.cfg, kind, e.group)
      && 0 <= t - e.start < BlockRows(m.en.cfg, kind)
  {
    hide Inv, Log, Stored, ViewOk, HeadHolds, LayerTrue, NumGroups, BlockStart;
    var cfg, l, view := m.en.cfg, m.en.layer, ReachedView(m, st, kv, n, h);
    var e := Stored(cfg, kind, view.pages)[i];
    ReachableView(m, st, kv, n, h);
    HoldsParts(m, st, kv, n);
    Source(cfg, kind, view.pages, i);
    PageFits(cfg, view, e.page);
    CursorAt(m, st, kv, n, h, e.page);
    assert view.pages[e.page] == st.heads[l][h].pages[e.page];
    assert RefersTo(st, kind, PlaceOf(m, h, e), e.slot);
    GroupExists(cfg, st, kind, PlaceOf(m, h, e), e.slot);
  }

  /** The residual that a stored slot has for entry `c` of token `t`. */
  function SlotResidual(m: Manager, st: State, kind: Kind, e: Entry, t: int, c: nat): real
  {
    var buf := if kind == KSlot then st.k.buf else st.v.buf;
    if 0 <= e.slot < |buf| && t >= e.start then SlotEntry(m.en.cfg, kind, buf[e.slot], t - e.start, c) else 0.0
  }

  /** `y` is what correction adds to channel `d` of token `t`: nothing when the token was appended since its page was
    * processed, and otherwise what restores the channel to within half a step of the slot. */
  ghost predicate Corrects(m: Manager, st: State, kind: Kind, e: Entry, h: nat, t: nat, d: nat, x: Token, y: real)
    requires m.en.Valid() && TokenOk(m.en.cfg, x) && d < m.en.cfg.headDim
    requires RefersTo(st, kind, PlaceOf(m, h, e), e.slot) && e.slot in ArenaOf(st, kind).claims
    requires BlockOk(m.en.cfg, kind, ArenaOf(st, kind).claims[e.slot].rows)
  {
    if e.page * m.en.cfg.pageSize + MetaAt(st, kind, PlaceOf(m, h, e), e.slot).numTokens <= t then y == 0.0
    else
      Restores(m.en.cfg, kind, ArenaOf(st, kind).claims[e.slot].rows, Side(kind, x)[d],
               Hat(m.en.cfg, Side(kind, x))[d] + y)
  }

  lemma SlotCorrects(m: Manager, st: State, kv: seq<seq<Token>>, n: nat, h: nat, kind: Kind, i: nat, t: nat, c: nat,
                     d: nat)
    requires Holds(m, st, kv, n) && h < m.en.cfg.numKvHeads
    requires i < |Stored(m.en.cfg, kind, ReachedView(m, st, kv, n, h).pages)|
    requires var e := Stored(m.en.cfg, kind, ReachedView(m, st, kv, n, h).pages)[i];
      Covers(e, t) && c < BlockWidth(m.en.cfg, kind) && d == ChannelOf(m.en.cfg, kind, e.group, c)
    ensures m.en.Valid() && h < |kv| && t < |kv[h]| && TokenOk(m.en.cfg, kv[h][t]) && d < m.en.cfg.headDim
    ensures var e := Stored(m.en.cfg, kind, ReachedView(m, st, kv, n, h).pages)[i];
      && RefersTo(st, kind, PlaceOf(m, h, e), e.slot) && e.slot in ArenaOf(st, kind).claims
      && BlockOk(m.en.cfg, kind, ArenaOf(st, kind).claims[e.slot].rows)
      && Corrects(m, st, kind, e, h, t, d, kv[h][t], SlotResidual(m, st, kind, e, t, c))
  {
    hide Inv, Log, Stored, ViewOk, HeadHolds, LayerTrue, NumGroups, BlockStart, Holds, RefersTo, ReachedView, Restores,
      SlotEntry, Hat, ChannelOf, BlockOk;
    Placed(m, st, kv, n, h, kind, i, t);
    var e := Stored(m.en.cfg, kind, ReachedView(m, st, kv, n, h).pages)[i];
    var at := PlaceOf(m, h, e);
    SlotKept(m.en.cfg, st, kind, at, e.slot);
    CoveredToken(m, st, kv, n, h, kind, i, t);
    ChannelFits(m.en.cfg, kind, e.group, c);
    if BlockStart(m.en.cfg, kind, e.group) + (t - e.start) < MetaAt(st, kind, at, e.slot).numTokens {
      SlotRestoresToken(m, st, kv, n, kind, at, e.slot, t - e.start, c, t, d);
    } else {
      AppendedTokensUntouched(m.en.cfg, st, kind, at, e.slot, t - e.start, c);
      UntouchedEntry(m.en.cfg, kind, ArenaOf(st, kind).buf[e.slot], t - e.start, c);
    }
  }

  lemma UntouchedEntry(cfg: CacheConfig, kind: Kind, p: Packed, i: nat, c: nat)
    requires p.Fits(BlockRows(cfg, kind) * BlockWidth(cfg, kind), cfg.residualBits)
    requires i < BlockRows(cfg, kind) && c < BlockWidth(cfg, kind) && ReadBack(cfg, kind, p)[i][c] == 0.0
    ensures SlotEntry(cfg, kind, p, i, c) == 0.0
  {
    hide ReadBack;
  }

  lemma ChannelFits(cfg: CacheConfig, kind: Kind, g: nat, c: nat)
    requires cfg.Valid() && g < NumGroups(cfg, kind) && c < BlockWidth(cfg, kind)
    ensures ChannelOf(cfg, kind, g, c) < cfg.headDim
  {
    hide CacheConfig.NumCg, CacheConfig.NumVb;
    if kind == KSlot { ChannelGroupFits(cfg, g); }
  }

  /** A covered token is one of the run's. */
  lemma CoveredToken(m: Manager, st: State, kv: seq<seq<Token>>, n: nat, h: nat, kind: Kind, i: nat, t: nat)
    requires Holds(m, st, kv, n) && h < m.en.cfg.numKvHeads
    requires i < |Stored(m.en.cfg, kind, ReachedView(m, st, kv, n, h).pages)|
    requires Covers(Stored(m.en.cfg, kind, ReachedView(m, st, kv, n, h).pages)[i], t)
    ensures m.en.Valid() && h < |kv| && t < n == |kv[h]| && TokenOk(m.en.cfg, kv[h][t])
  {
    hide Inv, Log, Stored, ViewOk, HeadHolds, LayerTrue, Holds, TokenOk, PagesInOrder, ReachedView;
    HoldsPrompt(m, st, kv, n);
    HoldsParts(m, st, kv, n);
    var view := ReachedView(m, st, kv, n, h);
    StoredDistinct(m.en.cfg, kind, view.pages);
    var es := Stored(m.en.cfg, kind, view.pages);
    assert es[i].start + es[i].len <= TokenCount(view.pages);
    assert TokensOk(m.en.cfg, kv[h]);
  }

  // ---- corrected keys and values ----

  lemma BlockEntryRead(m: Manager, st: State, kv: seq<seq<Token>>, n: nat, h: nat, kind: Kind, i: nat, t: nat, c: nat)
    requires Holds(m, st, kv, n) && h < m.en.cfg.numKvHeads
    requires i < |Stored(m.en.cfg, kind, ReachedView(m, st, kv, n, h).pages)|
    requires Covers(Stored(m.en.cfg, kind, ReachedView(m, st, kv, n, h).pages)[i], t)
    ensures var view := ReachedView(m, st, kv, n, h);
      var e := Stored(m.en.cfg, kind, view.pages)[i];
      At2(SlotBlock(m.en.cfg, view, kind, e.slot), t - e.start, c) == SlotResidual(m, st, kind, e, t, c)
  {
    hide Inv, Log, Stored, HeadHolds, LayerTrue, Holds, RefersTo, UnpackBlock, PagesInOrder, NumGroups;
    var view := ReachedView(m, st, kv, n, h);
    var e := Stored(m.en.cfg, kind, view.pages)[i];
    Placed(m, st, kv, n, h, kind, i, t);
    SlotKept(m.en.cfg, st, kind, PlaceOf(m, h, e), e.slot);
    assert view.kBuf == st.k.buf && view.vBuf == st.v.buf;
  }

  /** One slot at most touches a channel of a token. */
  lemma OneToucher(m: Manager, st: State, kv: seq<seq<Token>>, n: nat, h: nat, sel: set<nat>, t: nat, d: nat, i: nat,
                   j: nat)
    requires Holds(m, st, kv, n) && h < m.en.cfg.numKvHeads
    requires var slab := KSlab(m.en.cfg, ReachedView(m, st, kv, n, h));
      Touches(m.en.cfg.kChannelGroup, slab, sel, t, d, i) && Touches(m.en.cfg.kChannelGroup, slab, sel, t, d, j)
    ensures i == j
  {
    hide Inv, Log, Stored, ViewOk, HeadHolds, LayerTrue, Holds, PagesInOrder, SlotBlock, ReachedView;
    var view, w := ReachedView(m, st, kv, n, h), m.en.cfg.kChannelGroup;
    var es := Stored(m.en.cfg, KSlot, view.pages);
    StoredDistinct(m.en.cfg, KSlot, view.pages);
    Source(m.en.cfg, KSlot, view.pages, i);
    Source(m.en.cfg, KSlot, view.pages, j);
    OnePage(view.pages, es[i].page, es[j].page, t);
    SameGroup(es[i].group, es[j].group, w, d);
  }

  lemma SameGroup(g: nat, g': nat, w: nat, d: nat)
    requires g * w <= d < g * w + w && g' * w <= d < g' * w + w
    ensures g == g'
  {
    if g < g' { BlocksApart(g, g', w); }
    if g' < g { BlocksApart(g', g, w); }
  }

  /** What correction adds to a channel of a key, whatever slots are read: nothing when none of them is the channel's;
    * otherwise what restores the run's own key there, to within half a step of the slot. */
  lemma KeyRestored(m: Manager, st: State, kv: seq<seq<Token>>, n: nat, h: nat, sel: set<nat>, t: nat, d: nat, i: nat)
    requires Holds(m, st, kv, n) && h < m.en.cfg.numKvHeads
    requires Touches(m.en.cfg.kChannelGroup, KSlab(m.en.cfg, ReachedView(m, st, kv, n, h)), sel, t, d, i)
    ensures m.en.Valid() && h < |kv| && t < |kv[h]| && TokenOk(m.en.cfg, kv[h][t]) && d < m.en.cfg.headDim
    ensures var slab := KSlab(m.en.cfg, ReachedView(m, st, kv, n, h));
      var e := slab.es[i];
      && RefersTo(st, KSlot, PlaceOf(m, h, e), e.slot) && e.slot in st.k.claims
      && BlockOk(m.en.cfg, KSlot, st.k.claims[e.slot].rows)
      && Corrects(m, st, KSlot, e, h, t, d, kv[h][t], KeyResidual(m.en.cfg.kChannelGroup, slab, sel, t)(d))
  {
    hide Inv, Log, Stored, ViewOk, HeadHolds, LayerTrue, Holds, PagesInOrder, SlotBlock, ReachedView, RefersTo,
      Corrects, SlotResidual, At2, BlockOk;
    var view, w := ReachedView(m, st, kv, n, h), m.en.cfg.kChannelGroup;
    var slab := KSlab(m.en.cfg, view);
    var e := slab.es[i];
    var c := d - e.group * w;
    forall j | 0 <= j < |slab.es| && j != i ensures KeyPart(w, slab, sel, t, d)(j) == 0.0 {
      if Touches(w, slab, sel, t, d, j) { OneToucher(m, st, kv, n, h, sel, t, d, i, j); }
    }
    SumSingle(0, |slab.es|, KeyPart(w, slab, sel, t, d), i);
    BlockEntryRead(m, st, kv, n, h, KSlot, i, t, c);
    SlotCorrects(m, st, kv, n, h, KSlot, i, t, c, d);
  }

  lemma KeyUnread(w: nat, slab: Slab, sel: set<nat>, t: nat, d: nat)
    requires forall i :: !Touches(w, slab, sel, t, d, i)
    ensures KeyResidual(w, slab, sel, t)(d) == 0.0
  {
    SumZero(0, |slab.es|, KeyPart(w, slab, sel, t, d));
  }

  lemma OnlyPart(slab: Slab, sel: set<nat>, t: nat, d: nat, i: nat, total: nat)
    requires WellPlaced(slab.es, VSlot, total) && i in sel && i < |slab.es| && Covers(slab.es[i], t)
    ensures Rho(slab, sel, t, d) == At2(Block(slab, i), t - slab.es[i].start, d)
  {
    hide At2, Block, Sum;
    forall j | 0 <= j < |slab.es| && j != i ensures VPart(slab, sel, t, d)(j) == 0.0 {
      assert !Covers(slab.es[j], t) by { if j < i {} else {} }
    }
    SumSingle(0, |slab.es|, VPart(slab, sel, t, d), i);
  }

  /** The same for values. */
  lemma ValueRestored(m: Manager, st: State, kv: seq<seq<Token>>, n: nat, h: nat, sel: set<nat>, t: nat, d: nat, i: nat)
    requires Holds(m, st, kv, n) && h < m.en.cfg.numKvHeads && d < m.en.cfg.headDim && i in sel
    requires var slab := VSlab(m.en.cfg, ReachedView(m, st, kv, n, h)); i < |slab.es| && Covers(slab.es[i], t)
    ensures m.en.Valid() && h < |kv| && t < |kv[h]| && TokenOk(m.en.cfg, kv[h][t])
    ensures var slab := VSlab(m.en.cfg, ReachedView(m, st, kv, n, h));
      var e := slab.es[i];
      && RefersTo(st, VSlot, PlaceOf(m, h, e), e.slot) && e.slot in st.v.claims
      && BlockOk(m.en.cfg, VSlot, st.v.claims[e.slot].rows)
      && Corrects(m, st, VSlot, e, h, t, d, kv[h][t], Rho(slab, sel, t, d))
  {
    hide Inv, Log, Stored, ViewOk, HeadHolds, LayerTrue, Holds, PagesInOrder, SlotBlock, ReachedView, RefersTo,
      Corrects, SlotResidual, At2, BlockOk, Rho, WellPlaced;
    var view := ReachedView(m, st, kv, n, h);
    var slab := VSlab(m.en.cfg, view);
    StoredDistinct(m.en.cfg, VSlot, view.pages);
    OnlyPart(slab, sel, t, d, i, TokenCount(view.pages));
    BlockEntryRead(m, st, kv, n, h, VSlot, i, t, d);
    SlotCorrects(m, st, kv, n, h, VSlot, i, t, d, d);
  }

  lemma ValueUnread(slab: Slab, sel: set<nat>, t: nat, d: nat)
    requires forall i :: 0 <= i < |slab.es| && i in sel ==> !Covers(slab.es[i], t)
    ensures Rho(slab, sel, t, d) == 0.0
  {
    SumZero(0, |slab.es|, VPart(slab, sel, t, d));
  }

  // ---- what the router scores with ----

  /** The norms of what was lost on a group of `n` tokens, the first of them token `t`, added up. */
  function TokenNorms(m: Manager, kind: Kind, g: nat, ts: seq<Token>, t: nat, n: nat): real
    requires m.en.Valid() && TokensOk(m.en.cfg, ts) && g < NumGroups(m.en.cfg, kind) && t + n <= |ts|
  {
    if n == 0 then 0.0
    else TokenNorms(m, kind, g, ts, t, n - 1) + m.en.ker.norm(TokenLost(m.en.cfg, kind, g, ts[t + n - 1]))
  }

  /** The mean of what was lost on channel `c` of a group, over the same tokens. */
  ghost function TokenMeans(m: Manager, g: nat, ts: seq<Token>, t: nat, n: nat): int -> real
    requires m.en.Valid() && TokensOk(m.en.cfg, ts) && g < m.en.cfg.NumCg() && t + n <= |ts|
  {
    c => Mean(n, LostOver(m, g, ts, t, n, c))
  }

  ghost function LostOver(m: Manager, g: nat, ts: seq<Token>, t: nat, n: nat, c: int): int -> real
    requires m.en.Valid() && TokensOk(m.en.cfg, ts) && g < m.en.cfg.NumCg() && t + n <= |ts|
  {
    i => if 0 <= i < n then At(TokenLost(m.en.cfg, KSlot, g, ts[t + i]), c) else 0.0
  }

  lemma {:induction false} RowNormsTrue(m: Manager, kind: Kind, rows: seq<Vec>, p: nat, g: nat, n: nat, ts: seq<Token>,
                                        first: nat, k: nat)
    requires m.en.Valid() && TokensOk(m.en.cfg, ts) && g < NumGroups(m.en.cfg, kind)
    requires BlockTrue(m.en.cfg, kind, rows, p, g, n, ts) && k <= |rows|
    requires k > 0 ==> BlockStart(m.en.cfg, kind, g) + k <= n
    requires first == p * m.en.cfg.pageSize + BlockStart(m.en.cfg, kind, g)
    ensures first + k <= |ts| || k == 0
    ensures k > 0 ==> RowNorms(m.en.ker, rows, k) == TokenNorms(m, kind, g, ts, first, k)
  {
    hide NumGroups, TokensOk, TokenLost, BlockStart;
    if k == 0 {
    } else {
      RowNormsTrue(m, kind, rows, p, g, n, ts, first, k - 1);
      assert RowTrue(m.en.cfg, kind, rows[k - 1], g, first + (k - 1), ts);
    }
  }

  lemma ColumnsTrue(m: Manager, rows: seq<Vec>, p: nat, g: nat, n: nat, ts: seq<Token>, first: nat, c: int)
    requires m.en.Valid() && TokensOk(m.en.cfg, ts) && g < m.en.cfg.NumCg()
    requires BlockTrue(m.en.cfg, KSlot, rows, p, g, n, ts) && n <= |rows| && first == p * m.en.cfg.pageSize
    requires first + n <= |ts|
    ensures ColumnMeans(rows, n)(c) == TokenMeans(m, g, ts, first, n)(c)
  {
    hide TokensOk, TokenLost, Mean, CacheConfig.NumCg;
    forall i | 0 <= i < n ensures Column(rows, c)(i) == LostOver(m, g, ts, first, n, c)(i) {
      assert RowTrue(m.en.cfg, KSlot, rows[i], g, first + i, ts);
    }
    MeanExt(n, Column(rows, c), LostOver(m, g, ts, first, n, c));
  }

  /** Tokens of a stored slot when its page was processed. */
  function ScoredTokens(m: Manager, st: State, h: nat, kind: Kind, e: Entry): nat
    requires RefersTo(st, kind, PlaceOf(m, h, e), e.slot)
  {
    Live(m.en.cfg, kind, e.group, MetaAt(st, kind, PlaceOf(m, h, e), e.slot).numTokens)
  }

  /** In every state of a run, the error that the router scores a stored slot with is the mean norm of what base storage
    * loses, on the slot's group, of the run's own tokens there. */
  lemma StoredErrorIsLost(m: Manager, st: State, kv: seq<seq<Token>>, n: nat, h: nat, kind: Kind, i: nat)
    requires Holds(m, st, kv, n) && h < m.en.cfg.numKvHeads
    requires i < |Stored(m.en.cfg, kind, ReachedView(m, st, kv, n, h).pages)|
    ensures m.en.Valid() && |kv| == m.en.cfg.numKvHeads && |kv[h]| == n && TokensOk(m.en.cfg, kv[h])
    ensures var e := Stored(m.en.cfg, kind, ReachedView(m, st, kv, n, h).pages)[i];
      && RefersTo(st, kind, PlaceOf(m, h, e), e.slot) && e.group < NumGroups(m.en.cfg, kind)
      && var k := ScoredTokens(m, st, h, kind, e);
      && (k > 0 ==> e.start + k <= n && e.err * k as real == TokenNorms(m, kind, e.group, kv[h], e.start, k))
  {
    hide Inv, Log, Stored, ViewOk, HeadHolds, LayerTrue, Holds, PagesInOrder, ReachedView, RefersTo, TokensOk,
      NumGroups, BlockTrue, BlockStart, RowNorms, TokenNorms;
    RecordOf(m, st, kv, n, h, kind, i);
    var e := Stored(m.en.cfg, kind, ReachedView(m, st, kv, n, h).pages)[i];
    var at := PlaceOf(m, h, e);
    SlotIsTrue(m, st, kv, n, kind, at, e.slot);
    var rows, meta := ArenaOf(st, kind).claims[e.slot].rows, MetaAt(st, kind, at, e.slot);
    LiveWithin(m.en.cfg, kind, e.group, meta.numTokens);
    RowNormsTrue(m, kind, rows, e.page, e.group, meta.numTokens, kv[h], e.start, ScoredTokens(m, st, h, kind, e));
  }

  lemma LiveWithin(cfg: CacheConfig, kind: Kind, g: nat, n: nat)
    ensures Live(cfg, kind, g, n) > 0 ==> BlockStart(cfg, kind, g) + Live(cfg, kind, g, n) <= n
  {
  }

  /** An entry that correction enumerates, and the metadata it was made from. */
  lemma RecordOf(m: Manager, st: State, kv: seq<seq<Token>>, n: nat, h: nat, kind: Kind, i: nat)
    requires Holds(m, st, kv, n) && h < m.en.cfg.numKvHeads
    requires i < |Stored(m.en.cfg, kind, ReachedView(m, st, kv, n, h).pages)|
    ensures m.en.Valid() && Inv(m.en.cfg, st)
    ensures var e := Stored(m.en.cfg, kind, ReachedView(m, st, kv, n, h).pages)[i];
      && e.slot >= 0 && RefersTo(st, kind, PlaceOf(m, h, e), e.slot) && e.group < NumGroups(m.en.cfg, kind)
      && e.start == e.page * m.en.cfg.pageSize + BlockStart(m.en.cfg, kind, e.group)
      && var meta := MetaAt(st, kind, PlaceOf(m, h, e), e.slot);
      && Shaped(meta) && e.group < |Slots(meta, kind)| && RecordedIn(e, meta, kind)
  {
    hide Inv, Log, Stored, ViewOk, HeadHolds, LayerTrue, NumGroups, BlockStart;
    var cfg, view := m.en.cfg, ReachedView(m, st, kv, n, h);
    var e := Stored(cfg, kind, view.pages)[i];
    ReachableView(m, st, kv, n, h);
    Source(cfg, kind, view.pages, i);
    SourceRecord(cfg, kind, view.pages, i);
    Placed(m, st, kv, n, h, kind, i, e.start);
    assert view.pages[e.page] == st.heads[m.en.layer][h].pages[e.page];
  }

  lemma SourceRecord(cfg: CacheConfig, kind: Kind, pages: seq<PageState>, i: nat)
    requires MetaShaped(pages) && i < |Stored(cfg, kind, pages)|
    ensures var e := Stored(cfg, kind, pages)[i];
      && Covers(e, e.start) && e.page < |pages| && pages[e.page].meta.Some? && Shaped(pages[e.page].meta.value)
      && e.group < |Slots(pages[e.page].meta.value, kind)| && RecordedIn(e, pages[e.page].meta.value, kind)
  {
    EntrySource(cfg, kind, pages, |pages|, i);
  }

  /** And the estimate it scores a stored K slot with is the size of the query, on the slot's channels, times the mean
    * of what was lost of those tokens' keys, through the Gram matrix of the projection. */
  lemma StoredEstimate(m: Manager, st: State, kv: seq<seq<Token>>, n: nat, h: nat, i: nat, q: Vec)
    requires Holds(m, st, kv, n) && h < m.en.cfg.numKvHeads
    requires i < |Stored(m.en.cfg, KSlot, ReachedView(m, st, kv, n, h).pages)|
    ensures m.en.Valid() && |kv| == m.en.cfg.numKvHeads && |kv[h]| == n && TokensOk(m.en.cfg, kv[h])
    ensures var e := Stored(m.en.cfg, KSlot, ReachedView(m, st, kv, n, h).pages)[i];
      && RefersTo(st, KSlot, PlaceOf(m, h, e), e.slot) && e.group < m.en.cfg.NumCg()
      && var k := ScoredTokens(m, st, h, KSlot, e);
      && (k > 0 ==>
            e.start + k <= n
            && SketchDot(m.en, q, e)
               == Abs(Sum(0, m.en.cfg.kChannelGroup,
                          ThroughGram(m.en, e.group, q, TokenMeans(m, e.group, kv[h], e.start, k)))))
  {
    hide Inv, Log, Stored, ViewOk, HeadHolds, LayerTrue, Holds, PagesInOrder, ReachedView, RefersTo, TokensOk,
      CacheConfig.NumCg, BlockTrue, RowNorms, SketchDot, Sum, ThroughGram, Abs, ColumnMeans, TokenMeans, Projected;
    RecordOf(m, st, kv, n, h, KSlot, i);
    var e := Stored(m.en.cfg, KSlot, ReachedView(m, st, kv, n, h).pages)[i];
    var at, w := PlaceOf(m, h, e), m.en.cfg.kChannelGroup;
    SlotIsTrue(m, st, kv, n, KSlot, at, e.slot);
    var rows, meta := st.k.claims[e.slot].rows, MetaAt(st, KSlot, at, e.slot);
    var k := meta.numTokens;
    LiveKeys(m.en.cfg, e.group, k);
    RowNormsTrue(m, KSlot, rows, e.page, e.group, k, kv[h], e.start, k);
    if k > 0 {
      var b := TokenMeans(m, e.group, kv[h], e.start, k);
      forall j | 0 <= j < |e.sketch| ensures e.sketch[j] == Projected(m.en.ker.proj, w, b, j) {
        SameMeans(m, rows, e.page, e.group, k, kv[h], e.start, j);
      }
      DotThroughGram(m.en, q, e, b);
    }
  }

  lemma SameMeans(m: Manager, rows: seq<Vec>, p: nat, g: nat, n: nat, ts: seq<Token>, first: nat, j: int)
    requires m.en.Valid() && TokensOk(m.en.cfg, ts) && g < m.en.cfg.NumCg()
    requires BlockTrue(m.en.cfg, KSlot, rows, p, g, n, ts) && n <= |rows| && first == p * m.en.cfg.pageSize
    requires first + n <= |ts|
    ensures Projected(m.en.ker.proj, m.en.cfg.kChannelGroup, ColumnMeans(rows, n), j)
         == Projected(m.en.ker.proj, m.en.cfg.kChannelGroup, TokenMeans(m, g, ts, first, n), j)
  {
    hide TokensOk, CacheConfig.NumCg, BlockTrue, ColumnMeans, TokenMeans, At2;
    var w, a, b := m.en.cfg.kChannelGroup, ColumnMeans(rows, n), TokenMeans(m, g, ts, first, n);
    forall c | 0 <= c < w ensures ProjectedTerm(m.en.ker.proj, a, j)(c) == ProjectedTerm(m.en.ker.proj, b, j)(c) {
      ColumnsTrue(m, rows, p, g, n, ts, first, c);
    }
    SumExt(0, w, ProjectedTerm(m.en.ker.proj, a, j), ProjectedTerm(m.en.ker.proj, b, j));
  }
}
