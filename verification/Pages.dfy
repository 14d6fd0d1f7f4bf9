/** Page and slot records, and the three cursor walks that index stored slots.
  *
  * The router and the V index advance their cursor only over pages that have tokens and metadata;
  * the K index and the page-offset table advance it over every page. */
module Pages {

  import opened Numbers
  import opened Config
  import opened Quantizer
  import opened ResidualPack
  import opened Selection

  datatype PageMeta = PageMeta(
    pageId: nat, layerId: nat, kvHead: nat, tokenStart: int, numTokens: nat,
    kSlots: seq<int>, vSlots: seq<int>, kErr: Vec, vErr: Vec, kSketch: seq<Vec>, prior: real)

  /** One token's row of the base buffers, in storage form. */
  datatype StoredRow = StoredRow(kCodes: seq<Byte>, kScale: Vec, vCodes: seq<Byte>, vScale: Vec)

  datatype PageState = PageState(rows: seq<StoredRow>, valid: nat, meta: Option<PageMeta>)

  /** What correction sees of one (layer, KV head): its pages and the slot buffers. */
  datatype HeadView = HeadView(pages: seq<PageState>, kBuf: seq<Packed>, vBuf: seq<Packed>)

  /** A stored slot, placed in the concatenation of valid tokens. */
  datatype Entry = Entry(page: nat, group: nat, slot: int, start: nat, len: nat,
                         err: real, sketch: Vec)

  predicate MetaOk(cfg: CacheConfig, m: PageMeta, nk: nat, nv: nat)
    requires cfg.Valid()
  {
    && |m.kSlots| == |m.kErr| == |m.kSketch| == cfg.NumCg()
    && |m.vSlots| == |m.vErr| == cfg.NumVb()
    && (forall g :: 0 <= g < |m.kSlots| ==> m.kSlots[g] < nk)
    && (forall g :: 0 <= g < |m.vSlots| ==> m.vSlots[g] < nv)
  }

  /** Shapes only: every slot a page refers to exists and holds a block of its kind's size. */
  predicate ViewOk(cfg: CacheConfig, view: HeadView)
  {
    && cfg.Valid()
    && (forall p :: 0 <= p < |view.pages| ==>
          view.pages[p].valid <= cfg.pageSize
          && (view.pages[p].meta.Some? ==> MetaOk(cfg, view.pages[p].meta.value, |view.kBuf|, |view.vBuf|)))
    && (forall s :: 0 <= s < |view.kBuf| ==>
          view.kBuf[s].Fits(cfg.pageSize * cfg.kChannelGroup, cfg.residualBits))
    && (forall s :: 0 <= s < |view.vBuf| ==>
          view.vBuf[s].Fits(cfg.vTokenBlock * cfg.headDim, cfg.residualBits))
  }

  predicate Active(page: PageState) { page.valid > 0 && page.meta.Some? }

  /** A page with tokens and no metadata: some walks count its tokens, some do not. */
  predicate Gap(page: PageState) { page.valid > 0 && page.meta.None? }

  /** Only the last page may have tokens and no metadata. */
  predicate PagesInOrder(pages: seq<PageState>)
  {
    forall p :: 0 <= p < |pages| - 1 ==> !Gap(pages[p])
  }

  /** Tokens before page `n`; `skip` leaves out the pages without metadata. */
  function Cursor(pages: seq<PageState>, n: nat, skip: bool): nat
    requires n <= |pages|
  {
    if n == 0 then 0
    else Cursor(pages, n - 1, skip) + if skip && !Active(pages[n - 1]) then 0 else pages[n - 1].valid
  }

  function Slots(m: PageMeta, kind: Kind): seq<int> { if kind == KSlot then m.kSlots else m.vSlots }

  /** The rows of its page that slot `g` covers: all of them for K, its token block for V. */
  function BlockStart(cfg: CacheConfig, kind: Kind, g: nat): nat
  {
    if kind == KSlot then 0 else g * cfg.vTokenBlock
  }

  function BlockEnd(cfg: CacheConfig, kind: Kind, g: nat, valid: nat): int
  {
    if kind == KSlot then valid else Min(g * cfg.vTokenBlock + cfg.vTokenBlock, valid)
  }

  predicate Shaped(m: PageMeta)
  {
    |m.kErr| == |m.kSketch| == |m.kSlots| && |m.vErr| == |m.vSlots|
  }

  /** The stored slots among the first `j` groups of page `p`, whose tokens start at `at`. */
  function PageEntries(cfg: CacheConfig, kind: Kind, p: nat, at: nat, valid: nat, m: PageMeta, j: nat)
    : seq<Entry>
    requires Shaped(m)
    requires j <= |Slots(m, kind)|
  {
    if j == 0 then []
    else
      var g, slot := j - 1, Slots(m, kind)[j - 1];
      var before := PageEntries(cfg, kind, p, at, valid, m, g);
      var t0, t1 := BlockStart(cfg, kind, g), BlockEnd(cfg, kind, g, valid);
      if slot < 0 || t1 <= t0 then before
      else before + [Entry(p, g, slot, at + t0, t1 - t0,
                           if kind == KSlot then m.kErr[g] else m.vErr[g],
                           if kind == KSlot then m.kSketch[g] else [])]
  }

  predicate MetaShaped(pages: seq<PageState>)
  {
    forall p :: 0 <= p < |pages| && pages[p].meta.Some? ==> Shaped(pages[p].meta.value)
  }

  /** The stored slots of one kind on the first `n` pages, in page and group order. */
  function Entries(cfg: CacheConfig, kind: Kind, pages: seq<PageState>, n: nat, skip: bool): seq<Entry>
    requires n <= |pages| && MetaShaped(pages)
  {
    if n == 0 then []
    else
      var page := pages[n - 1];
      Entries(cfg, kind, pages, n - 1, skip) +
      if !Active(page) then []
      else PageEntries(cfg, kind, n - 1, Cursor(pages, n - 1, skip), page.valid, page.meta.value,
                       |Slots(page.meta.value, kind)|)
  }

  /** Every stored slot of a kind, by its true position. */
  function Stored(cfg: CacheConfig, kind: Kind, pages: seq<PageState>): seq<Entry>
    requires MetaShaped(pages)
  {
    Entries(cfg, kind, pages, |pages|, false)
  }

  function TokenCount(pages: seq<PageState>): nat { Cursor(pages, |pages|, false) }

  // ---- the four walks agree ----

  lemma {:induction false} CursorsAgree(pages: seq<PageState>, n: nat)
    requires n <= |pages| && forall p :: 0 <= p < n ==> !Gap(pages[p])
    ensures Cursor(pages, n, true) == Cursor(pages, n, false)
  {
    if n == 0 {
    } else {
      CursorsAgree(pages, n - 1);
    }
  }

  lemma {:induction false} EntriesAgreeUpTo(cfg: CacheConfig, kind: Kind, pages: seq<PageState>, n: nat)
    requires n <= |pages| && MetaShaped(pages) && PagesInOrder(pages)
    ensures Entries(cfg, kind, pages, n, true) == Entries(cfg, kind, pages, n, false)
  {
    if n == 0 {
    } else {
      EntriesAgreeUpTo(cfg, kind, pages, n - 1);
      CursorsAgree(pages, n - 1);
    }
  }

  /** On a page table without such a page before the last, the walks that skip pages without metadata
    * give every stored slot the same position as the walks that do not. */
  lemma WalksAgree(cfg: CacheConfig, kind: Kind, pages: seq<PageState>)
    requires MetaShaped(pages) && PagesInOrder(pages)
    ensures Entries(cfg, kind, pages, |pages|, true) == Stored(cfg, kind, pages)
  {
    EntriesAgreeUpTo(cfg, kind, pages, |pages|);
  }

  /** A page without metadata in front of a stored slot separates the walks: the skipping one
    * places the slot too early. */
  lemma WalksDisagree(pages: seq<PageState>, p: nat, q: nat)
    requires p < q < |pages| && Gap(pages[p])
    ensures Cursor(pages, q, true) < Cursor(pages, q, false)
  {
    CursorSkipsLess(pages, p);
    CursorGap(pages, p + 1, q);
  }

  /** Nothing weaker will do: the two kinds of walk reach every page at the same token exactly when no
    * page before the last has tokens and no metadata. */
  lemma CursorsAgreeIff(pages: seq<PageState>)
    ensures (forall q: nat :: q < |pages| ==> Cursor(pages, q, true) == Cursor(pages, q, false))
       <==> PagesInOrder(pages)
  {
    if PagesInOrder(pages) {
      forall q: nat | q < |pages| ensures Cursor(pages, q, true) == Cursor(pages, q, false) { CursorsAgree(pages, q); }
    } else {
      var p :| 0 <= p < |pages| - 1 && Gap(pages[p]);
      WalksDisagree(pages, p, p + 1);
    }
  }

  lemma {:induction false} CursorSkipsLess(pages: seq<PageState>, n: nat)
    requires n <= |pages|
    ensures Cursor(pages, n, true) <= Cursor(pages, n, false)
  {
    if n == 0 {
    } else {
      CursorSkipsLess(pages, n - 1);
    }
  }

  lemma {:induction false} CursorGap(pages: seq<PageState>, m: nat, n: nat)
    requires m <= n <= |pages| && Cursor(pages, m, true) < Cursor(pages, m, false)
    ensures Cursor(pages, n, true) < Cursor(pages, n, false)
    decreases n
  {
    if m == n {
    } else {
      CursorGap(pages, m, n - 1);
    }
  }

  // ---- what the enumeration guarantees ----

  predicate Before(e: Entry, f: Entry) { e.page < f.page || (e.page == f.page && e.group < f.group) }

  /** Entries stand in strict (page, group) order, their tokens exist, and V blocks follow one
    * another without overlap. */
  predicate WellPlaced(es: seq<Entry>, kind: Kind, total: nat)
  {
    && (forall i :: 0 <= i < |es| ==> es[i].start + es[i].len <= total && es[i].slot >= 0)
    && (forall i, j :: 0 <= i < j < |es| ==> Before(es[i], es[j]))
    && (kind == VSlot ==> forall i, j :: 0 <= i < j < |es| ==> es[i].start + es[i].len <= es[j].start)
  }

  lemma WellPlacedConcat(a: seq<Entry>, b: seq<Entry>, kind: Kind, mid: nat, total: nat)
    requires WellPlaced(a, kind, mid) && WellPlaced(b, kind, total) && mid <= total
    requires forall i, j :: 0 <= i < |a| && 0 <= j < |b| ==> Before(a[i], b[j])
    requires kind == VSlot ==>
      forall i, j :: 0 <= i < |a| && 0 <= j < |b| ==> a[i].start + a[i].len <= b[j].start
    ensures WellPlaced(a + b, kind, total)
  {
    hide Before;
  }

  lemma WellPlacedNone(kind: Kind, total: nat)
    ensures WellPlaced([], kind, total)
  {
  }

  lemma WellPlacedOne(e: Entry, kind: Kind, total: nat)
    requires e.start + e.len <= total && e.slot >= 0
    ensures WellPlaced([e], kind, total)
  {
  }

  lemma WellPlacedMore(a: seq<Entry>, kind: Kind, mid: nat, total: nat)
    requires WellPlaced(a, kind, mid) && mid <= total
    ensures WellPlaced(a, kind, total)
  {
  }

  lemma WellPlacedStack(a: seq<Entry>, b: seq<Entry>, kind: Kind, mid: nat, total: nat, p: nat)
    requires WellPlaced(a, kind, mid) && WellPlaced(b, kind, total) && mid <= total
    requires forall i :: 0 <= i < |a| ==> a[i].page < p
    requires forall j :: 0 <= j < |b| ==> b[j].page == p && mid <= b[j].start
    ensures WellPlaced(a + b, kind, total) && forall i :: 0 <= i < |a + b| ==> (a + b)[i].page < p + 1
  {
    WellPlacedConcat(a, b, kind, mid, total);
  }

  lemma {:induction false} PageWellPlaced(cfg: CacheConfig, kind: Kind, p: nat, at: nat, valid: nat, m: PageMeta,
                                          j: nat)
    requires Shaped(m)
    requires j <= |Slots(m, kind)|
    ensures var es := PageEntries(cfg, kind, p, at, valid, m, j);
      && WellPlaced(es, kind, at + valid)
      && (forall i :: 0 <= i < |es| ==> es[i].page == p && es[i].group < j && at <= es[i].start)
      && (kind == VSlot ==> forall i :: 0 <= i < |es| ==> es[i].start + es[i].len <= at + j * cfg.vTokenBlock)
  {
    hide WellPlaced;
    if j == 0 {
      WellPlacedNone(kind, at + valid);
    } else {
      PageWellPlaced(cfg, kind, p, at, valid, m, j - 1);
      assert (j - 1) * cfg.vTokenBlock + cfg.vTokenBlock == j * cfg.vTokenBlock;
      var before, es := PageEntries(cfg, kind, p, at, valid, m, j - 1), PageEntries(cfg, kind, p, at, valid, m, j);
      if |es| > |before| {
        WellPlacedOne(es[|before|], kind, at + valid);
        WellPlacedConcat(before, [es[|before|]], kind, at + valid, at + valid);
      }
    }
  }

  lemma {:induction false} CursorMonotone(pages: seq<PageState>, m: nat, n: nat, skip: bool)
    requires m <= n <= |pages|
    ensures Cursor(pages, m, skip) <= Cursor(pages, n, skip)
    decreases n
  {
    if m == n {
    } else {
      CursorMonotone(pages, m, n - 1, skip);
    }
  }

  lemma {:induction false} EntriesWellPlaced(cfg: CacheConfig, kind: Kind, pages: seq<PageState>, n: nat, skip: bool)
    requires n <= |pages| && MetaShaped(pages)
    ensures var es := Entries(cfg, kind, pages, n, skip);
      WellPlaced(es, kind, Cursor(pages, n, skip)) && forall i :: 0 <= i < |es| ==> es[i].page < n
  {
    hide PageEntries, WellPlaced;
    if n == 0 {
      WellPlacedNone(kind, Cursor(pages, n, skip));
    } else {
      EntriesWellPlaced(cfg, kind, pages, n - 1, skip);
      var page := pages[n - 1];
      if !Active(page) {
        var before := Entries(cfg, kind, pages, n - 1, skip);
        assert before + [] == before;
        WellPlacedMore(before, kind, Cursor(pages, n - 1, skip), Cursor(pages, n, skip));
      } else {
        var at, groups := Cursor(pages, n - 1, skip), |Slots(page.meta.value, kind)|;
        PageWellPlaced(cfg, kind, n - 1, at, page.valid, page.meta.value, groups);
        WellPlacedStack(Entries(cfg, kind, pages, n - 1, skip),
                        PageEntries(cfg, kind, n - 1, at, page.valid, page.meta.value, groups),
                        kind, at, at + page.valid, n - 1);
      }
    }
  }

  /** Every entry is one of the slots its page's metadata refers to. */
  /** An entry's error and sketch are those its page's metadata records for its group. */
  predicate RecordedIn(e: Entry, m: PageMeta, kind: Kind)
    requires Shaped(m) && e.group < |Slots(m, kind)|
  {
    e.err == (if kind == KSlot then m.kErr[e.group] else m.vErr[e.group])
    && (kind == KSlot ==> e.sketch == m.kSketch[e.group])
  }

  lemma {:induction false} PageEntrySource(cfg: CacheConfig, kind: Kind, p: nat, at: nat, valid: nat, m: PageMeta,
                                           j: nat, i: nat)
    requires Shaped(m) && j <= |Slots(m, kind)|
    requires i < |PageEntries(cfg, kind, p, at, valid, m, j)|
    ensures var e := PageEntries(cfg, kind, p, at, valid, m, j)[i];
      e.page == p && e.group < j && e.slot == Slots(m, kind)[e.group] && e.slot >= 0 && e.len > 0
      && e.start == at + BlockStart(cfg, kind, e.group)
      && e.start + e.len == at + BlockEnd(cfg, kind, e.group, valid)
      && RecordedIn(e, m, kind)
  {
    if i < |PageEntries(cfg, kind, p, at, valid, m, j - 1)| { PageEntrySource(cfg, kind, p, at, valid, m, j - 1, i); }
  }

  lemma {:induction false} EntrySource(cfg: CacheConfig, kind: Kind, pages: seq<PageState>, n: nat, i: nat)
    requires n <= |pages| && MetaShaped(pages) && i < |Entries(cfg, kind, pages, n, false)|
    ensures var e := Entries(cfg, kind, pages, n, false)[i];
      && e.page < n && Active(pages[e.page])
      && var m := pages[e.page].meta.value;
      e.group < |Slots(m, kind)| && e.slot == Slots(m, kind)[e.group] && e.slot >= 0 && e.len > 0
      && e.start == Cursor(pages, e.page, false) + BlockStart(cfg, kind, e.group)
      && e.start + e.len == Cursor(pages, e.page, false) + BlockEnd(cfg, kind, e.group, pages[e.page].valid)
      && RecordedIn(e, m, kind)
  {
    var before := Entries(cfg, kind, pages, n - 1, false);
    if i < |before| {
      EntrySource(cfg, kind, pages, n - 1, i);
    } else {
      var page := pages[n - 1];
      PageEntrySource(cfg, kind, n - 1, Cursor(pages, n - 1, false), page.valid, page.meta.value,
                      |Slots(page.meta.value, kind)|, i - |before|);
    }
  }
}
