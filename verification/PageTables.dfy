/** The page-table invariant: how pages fill, where tokens sit, and what correction may rely on. */
module PageTables {

  import opened Numbers
  import opened Config
  import opened Selection
  import opened Pages
  import opened BaseRows
  import opened SlotArena
  import opened CacheState

  /** Earlier pages are full, so page `p` starts at token `p * pageSize`. */
  lemma {:induction false} PageStart(cfg: CacheConfig, hd: Head, total: nat, p: nat)
    requires cfg.Valid() && PageTable(cfg, hd, total) && p <= hd.next
    ensures p <= |hd.pages| && Cursor(hd.pages, p, false) == Min(p * cfg.pageSize, total)
  {
    hide HeadOk;
    HeadFilled(cfg, hd);
    if p == 0 {
    } else {
      PageStart(cfg, hd, total, p - 1);
      assert TablePage(cfg, hd.pages[p - 1], p - 1, total);
      assert p * cfg.pageSize == (p - 1) * cfg.pageSize + cfg.pageSize;
      BlocksApartOrSame(p - 1, hd.next - 1, cfg.pageSize);
    }
  }

  lemma BlocksApartOrSame(i: nat, j: nat, w: nat)
    requires i <= j
    ensures i * w <= j * w
  {
    if i < j { BlocksApart(i, j, w); }
  }

  /** The stored token count of a page table. */
  lemma TableCounts(cfg: CacheConfig, hd: Head, total: nat)
    requires cfg.Valid() && PageTable(cfg, hd, total)
    ensures HeadOk(cfg, hd) && |Log(cfg, hd)| == total && Cursor(hd.pages, hd.next, false) == total
  {
    PageStart(cfg, hd, total, hd.next);
  }

  lemma {:induction false} CursorPrefix(a: seq<PageState>, b: seq<PageState>, n: nat, skip: bool)
    requires n <= |a| && n <= |b| && a[..n] == b[..n]
    ensures Cursor(a, n, skip) == Cursor(b, n, skip)
  {
    if n == 0 {
    } else {
      assert a[..n][n - 1] == a[n - 1] && b[..n][n - 1] == b[n - 1];
      assert a[..n - 1] == a[..n][..n - 1] && b[..n - 1] == b[..n][..n - 1];
      CursorPrefix(a, b, n - 1, skip);
    }
  }

  /** Every page but the last is full, so only the last can be empty or lack metadata: what the cursor
    * walks need to agree. */
  lemma TableInOrder(cfg: CacheConfig, hd: Head, total: nat)
    requires cfg.Valid() && PageTable(cfg, hd, total)
    ensures hd.next <= |hd.pages| && PagesInOrder(hd.pages[..hd.next]) && TokenCount(hd.pages[..hd.next]) == total
    ensures forall p :: 0 <= p < hd.next - 1 ==> hd.pages[p].valid == cfg.pageSize && Active(hd.pages[p])
  {
    hide HeadOk, TablePage;
    HeadFilled(cfg, hd);
    TableCounts(cfg, hd, total);
    CursorPrefix(hd.pages, hd.pages[..hd.next], hd.next, false);
    forall p | 0 <= p < hd.next - 1 ensures hd.pages[p].valid == cfg.pageSize && Active(hd.pages[p]) {
      FullPage(cfg, hd, total, p);
    }
  }

  lemma FullPage(cfg: CacheConfig, hd: Head, total: nat, p: nat)
    requires cfg.Valid() && PageTable(cfg, hd, total) && p + 1 < hd.next
    ensures hd.next <= |hd.pages| && hd.pages[p].valid == cfg.pageSize && Active(hd.pages[p])
  {
    hide HeadOk;
    HeadFilled(cfg, hd);
    BlocksApartOrSame(p + 1, hd.next - 1, cfg.pageSize);
    assert (p + 1) * cfg.pageSize == p * cfg.pageSize + cfg.pageSize;
    assert TablePage(cfg, hd.pages[p], p, total);
  }

  /** The last page is non-empty, and open exactly when the total is short of its end. */
  lemma LastPage(cfg: CacheConfig, hd: Head, total: nat)
    requires cfg.Valid() && PageTable(cfg, hd, total) && hd.next > 0
    ensures hd.next <= |hd.pages|
    ensures hd.pages[hd.next - 1].valid == total - (hd.next - 1) * cfg.pageSize
    ensures 0 < hd.pages[hd.next - 1].valid <= cfg.pageSize
    ensures OpenPage(cfg, hd).Some? <==> total < hd.next * cfg.pageSize
  {
    HeadFilled(cfg, hd);
    assert hd.next * cfg.pageSize == (hd.next - 1) * cfg.pageSize + cfg.pageSize;
    assert TablePage(cfg, hd.pages[hd.next - 1], hd.next - 1, total);
  }

  // ---- what correction sees ----

  function View(st: State, l: nat, h: nat): HeadView
    requires l < |st.heads| && h < |st.heads[l]| && st.heads[l][h].next <= |st.heads[l][h].pages|
  {
    var hd := st.heads[l][h];
    HeadView(hd.pages[..hd.next], st.k.buf, st.v.buf)
  }

  lemma SlotsInArena(cfg: CacheConfig, kind: Kind, a: Arena, m: PageMeta, l: nat, h: nat, p: nat)
    requires SlotsOk(cfg, kind, a, m, l, h, p) && Partition(a)
    ensures forall g :: 0 <= g < |Slots(m, kind)| ==> Slots(m, kind)[g] < |a.buf|
  {
    forall g | 0 <= g < |Slots(m, kind)| ensures Slots(m, kind)[g] < |a.buf| {
      assert SlotOk(cfg, kind, a, Slots(m, kind)[g], Position(l, h, p, g), m.numTokens);
    }
  }

  lemma MetaInArena(cfg: CacheConfig, k: Arena, v: Arena, page: PageState, l: nat, h: nat, p: nat)
    requires cfg.Valid() && PageRefs(cfg, k, v, page, l, h, p) && Partition(k) && Partition(v)
    ensures page.meta.Some? ==> MetaOk(cfg, page.meta.value, |k.buf|, |v.buf|) && Shaped(page.meta.value)
  {
    hide SlotsOk, Partition;
    if page.meta.Some? {
      SlotsInArena(cfg, KSlot, k, page.meta.value, l, h, p);
      SlotsInArena(cfg, VSlot, v, page.meta.value, l, h, p);
      assert Slots(page.meta.value, KSlot) == page.meta.value.kSlots;
      assert Slots(page.meta.value, VSlot) == page.meta.value.vSlots;
    }
  }

  /** In every state that keeps the invariant, a head with a page table gives correction a well-formed
    * view whose token offsets agree in all four walks. */
  lemma ViewSound(cfg: CacheConfig, st: State, l: nat, h: nat, total: nat)
    requires Inv(cfg, st) && l < cfg.numLayers && h < cfg.numKvHeads && PageTable(cfg, st.heads[l][h], total)
    ensures st.heads[l][h].next <= |st.heads[l][h].pages|
    ensures var view := View(st, l, h);
      && ViewOk(cfg, view) && MetaShaped(view.pages) && PagesInOrder(view.pages) && TokenCount(view.pages) == total
      && (forall kind :: Entries(cfg, kind, view.pages, |view.pages|, true) == Stored(cfg, kind, view.pages))
  {
    hide PageRefs, PageTable, MetaOk, Intact, Partition, Entries;
    OneHead(cfg, st, l, h);
    var hd := st.heads[l][h];
    TableInOrder(cfg, hd, total);
    forall p | 0 <= p < |hd.pages| && hd.pages[p].meta.Some?
      ensures MetaOk(cfg, hd.pages[p].meta.value, |st.k.buf|, |st.v.buf|) && Shaped(hd.pages[p].meta.value)
    {
      MetaInArena(cfg, st.k, st.v, hd.pages[p], l, h, p);
    }
    var view := View(st, l, h);
    forall p | 0 <= p < |view.pages| ensures view.pages[p] == hd.pages[p] && PageOk(cfg, hd.pages[p]) {}
    forall kind ensures Entries(cfg, kind, view.pages, |view.pages|, true) == Stored(cfg, kind, view.pages) {
      WalksAgree(cfg, kind, view.pages);
    }
  }

  // ---- appending ----

  /** The page a decoded token goes to: the open one, or a new one emptied first. */
  function Opened(cfg: CacheConfig, hd: Head): Option<Head>
    requires HeadOk(cfg, hd)
  {
    if OpenPage(cfg, hd).Some? then Some(hd)
    else
      match AllocPage(cfg, hd)
      case None => None
      case Some(more) => Some(SetPage(more, hd.next, more.pages[hd.next].(valid := 0)))
  }

  lemma OpenedIsOpen(cfg: CacheConfig, k: Arena, v: Arena, hd: Head, l: nat, h: nat)
    requires cfg.Valid() && HeadOk(cfg, hd) && HeadRefs(cfg, k, v, hd, l, h) && Opened(cfg, hd).Some?
    ensures var more := Opened(cfg, hd).value;
      && HeadOk(cfg, more) && HeadRefs(cfg, k, v, more, l, h) && more.next > 0
      && more.pages[more.next - 1].valid < cfg.pageSize == |more.pages[more.next - 1].rows|
      && Log(cfg, more) == Log(cfg, hd)
  {
    hide PageRefs, HeadRefs, RowOk;
    HeadFilled(cfg, hd);
    if OpenPage(cfg, hd).None? {
      AllocKeeps(cfg, k, v, hd, l, h);
      var more := Opened(cfg, hd).value;
      assert more.pages == hd.pages;
      RowsExt(hd.pages, more.pages, hd.next);
    }
  }

  /** The head after one token is appended to its open page. */
  lemma AppendKeeps(cfg: CacheConfig, k: Arena, v: Arena, hd: Head, row: StoredRow, l: nat, h: nat)
    requires cfg.Valid() && HeadOk(cfg, hd) && HeadRefs(cfg, k, v, hd, l, h) && RowOk(cfg, row)
    requires hd.next > 0 && hd.pages[hd.next - 1].valid < cfg.pageSize
    ensures var more := AppendRow(hd, hd.next - 1, row);
      && HeadOk(cfg, more) && HeadRefs(cfg, k, v, more, l, h)
      && Log(cfg, more) == Log(cfg, hd) + [row]
  {
    hide RowOk, SlotsOk, MetaComplete;
    HeadFilled(cfg, hd);
    var n := hd.next - 1;
    var page, more := hd.pages[n], AppendRow(hd, n, row);
    var new_ := page.(rows := page.rows[page.valid := row], valid := page.valid + 1);
    assert PageOk(cfg, page) && PageRefs(cfg, k, v, page, l, h, n);
    PageStep(cfg, k, v, hd, n, new_, l, h);
    RowsExt(hd.pages, more.pages, n);
    assert new_.rows[..new_.valid] == page.rows[..page.valid] + [row];
    HeadFilled(cfg, more);
  }

  /** Metadata does not touch the token log. */
  lemma MetaKeepsLog(cfg: CacheConfig, hd: Head, p: nat, m: PageMeta)
    requires HeadOk(cfg, hd) && p < hd.next
    ensures HeadOk(cfg, SetMeta(hd, p, m)) && Log(cfg, SetMeta(hd, p, m)) == Log(cfg, hd)
  {
    hide RowOk;
    HeadFilled(cfg, hd);
    assert PageOk(cfg, hd.pages[p]);
    RowsExt(hd.pages, SetMeta(hd, p, m).pages, hd.next);
  }

  /** A table short of its capacity always has a page for one more token. */
  lemma OpenedTable(cfg: CacheConfig, hd: Head, total: nat)
    requires cfg.Valid() && PageTable(cfg, hd, total)
    ensures Opened(cfg, hd).Some? <==> total < cfg.maxPages * cfg.pageSize
    ensures Opened(cfg, hd).Some? ==>
      var more := Opened(cfg, hd).value;
      && 0 < more.next <= |more.pages| && more.pages == hd.pages
      && more.pages[more.next - 1].valid == total - (more.next - 1) * cfg.pageSize < cfg.pageSize
      && (forall p :: 0 <= p < more.next - 1 ==> TablePage(cfg, more.pages[p], p,
                                                           total) && more.pages[p].valid == cfg.pageSize)
      && (more.pages[more.next - 1].meta.Some? ==>
            more.pages[more.next - 1].meta.value.tokenStart == (more.next - 1) * cfg.pageSize)
  {
    hide TablePage, RowOk;
    HeadFilled(cfg, hd);
    if hd.next > 0 { LastPage(cfg, hd, total); }
    BlocksApartOrSame(hd.next, cfg.maxPages, cfg.pageSize);
    forall p | 0 <= p < hd.next ensures hd.pages[p].valid <= cfg.pageSize { assert PageOk(cfg, hd.pages[p]); }
    forall p | 0 <= p < hd.next - 1 ensures hd.pages[p].valid == cfg.pageSize { FullPage(cfg, hd, total, p); }
    if OpenPage(cfg, hd).Some? {
      BlocksApartOrSame(hd.next, cfg.maxPages, cfg.pageSize);
      assert TablePage(cfg, hd.pages[hd.next - 1], hd.next - 1, total);
      TableStart(cfg, hd.pages[hd.next - 1], hd.next - 1, total);
    } else if AllocPage(cfg, hd).Some? {
      assert Unused(hd.pages[hd.next]);
      BlocksApart(hd.next, cfg.maxPages, cfg.pageSize);
      assert Opened(cfg, hd).value.pages == hd.pages;
    }
  }

  lemma TableStart(cfg: CacheConfig, page: PageState, p: nat, total: nat)
    requires TablePage(cfg, page, p, total)
    ensures page.meta.Some? ==> page.meta.value.tokenStart == p * cfg.pageSize
  {
  }
}
