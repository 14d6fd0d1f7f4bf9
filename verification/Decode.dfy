/** One token appended to one KV head, and the page it may complete. */
module Decode {

  import opened Numbers
  import opened Config
  import opened Pages
  import opened BaseRows
  import opened SlotArena
  import opened CacheState
  import opened PageTables
  import opened StorePlan
  import opened StoreStep
  import opened LayerSteps

  /** A page just filled by decode is processed against itself: the dequantized rows stand in for the
    * originals, which are gone. */
  function RefillInput(cfg: CacheConfig, page: PageState, pos: nat): (x: PageInput)
    requires cfg.Valid() && PageOk(cfg, page)
    ensures InputOk(cfg, x) && x.kOrig == x.kHat && x.vOrig == x.vHat
  {
    var k := seq(cfg.pageSize, i requires 0 <= i < cfg.pageSize => HatK(cfg, page.rows[i]));
    var v := seq(cfg.pageSize, i requires 0 <= i < cfg.pageSize => HatV(cfg, page.rows[i]));
    PageInput(k, v, k, v, pos + 1 - cfg.pageSize, cfg.pageSize, true, pos + 1 - cfg.pageSize < 4)
  }

  /** The head with the token appended. */
  ghost function Appended(m: Manager, st: State, h: nat, t: Token): Option<Head>
    requires Ready(m, st, h) && TokenOk(m.en.cfg, t)
  {
    OneHead(m.en.cfg, st, m.en.layer, h);
    var hd := HeadAt(m, st, h);
    match Opened(m.en.cfg, hd)
    case None => None
    case Some(more) =>
      OpenedIsOpen(m.en.cfg, st.k, st.v, hd, m.en.layer, h);
      Some(AppendRow(more, more.next - 1, EncodeRow(m.en.cfg, t)))
  }

  lemma AppendedKeeps(m: Manager, st: State, h: nat, t: Token)
    requires Ready(m, st, h) && TokenOk(m.en.cfg, t) && Appended(m, st, h, t).Some?
    ensures var cfg, hd, hd' := m.en.cfg, HeadAt(m, st, h), Appended(m, st, h, t).value;
      var st' := WithHead(m, st, h, hd');
      && Ready(m, st', h) && HeadAt(m, st', h) == hd' && st'.k == st.k && st'.v == st.v
      && 0 < hd'.next <= |hd'.pages| && PageOk(cfg, hd'.pages[hd'.next - 1])
      && Log(cfg, hd') == Log(cfg, hd) + [EncodeRow(cfg, t)]
      && Target(m, st', h, hd'.next - 1) && OnlyHead(st, st', m.en.layer, h) && Grows(st, st')
  {
    hide Inv, HeadRefs, RowOk, EncodeRow, OpenPage, OnlyHead;
    var cfg, hd := m.en.cfg, HeadAt(m, st, h);
    OneHead(cfg, st, m.en.layer, h);
    OpenedIsOpen(cfg, st.k, st.v, hd, m.en.layer, h);
    EncodedOk(cfg, t);
    var more := Opened(cfg, hd).value;
    AppendKeeps(cfg, st.k, st.v, more, EncodeRow(cfg, t), m.en.layer, h);
    var hd' := Appended(m, st, h, t).value;
    HeadReplaced(m, st, h, hd');
    OneHead(cfg, WithHead(m, st, h, hd'), m.en.layer, h);
    OnlyHeadSet(st, m.en.layer, h, hd', st.k, st.v);
    GrowsSelf(st);
    InvFramed(cfg, WithHead(m, st, h, hd'));
  }

  lemma InvFramed(cfg: CacheConfig, st: State)
    requires Inv(cfg, st)
    ensures Framed(cfg, st)
  {
  }

  /** One head of `decode_step`. */
  ghost function DecodeHead(m: Manager, st: State, h: nat, t: Token, pos: nat): Option<State>
    requires Ready(m, st, h) && TokenOk(m.en.cfg, t)
  {
    match Appended(m, st, h, t)
    case None => None
    case Some(hd) =>
      AppendedKeeps(m, st, h, t);
      var st' := WithHead(m, st, h, hd);
      if hd.pages[hd.next - 1].valid == m.en.cfg.pageSize then
        Process(m, st', h, hd.next - 1, RefillInput(m.en.cfg, hd.pages[hd.next - 1], pos))
      else Some(st')
  }

  /** Decoding appends exactly the new row, fails only when the cache has no page left for it, and takes
    * no slot even when it completes a page. */
  lemma DecodedHead(m: Manager, st: State, h: nat, t: Token, pos: nat)
    requires Ready(m, st, h) && TokenOk(m.en.cfg, t) && NormOk(m.en.ker)
    ensures DecodeHead(m, st, h, t, pos).Some? <==> Opened(m.en.cfg, HeadAt(m, st, h)).Some?
    ensures DecodeHead(m, st, h, t, pos).Some? ==>
      var st' := DecodeHead(m, st, h, t, pos).value;
      && Ready(m, st', h) && Grows(st, st') && OnlyHead(st, st', m.en.layer, h)
      && st'.k == st.k && st'.v == st.v
      && Log(m.en.cfg, HeadAt(m, st', h)) == Log(m.en.cfg, HeadAt(m, st, h)) + [EncodeRow(m.en.cfg, t)]
  {
    hide Inv, HeadOk, Log, NormOk, Process, RefillInput, Opened, AppendRow, EncodeRow, OnlyHead, Extends, WithHead,
      PageOk;
    if Appended(m, st, h, t).Some? {
      AppendedKeeps(m, st, h, t);
      var hd := Appended(m, st, h, t).value;
      var mid := WithHead(m, st, h, hd);
      if hd.pages[hd.next - 1].valid == m.en.cfg.pageSize {
        var x := RefillInput(m.en.cfg, hd.pages[hd.next - 1], pos);
        RefillValid(m.en.cfg, hd.pages[hd.next - 1], pos);
        ReprocessTakesNothing(m, mid, h, hd.next - 1, x);
        Processed(m, mid, h, hd.next - 1, x);
        var st' := Process(m, mid, h, hd.next - 1, x).value;
        OnlyHeadTrans(st, mid, st', m.en.layer, h);
        GrowsTrans(st, mid, st');
      }
    }
  }

  lemma RefillValid(cfg: CacheConfig, page: PageState, pos: nat)
    requires cfg.Valid() && PageOk(cfg, page)
    ensures var x := RefillInput(cfg, page, pos); x.valid == cfg.pageSize && x.start == pos + 1 - cfg.pageSize
  {
  }

  /** Processing a page that has just become full completes the page table. */
  lemma RefilledTable(m: Manager, st: State, h: nat, p: nat, total: nat)
    requires Ready(m, st, h) && Target(m, st, h, p) && NormOk(m.en.ker) && p + 1 == HeadAt(m, st, h).next
    requires NearlyTable(m.en.cfg, HeadAt(m, st, h), total + 1)
    requires HeadAt(m, st, h).pages[p].valid == m.en.cfg.pageSize && PageOk(m.en.cfg, HeadAt(m, st, h).pages[p])
    ensures var r := Process(m, st, h, p, RefillInput(m.en.cfg, HeadAt(m, st, h).pages[p], total));
      r.Some? && Ready(m, r.value, h) && PageTable(m.en.cfg, HeadAt(m, r.value, h), total + 1)
  {
    hide Inv, Log, NormOk, Process, RefillInput, OnlyHead, PageOk, PageTable, FullAt, Grows;
    var page := HeadAt(m, st, h).pages[p];
    var x := RefillInput(m.en.cfg, page, total);
    RefillValid(m.en.cfg, page, total);
    RefillStart(m.en.cfg, HeadAt(m, st, h), total);
    ReprocessTakesNothing(m, st, h, p, x);
    Processed(m, st, h, p, x);
    var hd := HeadAt(m, Process(m, st, h, p, x).value, h);
    NearlySame(m.en.cfg, HeadAt(m, st, h), hd, total + 1);
    CompletedTable(m.en.cfg, hd, total + 1);
  }

  lemma RefillStart(cfg: CacheConfig, hd: Head, total: nat)
    requires NearlyTable(cfg, hd, total + 1) && hd.pages[hd.next - 1].valid == cfg.pageSize
    ensures total + 1 - cfg.pageSize == (hd.next - 1) * cfg.pageSize
  {
  }

  /** Metadata of the last page aside, two heads that agree are equally far. */
  lemma NearlySame(cfg: CacheConfig, hd: Head, hd': Head, total: nat)
    requires NearlyTable(cfg, hd, total) && hd'.next == hd.next && |hd'.pages| == |hd.pages|
    requires forall q :: 0 <= q < hd.next - 1 ==> hd'.pages[q] == hd.pages[q]
    requires var page := hd'.pages[hd.next - 1];
      && page.valid == hd.pages[hd.next - 1].valid
      && (page.meta.Some? ==> page.meta.value.tokenStart == (hd.next - 1) * cfg.pageSize)
    ensures NearlyTable(cfg, hd', total)
  {
    hide FullAt;
  }

  /** The page table survives decoding, provided the position passed is the number of stored tokens. */
  lemma DecodedTable(m: Manager, st: State, h: nat, t: Token, total: nat)
    requires Ready(m, st, h) && TokenOk(m.en.cfg, t) && NormOk(m.en.ker)
    requires PageTable(m.en.cfg, HeadAt(m, st, h), total)
    ensures DecodeHead(m, st, h, t, total).Some? <==> total < m.en.cfg.maxPages * m.en.cfg.pageSize
    ensures DecodeHead(m, st, h, t, total).Some? ==>
      Ready(m, DecodeHead(m, st, h, t, total).value, h)
      && PageTable(m.en.cfg, HeadAt(m, DecodeHead(m, st, h, t, total).value, h), total + 1)
  {
    hide Inv, HeadOk, Log, NormOk, Process, RefillInput, Opened, EncodeRow, OnlyHead, Extends, WithHead, PageOk,
      PageTable, TablePage, Grows;
    var cfg, hd := m.en.cfg, HeadAt(m, st, h);
    DecodedHead(m, st, h, t, total);
    OpenedTable(cfg, hd, total);
    if Appended(m, st, h, t).Some? {
      AppendedKeeps(m, st, h, t);
      AppendedPages(m, st, h, t, total);
      var more := Appended(m, st, h, t).value;
      var mid, p := WithHead(m, st, h, more), more.next - 1;
      if more.pages[p].valid == cfg.pageSize {
        RefilledTable(m, mid, h, p, total);
      } else {
        CompletedTable(cfg, more, total + 1);
      }
    }
  }

  /** Everything about a head but the metadata of a page that has just become full. */
  ghost predicate NearlyTable(cfg: CacheConfig, hd: Head, total: nat)
  {
    && 0 < hd.next <= |hd.pages|
    && hd.pages[hd.next - 1].valid == total - (hd.next - 1) * cfg.pageSize
    && 0 < hd.pages[hd.next - 1].valid <= cfg.pageSize
    && (forall p :: 0 <= p < hd.next - 1 ==> FullAt(cfg, hd.pages[p], p))
    && (hd.pages[hd.next - 1].meta.Some? ==>
          hd.pages[hd.next - 1].meta.value.tokenStart == (hd.next - 1) * cfg.pageSize)
  }

  predicate FullAt(cfg: CacheConfig, page: PageState, p: nat)
  {
    page.valid == cfg.pageSize && page.meta.Some? && page.meta.value.numTokens == cfg.pageSize
    && page.meta.value.tokenStart == p * cfg.pageSize
  }

  lemma FullIsFull(cfg: CacheConfig, page: PageState, p: nat, total: nat)
    requires TablePage(cfg, page, p, total) && page.valid == cfg.pageSize
    ensures FullAt(cfg, page, p)
  {
  }

  lemma FullInTable(cfg: CacheConfig, page: PageState, p: nat, n: nat, total: nat)
    requires FullAt(cfg, page, p) && p < n && n * cfg.pageSize <= total
    ensures TablePage(cfg, page, p, total)
  {
    BlocksApart(p, n, cfg.pageSize);
  }

  lemma AppendedPages(m: Manager, st: State, h: nat, t: Token, total: nat)
    requires Ready(m, st, h) && TokenOk(m.en.cfg, t) && Appended(m, st, h, t).Some?
    requires PageTable(m.en.cfg, HeadAt(m, st, h), total)
    ensures NearlyTable(m.en.cfg, Appended(m, st, h, t).value, total + 1)
  {
    hide Inv, HeadOk, HeadRefs, EncodeRow, Opened, TablePage, PageTable, FullAt;
    var cfg, hd := m.en.cfg, HeadAt(m, st, h);
    OneHead(cfg, st, m.en.layer, h);
    OpenedTable(cfg, hd, total);
    OpenedIsOpen(cfg, st.k, st.v, hd, m.en.layer, h);
    var more := Opened(cfg, hd).value;
    forall p | 0 <= p < more.next - 1 ensures FullAt(cfg, more.pages[p], p) {
      FullIsFull(cfg, more.pages[p], p, total);
    }
  }

  lemma CompletedTable(cfg: CacheConfig, hd: Head, total: nat)
    requires cfg.Valid() && HeadOk(cfg, hd) && NearlyTable(cfg, hd, total)
    requires var page := hd.pages[hd.next - 1];
      page.valid == cfg.pageSize ==> page.meta.Some? && page.meta.value.numTokens == cfg.pageSize
    ensures PageTable(cfg, hd, total)
  {
    hide HeadOk, FullAt;
    var n := hd.next - 1;
    assert hd.next * cfg.pageSize == n * cfg.pageSize + cfg.pageSize;
    forall p | 0 <= p < hd.next ensures TablePage(cfg, hd.pages[p], p, total) {
      if p < n { FullInTable(cfg, hd.pages[p], p, n, total); }
    }
  }
}
