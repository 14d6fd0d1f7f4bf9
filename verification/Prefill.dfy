/** A whole prompt: every page of every KV head, and what the cache then holds. */
module Prefill {

  import opened Numbers
  import opened Config
  import opened Pages
  import opened Selection
  import opened BaseRows
  import opened SlotArena
  import opened CacheState
  import opened StorePlan
  import opened StoreStep
  import opened LayerSteps

  /** `n` more pages holding `rows` more tokens on head `h`; nothing stored elsewhere changes. */
  ghost predicate Wrote(m: Manager, st: State, st': State, h: nat, n: nat, rows: seq<StoredRow>)
    requires Ready(m, st, h)
  {
    && Ready(m, st', h) && Grows(st, st') && OnlyHead(st, st', m.en.layer, h)
    && HeadAt(m, st', h).next == HeadAt(m, st, h).next + n
    && Log(m.en.cfg, HeadAt(m, st', h)) == Log(m.en.cfg, HeadAt(m, st, h)) + rows
  }

  lemma WroteNothing(m: Manager, st: State, h: nat)
    requires Ready(m, st, h)
    ensures Wrote(m, st, st, h, 0, [])
  {
    hide Inv, HeadAt, Log, Extends, OnlyHead;
    GrowsSelf(st);
    OnlyHeadSelf(st, m.en.layer, h);
    assert Log(m.en.cfg, HeadAt(m, st, h)) + [] == Log(m.en.cfg, HeadAt(m, st, h));
  }

  lemma WroteTrans(m: Manager, a: State, b: State, c: State, h: nat, n: nat, r: seq<StoredRow>, n': nat,
                   r': seq<StoredRow>)
    requires Ready(m, a, h) && Wrote(m, a, b, h, n, r) && Wrote(m, b, c, h, n', r')
    ensures Wrote(m, a, c, h, n + n', r + r')
  {
    hide Inv, HeadAt, Log, Extends, OnlyHead;
    GrowsTrans(a, b, c);
    OnlyHeadTrans(a, b, c, m.en.layer, h);
    var log := Log(m.en.cfg, HeadAt(m, a, h));
    assert (log + r) + r' == log + (r + r');
  }

  /** What one more prompt page does to its head. */
  lemma WroteOne(m: Manager, st: State, h: nat, ts: seq<Token>, at: Prompt, p: nat)
    requires Ready(m, st, h) && TokensOk(m.en.cfg, ts) && p * m.en.cfg.pageSize < |ts|
    requires WriteOne(m, st, h, ts, at, p).Some?
    ensures var cfg, hd, st' := m.en.cfg, HeadAt(m, st, h), WriteOne(m, st, h, ts, at, p).value;
      && Wrote(m, st, st', h, 1, EncodeAll(cfg, PageTokens(cfg, ts, p))[..PageValid(cfg, |ts|, p)])
      && var hd' := HeadAt(m, st', h);
      && hd.next + 1 == hd'.next <= |hd'.pages|
      && hd'.pages[..hd.next] == hd.pages[..hd.next]
      && WrittenPage(cfg, hd'.pages[hd.next], PageValid(cfg, |ts|, p), at.start + p * cfg.pageSize)
      && |st'.k.claims| == |st.k.claims| + |SelectedOf(m, KSlot, PromptInput(cfg, ts, at, p), hd.next)|
      && |st'.v.claims| == |st.v.claims| + |SelectedOf(m, VSlot, PromptInput(cfg, ts, at, p), hd.next)|
  {
    hide Inv, SelectedOf, Log, HeadOk, EncodeRow, PageTokens, Process, Extends, PageValid, OnlyHead;
    var cfg, hd := m.en.cfg, HeadAt(m, st, h);
    HeadFilled(cfg, hd);
    BasedKeeps(m, st, h, ts, p);
    var based := Based(m, st, h, ts, p).value;
    BasedFrame(m, st, h, ts, p);
    var x := PromptInput(cfg, ts, at, p);
    Processed(m, based, h, hd.next, x);
    var st' := WriteOne(m, st, h, ts, at, p).value;
    OnlyHeadTrans(st, based, st', m.en.layer, h);
    GrowsTrans(st, based, st');
    var mid, hd' := HeadAt(m, based, h), HeadAt(m, st', h);
    forall q | 0 <= q < hd.next ensures hd'.pages[q] == hd.pages[q] {
      assert mid.pages[..hd.next][q] == hd.pages[..hd.next][q];
    }
  }

  /** A page as a prompt leaves it: `n` tokens, and metadata that says so. */
  predicate WrittenPage(cfg: CacheConfig, page: PageState, n: nat, start: int)
  {
    page.valid == n && page.meta.Some? && page.meta.value.numTokens == n && page.meta.value.tokenStart == start
  }

  lemma BasedFrame(m: Manager, st: State, h: nat, ts: seq<Token>, p: nat)
    requires Ready(m, st, h) && TokensOk(m.en.cfg, ts) && p * m.en.cfg.pageSize < |ts|
    requires Based(m, st, h, ts, p).Some?
    ensures OnlyHead(st, Based(m, st, h, ts, p).value, m.en.layer, h) && Grows(st, Based(m, st, h, ts, p).value)
  {
    hide Inv, PageOk, Unused, EncodeRow, PageTokens, PageValid;
    var cfg, hd := m.en.cfg, HeadAt(m, st, h);
    OneHead(cfg, st, m.en.layer, h);
    var more := AllocPage(cfg, hd).value;
    HeadFilled(cfg, hd);
    var rows := EncodeAll(cfg, PageTokens(cfg, ts, p));
    OnlyHeadSet(st, m.en.layer, h, WriteBase(more, hd.next, rows, PageValid(cfg, |ts|, p)), st.k, st.v);
    GrowsSelf(st);
  }

  // ---- the page loop ----

  /** One iteration of the page loop. */
  ghost function TryPage(m: Manager, st: State, h: nat, ts: seq<Token>, at: Prompt, p: nat): Option<State>
  {
    if Ready(m, st, h) && TokensOk(m.en.cfg, ts) && p * m.en.cfg.pageSize < |ts| then WriteOne(m, st, h, ts, at, p)
    else None
  }

  /** The first `p` pages of a prompt. */
  ghost function WritePages(m: Manager, st: State, h: nat, ts: seq<Token>, at: Prompt, p: nat): Option<State>
  {
    Iterate((s: State, i: nat) => TryPage(m, s, h, ts, at, i), st, p)
  }

  lemma NextPage(m: Manager, st: State, h: nat, ts: seq<Token>, at: Prompt, p: nat)
    requires p > 0
    ensures WritePages(m, st, h, ts, at, p) ==
      match WritePages(m, st, h, ts, at, p - 1)
      case None => None
      case Some(mid) => TryPage(m, mid, h, ts, at, p - 1)
  {
    hide TryPage;
  }

  lemma EncodeChunk(cfg: CacheConfig, ts: seq<Token>, p: nat)
    requires cfg.Valid() && TokensOk(cfg, ts) && p * cfg.pageSize < |ts|
    ensures var n, n' := Upto(cfg, |ts|, p), Upto(cfg, |ts|, p + 1);
      EncodeAll(cfg, ts)[..n] + EncodeAll(cfg, PageTokens(cfg, ts, p))[..PageValid(cfg, |ts|, p)]
      == EncodeAll(cfg, ts)[..n']
  {
    hide EncodeRow;
    var n, n', c := Upto(cfg, |ts|, p), Upto(cfg, |ts|, p + 1), PageValid(cfg, |ts|, p);
    assert (p + 1) * cfg.pageSize == p * cfg.pageSize + cfg.pageSize;
    assert n' == n + c && n == p * cfg.pageSize;
    var page := PageTokens(cfg, ts, p);
    forall i | 0 <= i < c ensures EncodeAll(cfg, page)[i] == EncodeAll(cfg, ts)[n + i] { assert page[i] == ts[n + i]; }
    assert EncodeAll(cfg, page)[..c] == EncodeAll(cfg, ts)[n..n'];
    assert EncodeAll(cfg, ts)[..n] + EncodeAll(cfg, ts)[n..n'] == EncodeAll(cfg, ts)[..n'];
  }

  /** The page loop appends exactly the prompt's rows, in order, whatever the head held before. */
  lemma {:induction false} WrotePages(m: Manager, st: State, h: nat, ts: seq<Token>, at: Prompt, p: nat)
    requires Ready(m, st, h) && TokensOk(m.en.cfg, ts) && p <= PagesFor(m.en.cfg, |ts|)
    requires WritePages(m, st, h, ts, at, p).Some?
    ensures Wrote(m, st, WritePages(m, st, h, ts, at, p).value, h, p,
                  EncodeAll(m.en.cfg, ts)[..Upto(m.en.cfg, |ts|, p)])
  {
    hide Inv, Wrote, WritePages, WriteOne, TokensOk, EncodeAll, PageTokens, PageValid, PagesFor;
    var cfg := m.en.cfg;
    if p == 0 {
      NoPages(m, st, h, ts, at);
      WroteNothing(m, st, h);
      assert EncodeAll(cfg, ts)[..Upto(cfg, |ts|, 0)] == [];
    } else {
      NextPage(m, st, h, ts, at, p);
      WrotePages(m, st, h, ts, at, p - 1);
      PageNotEmpty(cfg, |ts|, p - 1);
      var mid, st' := WritePages(m, st, h, ts, at, p - 1).value, WritePages(m, st, h, ts, at, p).value;
      WroteReady(m, st, mid, h, p - 1, EncodeAll(cfg, ts)[..Upto(cfg, |ts|, p - 1)]);
      WroteOne(m, mid, h, ts, at, p - 1);
      EncodeChunk(cfg, ts, p - 1);
      WroteTrans(m, st, mid, st', h, p - 1, EncodeAll(cfg, ts)[..Upto(cfg, |ts|, p - 1)],
                 1, EncodeAll(cfg, PageTokens(cfg, ts, p - 1))[..PageValid(cfg, |ts|, p - 1)]);
    }
  }

  lemma WroteReady(m: Manager, st: State, st': State, h: nat, n: nat, rows: seq<StoredRow>)
    requires Ready(m, st, h) && Wrote(m, st, st', h, n, rows)
    ensures Ready(m, st', h)
  {
  }

  lemma NoPages(m: Manager, st: State, h: nat, ts: seq<Token>, at: Prompt)
    ensures WritePages(m, st, h, ts, at, 0) == Some(st)
  {
    hide TryPage;
  }

  lemma OnlyHeadSelf(st: State, l: nat, h: nat)
    ensures OnlyHead(st, st, l, h)
  {
  }

  /** From an empty head, the page loop leaves a page table. */
  lemma {:induction false} PromptTable(m: Manager, st: State, h: nat, ts: seq<Token>, at: Prompt, p: nat)
    requires Ready(m, st, h) && TokensOk(m.en.cfg, ts) && p <= PagesFor(m.en.cfg, |ts|)
    requires WritePages(m, st, h, ts, at, p).Some? && HeadAt(m, st, h).next == 0 && at.start == 0
    ensures var st' := WritePages(m, st, h, ts, at, p).value;
      Ready(m, st', h) && PageTable(m.en.cfg, HeadAt(m, st', h), Upto(m.en.cfg, |ts|, p)) && HeadAt(m, st', h).next == p
  {
    hide Log, WritePages, WriteOne, TokensOk, EncodeAll, PageTokens, PageValid, Extends, OnlyHead, Inv, HeadOk,
      SelectedOf, WrittenPage, PagesFor;
    var cfg := m.en.cfg;
    if p == 0 {
      NoPages(m, st, h, ts, at);
    } else {
      NextPage(m, st, h, ts, at, p);
      PromptTable(m, st, h, ts, at, p - 1);
      PageNotEmpty(cfg, |ts|, p - 1);
      var mid, st' := WritePages(m, st, h, ts, at, p - 1).value, WritePages(m, st, h, ts, at, p).value;
      WroteOne(m, mid, h, ts, at, p - 1);
      HeadFilled(cfg, HeadAt(m, mid, h));
      TableGrows(cfg, HeadAt(m, mid, h), HeadAt(m, st', h), |ts|, p - 1);
    }
  }

  lemma StillFull(cfg: CacheConfig, page: PageState, q: nat, p: nat, before: nat, after: nat)
    requires q < p && before == p * cfg.pageSize <= after && TablePage(cfg, page, q, before)
    ensures TablePage(cfg, page, q, after)
  {
    BlocksApart(q, p, cfg.pageSize);
  }

  lemma LastWritten(cfg: CacheConfig, page: PageState, p: nat, n: nat)
    requires p * cfg.pageSize < n && WrittenPage(cfg, page, PageValid(cfg, n, p), p * cfg.pageSize)
    ensures TablePage(cfg, page, p, Upto(cfg, n, p + 1))
  {
    assert (p + 1) * cfg.pageSize == p * cfg.pageSize + cfg.pageSize;
  }

  lemma TableGrows(cfg: CacheConfig, hd: Head, hd': Head, n: nat, p: nat)
    requires cfg.Valid() && PageTable(cfg, hd, Upto(cfg, n, p)) && p * cfg.pageSize < n && hd.next == p <= |hd.pages|
    requires HeadOk(cfg, hd') && p + 1 == hd'.next <= |hd'.pages| && hd'.pages[..p] == hd.pages[..p]
    requires WrittenPage(cfg, hd'.pages[p], PageValid(cfg, n, p), p * cfg.pageSize)
    ensures PageTable(cfg, hd', Upto(cfg, n, p + 1))
  {
    hide HeadOk, TablePage, WrittenPage, PageValid;
    var s := cfg.pageSize;
    assert (p + 1) * s == p * s + s;
    forall q | 0 <= q < hd'.next ensures TablePage(cfg, hd'.pages[q], q, Upto(cfg, n, p + 1)) {
      if q < p {
        assert hd'.pages[..p][q] == hd.pages[..p][q];
        StillFull(cfg, hd.pages[q], q, p, Upto(cfg, n, p), Upto(cfg, n, p + 1));
      } else {
        LastWritten(cfg, hd'.pages[p], p, n);
      }
    }
  }
}
