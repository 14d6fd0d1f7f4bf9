/** The attention layer's writes to the cache object. */
module Layer {

  import opened Numbers
  import opened Config
  import opened Quantizer
  import opened BaseRows
  import opened CacheState
  import opened PageTables
  import opened StorePlan
  import opened StoreStep
  import opened LayerSteps
  import opened Prefill
  import opened Decode
  import opened LayerRuns
  import opened Cache
  import opened ResidualStore

  // ---- quantized rows ----

  function KeysOf(ts: seq<Token>): (r: seq<Vec>)
    ensures |r| == |ts|
  {
    seq(|ts|, i requires 0 <= i < |ts| => ts[i].k)
  }

  function ValuesOf(ts: seq<Token>): (r: seq<Vec>)
    ensures |r| == |ts|
  {
    seq(|ts|, i requires 0 <= i < |ts| => ts[i].v)
  }

  /** Codes, scales and dequantized rows of a tensor, row by row. */
  method QuantizeDequantize(cfg: CacheConfig, rows: seq<Vec>)
    returns (codes: seq<seq<int>>, scale: seq<Vec>, hat: seq<Vec>)
    requires cfg.Valid() && forall i :: 0 <= i < |rows| ==> |rows[i]| == cfg.headDim
    ensures |codes| == |scale| == |hat| == |rows|
    ensures forall i :: 0 <= i < |rows| ==>
      codes[i] == Codes(rows[i], BaseQuant(cfg)) && scale[i] == Scales(rows[i], BaseQuant(cfg))
      && hat[i] == Hat(cfg, rows[i]) && CodesOk(cfg, codes[i])
  {
    codes := seq(|rows|, i requires 0 <= i < |rows| => Codes(rows[i], BaseQuant(cfg)));
    scale := seq(|rows|, i requires 0 <= i < |rows| => Scales(rows[i], BaseQuant(cfg)));
    hat := seq(|rows|, i requires 0 <= i < |rows| => Dequantize(codes[i], scale[i], cfg.groupSize));
  }

  lemma RowsMade(cfg: CacheConfig, ts: seq<Token>, kc: seq<seq<int>>, ks: seq<Vec>, vc: seq<seq<int>>, vs: seq<Vec>)
    requires cfg.Valid() && TokensOk(cfg, ts) && |kc| == |ks| == |vc| == |vs| == |ts|
    requires forall i :: 0 <= i < |ts| ==>
      && CodesOk(cfg, kc[i]) && kc[i] == Codes(ts[i].k, BaseQuant(cfg)) && ks[i] == Scales(ts[i].k, BaseQuant(cfg))
      && CodesOk(cfg, vc[i]) && vc[i] == Codes(ts[i].v, BaseQuant(cfg)) && vs[i] == Scales(ts[i].v, BaseQuant(cfg))
    ensures MakeRows(cfg, kc, ks, vc, vs) == EncodeAll(cfg, ts)
  {
    hide Codes, Scales, EncodeCodes;
    forall i | 0 <= i < |ts| ensures MakeRow(cfg, kc[i], ks[i], vc[i], vs[i]) == EncodeRow(cfg, ts[i]) {}
  }

  lemma SetHeadTwice(st: State, l: nat, h: nat, a: Head, b: Head)
    requires l < |st.heads| && h < |st.heads[l]|
    ensures SetHead(SetHead(st, l, h, a), l, h, b) == SetHead(st, l, h, b)
  {
    assert st.heads[l][h := a][h := b] == st.heads[l][h := b];
  }

  // ---- one prompt page ----

  lemma ReadyIndex(m: Manager, st: State, h: nat)
    requires Ready(m, st, h)
    ensures m.en.layer < |st.heads| && h < |st.heads[m.en.layer]| && HeadAt(m, st, h) == st.heads[m.en.layer][h]
    ensures Framed(m.en.cfg, st)
  {
    InvFramed(m.en.cfg, st);
  }

  /** The base rows of one prompt page: allocate, quantize, write. */
  method WriteBasePage(m: Manager, cache: KVCache, h: nat, ts: seq<Token>, p: nat, page: seq<Token>)
    returns (pid: Option<nat>, kAll: seq<Vec>, vAll: seq<Vec>)
    requires cache.Valid() && cache.cfg == m.en.cfg && Ready(m, cache.st, h) && TokensOk(m.en.cfg, ts)
    requires p * m.en.cfg.pageSize < |ts| && page == PageTokens(m.en.cfg, ts, p)
    modifies cache.Repr
    ensures cache.Valid() && (pid.Some? <==> Based(m, old(cache.st), h, ts, p).Some?)
    ensures pid.Some? ==>
      && pid == Some(HeadAt(m, old(cache.st), h).next) && cache.st == Based(m, old(cache.st), h, ts, p).value
      && |kAll| == |vAll| == |page|
      && forall i :: 0 <= i < |page| ==> kAll[i] == Hat(m.en.cfg, page[i].k) && vAll[i] == Hat(m.en.cfg, page[i].v)
  {
    hide Inv, KVCache.Valid, KVCache.Shaped, Codes, Scales, Hat, PageOk, MakeRows, EncodeAll, PageTokens, PageValid;
    var cfg, l := m.en.cfg, m.en.layer;
    ghost var st0 := cache.st;
    cache.Owned();
    ReadyIndex(m, st0, h);
    kAll, vAll := [], [];
    pid := cache.AllocPage(l, h);
    if pid == None { return; }
    ghost var hd := HeadAt(m, st0, h);
    ValidFits(cfg, |ts|, p);
    var kCodes, kScale, vCodes, vScale;
    kCodes, kScale, kAll := QuantizeDequantize(cfg, KeysOf(page));
    vCodes, vScale, vAll := QuantizeDequantize(cfg, ValuesOf(page));
    cache.WriteBase(l, h, pid.value, kCodes, kScale, vCodes, vScale, PageValid(cfg, |ts|, p));
    RowsMade(cfg, page, kCodes, kScale, vCodes, vScale);
    SetHeadTwice(st0, l, h, hd.(next := hd.next + 1),
                 CacheState.WriteBase(hd.(next := hd.next + 1), hd.next, EncodeAll(cfg, page),
                                      PageValid(cfg, |ts|, p)));
  }

  /** Allocate a page, write its base rows, process it. Returns the dequantized valid rows. */
  method WritePage(m: Manager, cache: KVCache, h: nat, ts: seq<Token>, at: Prompt, p: nat)
    returns (ok: bool, kHat: seq<Vec>, vHat: seq<Vec>)
    requires cache.Valid() && cache.cfg == m.en.cfg && Ready(m, cache.st, h) && TokensOk(m.en.cfg, ts)
    requires p * m.en.cfg.pageSize < |ts|
    modifies cache.Repr
    ensures cache.Valid() && (ok <==> WriteOne(m, old(cache.st), h, ts, at, p).Some?)
    ensures ok ==> cache.st == WriteOne(m, old(cache.st), h, ts, at, p).value
    ensures ok ==> HatsOf(m.en.cfg, ts, p, kHat, vHat)
  {
    hide Inv, KVCache.Valid, KVCache.Shaped, Process, Hat, HeadOk, PageTokens, PageValid, Based, Ready, TokenOk;
    var cfg := m.en.cfg;
    ghost var st0 := cache.st;
    var n := PageValid(cfg, |ts|, p);
    var page := PageTokens(cfg, ts, p);
    var pid, kAll, vAll := WriteBasePage(m, cache, h, ts, p, page);
    if pid == None { return false, [], []; }
    BasedKeeps(m, st0, h, ts, p);
    var x := PageInput(KeysOf(page), ValuesOf(page), kAll, vAll, at.start + p * cfg.pageSize, n,
                       p >= PagesFor(cfg, |ts|) - 4, at.start + p * cfg.pageSize < at.sink);
    assert x == PromptInput(cfg, ts, at, p);
    ok := ProcessPage(m, cache, h, pid.value, x);
    kHat, vHat := kAll[..n], vAll[..n];
    ValidFits(cfg, |ts|, p);
  }

  lemma ValidFits(cfg: CacheConfig, n: nat, p: nat)
    requires p * cfg.pageSize < n
    ensures PageValid(cfg, n, p) <= cfg.pageSize
  {
  }

  /** The dequantized valid rows of prompt page `p`. */
  ghost predicate HatsOf(cfg: CacheConfig, ts: seq<Token>, p: nat, kHat: seq<Vec>, vHat: seq<Vec>)
    requires cfg.Valid() && TokensOk(cfg, ts) && p * cfg.pageSize < |ts|
  {
    |kHat| == |vHat| == PageValid(cfg, |ts|, p) && forall i :: 0 <= i < |kHat| && i < cfg.pageSize ==>
      kHat[i] == Hat(cfg, PageTokens(cfg, ts, p)[i].k) && vHat[i] == Hat(cfg, PageTokens(cfg, ts, p)[i].v)
  }

  // ---- the page loop ----

  lemma {:induction false} IterateStops<S>(step: (S, nat) -> Option<S>, st: S, i: nat, n: nat)
    requires i <= n && Iterate(step, st, i) == None
    ensures Iterate(step, st, n) == None
  {
    if i == n {
    } else {
      IterateStops(step, st, i, n - 1);
    }
  }

  lemma WriteStops(m: Manager, st: State, h: nat, ts: seq<Token>, at: Prompt, i: nat, n: nat)
    requires i <= n && WritePages(m, st, h, ts, at, i) == None
    ensures WritePages(m, st, h, ts, at, n) == None
  {
    hide TryPage;
    IterateStops((s: State, j: nat) => TryPage(m, s, h, ts, at, j), st, i, n);
  }

  /** The dequantized rows of the first `n` tokens. */
  ghost predicate HatsUpto(cfg: CacheConfig, ts: seq<Token>, n: nat, kHat: seq<Vec>, vHat: seq<Vec>)
    requires cfg.Valid() && TokensOk(cfg, ts) && n <= |ts|
  {
    |kHat| == |vHat| == n && forall i :: 0 <= i < n ==> kHat[i] == Hat(cfg, ts[i].k) && vHat[i] == Hat(cfg, ts[i].v)
  }

  lemma HatsMore(cfg: CacheConfig, ts: seq<Token>, p: nat, kHat: seq<Vec>, vHat: seq<Vec>, k: seq<Vec>, v: seq<Vec>)
    requires cfg.Valid() && TokensOk(cfg, ts) && p * cfg.pageSize < |ts|
    requires HatsUpto(cfg, ts, Upto(cfg, |ts|, p), kHat, vHat) && HatsOf(cfg, ts, p, k, v)
    ensures HatsUpto(cfg, ts, Upto(cfg, |ts|, p + 1), kHat + k, vHat + v)
  {
    hide Hat;
    var n, c := Upto(cfg, |ts|, p), PageValid(cfg, |ts|, p);
    assert (p + 1) * cfg.pageSize == p * cfg.pageSize + cfg.pageSize;
    assert n == p * cfg.pageSize && Upto(cfg, |ts|, p + 1) == n + c;
    forall i | n <= i < n + c
      ensures (kHat + k)[i] == Hat(cfg, ts[i].k) && (vHat + v)[i] == Hat(cfg, ts[i].v)
    {
      assert PageTokens(cfg, ts, p)[i - n] == ts[n + (i - n)];
    }
  }

  /** A prompt of one KV head, page by page. Returns what was committed, dequantized. */
  method WritePagesForKvHead(m: Manager, cache: KVCache, h: nat, ts: seq<Token>, at: Prompt)
    returns (ok: bool, kHat: seq<Vec>, vHat: seq<Vec>)
    requires cache.Valid() && cache.cfg == m.en.cfg && Ready(m, cache.st, h) && TokensOk(m.en.cfg, ts)
    modifies cache.Repr
    ensures cache.Valid()
    ensures ok <==> WritePages(m, old(cache.st), h, ts, at, PagesFor(m.en.cfg, |ts|)).Some?
    ensures ok ==> cache.st == WritePages(m, old(cache.st), h, ts, at, PagesFor(m.en.cfg, |ts|)).value
    ensures ok ==> HatsUpto(m.en.cfg, ts, |ts|, kHat, vHat)
  {
    hide Inv, KVCache.Valid, KVCache.Shaped, WritePages, WriteOne, Wrote, HatsOf, HatsUpto, TokensOk, PagesFor;
    var cfg := m.en.cfg;
    ghost var st0 := cache.st;
    kHat, vHat := [], [];
    var n, p := PagesFor(cfg, |ts|), 0;
    NoPages(m, st0, h, ts, at);
    WroteNothing(m, st0, h);
    NoHats(cfg, ts);
    while p < n
      invariant 0 <= p <= n && cache.Valid() && Ready(m, cache.st, h)
      invariant WritePages(m, st0, h, ts, at, p) == Some(cache.st)
      invariant HatsUpto(cfg, ts, Upto(cfg, |ts|, p), kHat, vHat)
    {
      PageNotEmpty(cfg, |ts|, p);
      NextPage(m, st0, h, ts, at, p + 1);
      var k, v;
      ok, k, v := WritePage(m, cache, h, ts, at, p);
      if !ok {
        WriteStops(m, st0, h, ts, at, p + 1, n);
        return;
      }
      WrotePages(m, st0, h, ts, at, p + 1);
      WroteReady(m, st0, cache.st, h, p + 1, EncodeAll(cfg, ts)[..Upto(cfg, |ts|, p + 1)]);
      HatsMore(cfg, ts, p, kHat, vHat, k, v);
      kHat, vHat := kHat + k, vHat + v;
      p := p + 1;
    }
    ok := true;
    UptoLast(cfg, |ts|);
  }

  lemma NoHats(cfg: CacheConfig, ts: seq<Token>)
    requires cfg.Valid() && TokensOk(cfg, ts)
    ensures HatsUpto(cfg, ts, Upto(cfg, |ts|, 0), [], [])
  {
  }

  // ---- all heads ----

  lemma LoopReady(m: Manager, step: (State, nat) -> Option<State>, rel: (nat, Head, Head) -> bool, st: State, h: nat)
    requires m.en.Valid() && Inv(m.en.cfg, st) && h < m.en.cfg.numKvHeads && LoopBody(m, step, rel)
    requires Iterate(step, st, h).Some?
    ensures Ready(m, Iterate(step, st, h).value, h)
  {
    hide Inv, LoopBody, HeadsDone;
    LoopDone(m, step, rel, st, h);
    DoneReady(m, st, Iterate(step, st, h).value, h, rel);
  }

  /** The write half of `prefill`: every KV head's prompt, in turn. */
  method PrefillHeads(m: Manager, cache: KVCache, kv: seq<seq<Token>>, at: Prompt, n: nat) returns (ok: bool)
    requires cache.Valid() && cache.cfg == m.en.cfg && m.en.Valid() && Inv(m.en.cfg, cache.st)
    requires PromptOk(m.en.cfg, kv, n)
    modifies cache.Repr
    ensures cache.Valid() && (ok <==> PrefillLayer(m, old(cache.st), kv, at).Some?)
    ensures ok ==> cache.st == PrefillLayer(m, old(cache.st), kv, at).value
  {
    hide Inv, KVCache.Valid, KVCache.Shaped, WritePages, LoopBody, PagesFor, TokensOk, HatsUpto;
    ghost var st0 := cache.st;
    PrefillBody(m, kv, at, n);
    var h := 0;
    while h < m.en.cfg.numKvHeads
      invariant 0 <= h <= m.en.cfg.numKvHeads && cache.Valid()
      invariant Iterate(PrefillStep(m, kv, at), st0, h) == Some(cache.st)
    {
      LoopReady(m, PrefillStep(m, kv, at), PromptedRel(m, kv, at), st0, h);
      var kHat, vHat;
      ok, kHat, vHat := WritePagesForKvHead(m, cache, h, kv[h], at);
      if !ok {
        IterateStops(PrefillStep(m, kv, at), st0, h + 1, m.en.cfg.numKvHeads);
        return;
      }
      h := h + 1;
    }
    ok := true;
  }

  /** The open page; a new page is allocated, and its count zeroed, when there is none. */
  method OpenOne(m: Manager, cache: KVCache, h: nat) returns (pid: Option<nat>)
    requires cache.Valid() && cache.cfg == m.en.cfg && Ready(m, cache.st, h)
    modifies cache.Repr
    ensures cache.Valid() && (pid.Some? <==> Opened(m.en.cfg, HeadAt(m, old(cache.st), h)).Some?)
    ensures pid.Some? ==>
      var hd := Opened(m.en.cfg, HeadAt(m, old(cache.st), h)).value;
      && 0 < hd.next <= m.en.cfg.maxPages == |hd.pages| && pid.value == hd.next - 1
      && hd.pages[pid.value].valid < |hd.pages[pid.value].rows|
      && cache.st == WithHead(m, old(cache.st), h, hd)
  {
    hide Inv, KVCache.Valid, KVCache.Shaped, PageOk, HeadRefs;
    var cfg, l := m.en.cfg, m.en.layer;
    ghost var st0 := cache.st;
    cache.Owned();
    ReadyIndex(m, st0, h);
    OneHead(cfg, st0, l, h);
    ghost var hd := HeadAt(m, st0, h);
    if Opened(cfg, hd).Some? { OpenedIsOpen(cfg, st0.k, st0.v, hd, l, h); }
    pid := cache.GetOpenPage(l, h);
    if pid == None {
      pid := cache.AllocPage(l, h);
      if pid == None { return; }
      cache.SetValid(l, h, pid.value, 0);
      SetHeadTwice(st0, l, h, hd.(next := hd.next + 1), Opened(cfg, hd).value);
    } else {
      SetHeadSame(st0, l, h);
    }
  }

  /** A token's row in the open page. */
  method AppendOne(m: Manager, cache: KVCache, h: nat, t: Token) returns (pid: Option<nat>)
    requires cache.Valid() && cache.cfg == m.en.cfg && Ready(m, cache.st, h) && TokenOk(m.en.cfg, t)
    modifies cache.Repr
    ensures cache.Valid() && (pid.Some? <==> Appended(m, old(cache.st), h, t).Some?)
    ensures pid.Some? ==>
      var hd := Appended(m, old(cache.st), h, t).value;
      && 0 < hd.next <= m.en.cfg.maxPages == |hd.pages| && pid.value == hd.next - 1
      && cache.st == WithHead(m, old(cache.st), h, hd)
  {
    hide Inv, KVCache.Valid, KVCache.Shaped, Codes, Scales, EncodeCodes, PageOk, HeadRefs, Opened, HeadOk;
    var cfg, l := m.en.cfg, m.en.layer;
    ghost var st0 := cache.st;
    cache.Owned();
    ReadyIndex(m, st0, h);
    pid := OpenOne(m, cache, h);
    if pid == None { return; }
    ghost var more := Opened(cfg, HeadAt(m, st0, h)).value;
    var kCodes, kScale, kHat := QuantizeDequantize(cfg, [t.k]);
    var vCodes, vScale, vHat := QuantizeDequantize(cfg, [t.v]);
    var offset := cache.AppendToPage(l, h, pid.value, kCodes[0], kScale[0], vCodes[0], vScale[0]);
    SetHeadTwice(st0, l, h, more, Appended(m, st0, h, t).value);
  }

  lemma SetHeadSame(st: State, l: nat, h: nat)
    requires l < |st.heads| && h < |st.heads[l]|
    ensures SetHead(st, l, h, st.heads[l][h]) == st
  {
    assert st.heads[l][h := st.heads[l][h]] == st.heads[l];
    assert st.heads[l := st.heads[l]] == st.heads;
  }

  /** One head of `decode_step`: find or allocate the open page, append, and process a page that fills. */
  method DecodeOne(m: Manager, cache: KVCache, h: nat, t: Token, pos: nat) returns (ok: bool)
    requires cache.Valid() && cache.cfg == m.en.cfg && Ready(m, cache.st, h) && TokenOk(m.en.cfg, t)
    modifies cache.Repr
    ensures cache.Valid() && (ok <==> DecodeHead(m, old(cache.st), h, t, pos).Some?)
    ensures ok ==> cache.st == DecodeHead(m, old(cache.st), h, t, pos).value
  {
    hide Inv, KVCache.Valid, KVCache.Shaped, Process, PageOk, RefillInput, EncodeRow;
    var cfg, l := m.en.cfg, m.en.layer;
    ghost var st0 := cache.st;
    cache.Owned();
    var pid := AppendOne(m, cache, h, t);
    if pid == None { return false; }
    AppendedKeeps(m, st0, h, t);
    var page := cache.ReadPage(l, h, pid.value);
    if page.valid == cfg.pageSize {
      ok := ProcessPage(m, cache, h, pid.value, RefillInput(cfg, page, pos));
    } else {
      ok := true;
    }
  }

  /** The write half of `decode_step`: the position is read once, from head 0, before any append. */
  method DecodeHeads(m: Manager, cache: KVCache, ts: seq<Token>) returns (ok: bool)
    requires cache.Valid() && cache.cfg == m.en.cfg && m.en.Valid() && Inv(m.en.cfg, cache.st) && NormOk(m.en.ker)
    requires |ts| == m.en.cfg.numKvHeads && TokensOk(m.en.cfg, ts)
    modifies cache.Repr
    ensures cache.Valid() && (ok <==> DecodeLayer(m, old(cache.st), ts).Some?)
    ensures ok ==> cache.st == DecodeLayer(m, old(cache.st), ts).value
  {
    hide Inv, KVCache.Valid, KVCache.Shaped, DecodeHead, LoopBody, NormOk, TokenOk;
    ghost var st0 := cache.st;
    cache.Owned();
    ReadyIndex(m, st0, 0);
    var pos := cache.TotalValidTokens(m.en.layer, 0);
    DecodeBody(m, ts, pos);
    var h := 0;
    while h < m.en.cfg.numKvHeads
      invariant 0 <= h <= m.en.cfg.numKvHeads && cache.Valid()
      invariant Iterate(DecodeStepOf(m, ts, pos), st0, h) == Some(cache.st)
    {
      LoopReady(m, DecodeStepOf(m, ts, pos), GrownRel(m, ts, pos), st0, h);
      ok := DecodeOne(m, cache, h, ts[h], pos);
      if !ok {
        IterateStops(DecodeStepOf(m, ts, pos), st0, h + 1, m.en.cfg.numKvHeads);
        return;
      }
      h := h + 1;
    }
    ok := true;
  }
}
