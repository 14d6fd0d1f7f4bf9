/** Exactly how many slots a prompt takes, and so when it fits: page by page, head by head, layer by layer. */
module Occupancy {

  import opened Config
  import opened Selection
  import opened BaseRows
  import opened SlotArena
  import opened CacheState
  import opened StorePlan
  import opened StoreStep
  import opened LayerSteps
  import opened Prefill
  import opened LayerRuns
  import opened Sessions

  /** The sum of the first `n` values. */
  ghost function Total(n: nat, f: nat -> nat): nat { if n == 0 then 0 else Total(n - 1, f) + f(n - 1) }

  lemma {:induction false} TotalAtMost(n: nat, f: nat -> nat, g: nat -> nat)
    requires forall i: nat :: i < n ==> f(i) <= g(i)
    ensures Total(n, f) <= Total(n, g)
  {
    if n == 0 {
    } else {
      TotalAtMost(n - 1, f, g);
    }
  }

  lemma {:induction false} TotalConstant(n: nat, f: nat -> nat, c: nat)
    requires forall i: nat :: i < n ==> f(i) == c
    ensures Total(n, f) == n * c
  {
    if n == 0 {
    } else {
      TotalConstant(n - 1, f, c);
      assert n * c == (n - 1) * c + c;
    }
  }

  // ---- what is taken ----

  /** Slots of one kind that page `p` of a prompt takes: one for each block it stores. */
  ghost function PageTakes(m: Manager, kind: Kind, ts: seq<Token>, at: Prompt): nat -> nat
    requires m.en.Valid()
  {
    (p: nat) =>
      if TokensOk(m.en.cfg, ts) && p * m.en.cfg.pageSize < |ts| then
        |SelectedOf(m, kind, PromptInput(m.en.cfg, ts, at, p), p)|
      else 0
  }

  ghost function HeadTakes(m: Manager, kind: Kind, kv: seq<seq<Token>>, at: Prompt): nat -> nat
    requires m.en.Valid()
  {
    (h: nat) => if h < |kv| then Total(PagesFor(m.en.cfg, |kv[h]|), PageTakes(m, kind, kv[h], at)) else 0
  }

  /** Slots of one kind that a prompt takes on one layer. */
  ghost function PromptTakes(m: Manager, kind: Kind, kv: seq<seq<Token>>, at: Prompt): nat
    requires m.en.Valid()
  {
    Total(m.en.cfg.numKvHeads, HeadTakes(m, kind, kv, at))
  }

  /** Room for `k` K and `v` V blocks: slots that are free, and of the size of a block. */
  ghost predicate Fits(cfg: CacheConfig, st: State, k: nat, v: nat)
  {
    && k <= |st.k.free| && v <= |st.v.free|
    && (k > 0 ==> SlotHolds(cfg, KSlot)) && (v > 0 ==> SlotHolds(cfg, VSlot))
  }

  /** Exactly `k` K and `v` V slots were taken. */
  ghost predicate Took(st: State, st': State, k: nat, v: nat)
  {
    |st'.k.free| + k == |st.k.free| && |st'.v.free| + v == |st.v.free|
  }

  lemma FitsMore(cfg: CacheConfig, st: State, st': State, k: nat, v: nat, k': nat, v': nat)
    requires Fits(cfg, st, k, v) && Took(st, st', k, v)
    ensures Fits(cfg, st, k + k', v + v') <==> Fits(cfg, st', k', v')
  {
    hide SlotHolds;
  }

  lemma FitsLess(cfg: CacheConfig, st: State, k: nat, v: nat, k': nat, v': nat)
    requires Fits(cfg, st, k + k', v + v')
    ensures Fits(cfg, st, k, v)
  {
    hide SlotHolds;
  }

  lemma TookTrans(a: State, b: State, c: State, k: nat, v: nat, k': nat, v': nat)
    requires Took(a, b, k, v) && Took(b, c, k', v')
    ensures Took(a, c, k + k', v + v')
  {
  }

  // ---- one page ----

  lemma InvPartition(cfg: CacheConfig, st: State)
    requires Inv(cfg, st)
    ensures Partition(st.k) && Partition(st.v)
  {
  }

  lemma TakenFree(m: Manager, kind: Kind, a: Arena, h: nat, p: nat, x: PageInput)
    requires m.en.Valid() && InputOk(m.en.cfg, x) && Partition(a) && |SelectedOf(m, kind, x, p)| <= |a.free|
    ensures |Taken(m, kind, a, h, p, x).free| + |SelectedOf(m, kind, x, p)| == |a.free|
  {
    hide SelectedOf, Partition, Claims;
    PicksOk(m, kind, x, p);
    PartitionFree(a, |SelectedOf(m, kind, x, p)|);
  }

  /** Processing a page succeeds exactly when its blocks fit. */
  lemma ProcessIff(m: Manager, st: State, h: nat, p: nat, x: PageInput)
    requires Target(m, st, h, p) && InputOk(m.en.cfg, x)
    ensures Process(m, st, h, p, x).Some? <==>
      Fits(m.en.cfg, st, |SelectedOf(m, KSlot, x, p)|, |SelectedOf(m, VSlot, x, p)|)
    ensures Process(m, st, h, p, x).Some? ==>
      Took(st, Process(m, st, h, p, x).value, |SelectedOf(m, KSlot, x, p)|, |SelectedOf(m, VSlot, x, p)|)
  {
    hide SelectedOf, Inv, Partition, Taken, NewMeta, SlotHolds;
    InvPartition(m.en.cfg, st);
    if Process(m, st, h, p, x).Some? {
      TakenFree(m, KSlot, st.k, h, p, x);
      TakenFree(m, VSlot, st.v, h, p, x);
    }
  }

  /** A prompt page that follows the pages before it. */
  lemma PageIff(m: Manager, st: State, h: nat, ts: seq<Token>, at: Prompt, p: nat)
    requires Ready(m, st, h) && TokensOk(m.en.cfg, ts) && p * m.en.cfg.pageSize < |ts| && HeadAt(m, st, h).next == p
    ensures var k, v := PageTakes(m, KSlot, ts, at)(p), PageTakes(m, VSlot, ts, at)(p);
      && (WriteOne(m, st, h, ts, at, p).Some? <==> p < m.en.cfg.maxPages && Fits(m.en.cfg, st, k, v))
      && (WriteOne(m, st, h, ts, at, p).Some? ==> Took(st, WriteOne(m, st, h, ts, at, p).value, k, v))
  {
    hide Inv, SelectedOf, Process, HeadOk, PageTokens, EncodeAll, PageValid, Log, SlotHolds;
    var x := PromptInput(m.en.cfg, ts, at, p);
    if p < m.en.cfg.maxPages {
      assert Based(m, st, h, ts, p).Some?;
      BasedKeeps(m, st, h, ts, p);
      ProcessIff(m, Based(m, st, h, ts, p).value, h, p, x);
    }
  }

  // ---- one head ----

  /** The first `p` pages of a prompt on an empty head. */
  lemma {:induction false} PagesIff(m: Manager, st: State, h: nat, ts: seq<Token>, at: Prompt, p: nat)
    requires Ready(m, st, h) && TokensOk(m.en.cfg, ts) && p <= PagesFor(m.en.cfg, |ts|) && HeadAt(m, st, h).next == 0
    ensures var k, v := Total(p, PageTakes(m, KSlot, ts, at)), Total(p, PageTakes(m, VSlot, ts, at));
      && (WritePages(m, st, h, ts, at, p).Some? <==>
          (p > 0 ==> p <= m.en.cfg.maxPages) && Fits(m.en.cfg, st, k, v))
      && (WritePages(m, st, h, ts, at, p).Some? ==> Took(st, WritePages(m, st, h, ts, at, p).value, k, v))
  {
    hide Inv, HeadAt, WritePages, WriteOne, PagesFor, TokensOk, EncodeAll, Log, OnlyHead, Grows, PageTakes, Fits, Took;
    if p == 0 {
      NoPages(m, st, h, ts, at);
      NothingTaken(m.en.cfg, st);
    } else {
      PagesIff(m, st, h, ts, at, p - 1);
      NextPage(m, st, h, ts, at, p);
      PageNotEmpty(m.en.cfg, |ts|, p - 1);
      var k, v := Total(p - 1, PageTakes(m, KSlot, ts, at)), Total(p - 1, PageTakes(m, VSlot, ts, at));
      var k', v' := PageTakes(m, KSlot, ts, at)(p - 1), PageTakes(m, VSlot, ts, at)(p - 1);
      var before := WritePages(m, st, h, ts, at, p - 1);
      if before.Some? {
        WrotePages(m, st, h, ts, at, p - 1);
        PageIff(m, before.value, h, ts, at, p - 1);
        FitsMore(m.en.cfg, st, before.value, k, v, k', v');
        if WritePages(m, st, h, ts, at, p).Some? {
          TookTrans(st, before.value, WritePages(m, st, h, ts, at, p).value, k, v, k', v');
        }
      } else if Fits(m.en.cfg, st, k + k', v + v') {
        FitsLess(m.en.cfg, st, k, v, k', v');
      }
    }
  }

  lemma NothingTaken(cfg: CacheConfig, st: State)
    ensures Fits(cfg, st, 0, 0) && Took(st, st, 0, 0)
  {
    hide SlotHolds;
  }

  // ---- one layer ----

  lemma EmptyParts(m: Manager, st: State, h: nat)
    requires EmptyLayer(m, st) && h < m.en.cfg.numKvHeads
    ensures m.en.Valid() && Inv(m.en.cfg, st) && Ready(m, st, h) && HeadAt(m, st, h).next == 0
  {
    hide Inv, HeadAt;
  }

  lemma EmptyInv(m: Manager, st: State)
    requires EmptyLayer(m, st)
    ensures m.en.Valid() && Inv(m.en.cfg, st)
  {
    hide Inv, HeadAt;
  }

  lemma HeadIff(m: Manager, st: State, kv: seq<seq<Token>>, at: Prompt, n: nat, h: nat)
    requires Ready(m, st, h) && HeadAt(m, st, h).next == 0 && PromptOk(m.en.cfg, kv, n)
    ensures var k, v := HeadTakes(m, KSlot, kv, at)(h), HeadTakes(m, VSlot, kv, at)(h);
      var r := PrefillStep(m, kv, at)(st, h);
      && (r.Some? <==> (n > 0 ==> PagesFor(m.en.cfg, n) <= m.en.cfg.maxPages) && Fits(m.en.cfg, st, k, v))
      && (r.Some? ==> Took(st, r.value, k, v))
  {
    hide Inv, HeadAt, WritePages, PagesFor, TokensOk, PageTakes, Fits, Took;
    PagesIff(m, st, h, kv[h], at, PagesFor(m.en.cfg, n));
    PagesPositive(m.en.cfg, n);
  }

  /** A prompt of `n` tokens on the first `h` heads of an empty layer. */
  lemma {:induction false} HeadsIff(m: Manager, st: State, kv: seq<seq<Token>>, at: Prompt, n: nat, h: nat)
    requires EmptyLayer(m, st) && PromptOk(m.en.cfg, kv, n) && h <= m.en.cfg.numKvHeads
    ensures m.en.Valid()
    ensures var k, v := Total(h, HeadTakes(m, KSlot, kv, at)), Total(h, HeadTakes(m, VSlot, kv, at));
      var r := Iterate(PrefillStep(m, kv, at), st, h);
      && (r.Some? <==> (h > 0 && n > 0 ==> PagesFor(m.en.cfg, n) <= m.en.cfg.maxPages) && Fits(m.en.cfg, st, k, v))
      && (r.Some? ==> Took(st, r.value, k, v))
  {
    hide Inv, HeadAt, PrefillStep, PagesFor, TokensOk, HeadTakes, Fits, Took, EmptyLayer, PromptOk;
    EmptyInv(m, st);
    if h == 0 {
      NothingTaken(m.en.cfg, st);
    } else {
      HeadsIff(m, st, kv, at, n, h - 1);
      var k, v := Total(h - 1, HeadTakes(m, KSlot, kv, at)), Total(h - 1, HeadTakes(m, VSlot, kv, at));
      var k', v' := HeadTakes(m, KSlot, kv, at)(h - 1), HeadTakes(m, VSlot, kv, at)(h - 1);
      var before, r := Iterate(PrefillStep(m, kv, at), st, h - 1), Iterate(PrefillStep(m, kv, at), st, h);
      if before.Some? {
        NextHead(m, st, kv, at, n, h - 1);
        HeadIff(m, before.value, kv, at, n, h - 1);
        FitsMore(m.en.cfg, st, before.value, k, v, k', v');
        if r.Some? { TookTrans(st, before.value, r.value, k, v, k', v'); }
      } else if Fits(m.en.cfg, st, k + k', v + v') {
        FitsLess(m.en.cfg, st, k, v, k', v');
      }
    }
  }

  lemma PagesPositive(cfg: CacheConfig, n: nat)
    requires cfg.Valid()
    ensures PagesFor(cfg, n) > 0 <==> n > 0
  {
    UptoLast(cfg, n);
  }

  /** After the first `h` heads the next one is still empty. */
  lemma NextHead(m: Manager, st: State, kv: seq<seq<Token>>, at: Prompt, n: nat, h: nat)
    requires EmptyLayer(m, st) && PromptOk(m.en.cfg, kv, n) && h < m.en.cfg.numKvHeads
    requires Iterate(PrefillStep(m, kv, at), st, h).Some?
    ensures var mid := Iterate(PrefillStep(m, kv, at), st, h).value; Ready(m, mid, h) && HeadAt(m, mid, h).next == 0
  {
    hide Inv, HeadAt, PrefillStep, TokensOk, HeadsDone, LoopBody, EmptyLayer;
    EmptyParts(m, st, h);
    PrefillBody(m, kv, at, n);
    LoopDone(m, PrefillStep(m, kv, at), PromptedRel(m, kv, at), st, h);
    Untouched(m, st, Iterate(PrefillStep(m, kv, at), st, h).value, h, PromptedRel(m, kv, at));
  }

  /** A prompt on an empty layer: it succeeds if and only if there are pages for its tokens and its blocks fit, and
    * takes exactly one slot for each block. */
  lemma PrefillIff(m: Manager, st: State, kv: seq<seq<Token>>, at: Prompt, n: nat)
    requires EmptyLayer(m, st) && PromptOk(m.en.cfg, kv, n) && n > 0
    ensures m.en.Valid()
    ensures var k, v := PromptTakes(m, KSlot, kv, at), PromptTakes(m, VSlot, kv, at);
      && (PrefillLayer(m, st, kv, at).Some? <==>
          PagesFor(m.en.cfg, n) <= m.en.cfg.maxPages && Fits(m.en.cfg, st, k, v))
      && (PrefillLayer(m, st, kv, at).Some? ==> Took(st, PrefillLayer(m, st, kv, at).value, k, v))
  {
    hide EmptyLayer, PagesFor, PrefillStep, Fits, Took, HeadTakes, PromptOk;
    EmptyInv(m, st);
    HeadsIff(m, st, kv, at, n, m.en.cfg.numKvHeads);
  }
}
