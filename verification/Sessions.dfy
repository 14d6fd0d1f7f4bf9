/** Whole runs of one layer: a prompt, then any number of decoded tokens. */
module Sessions {

  import opened Config
  import opened Pages
  import opened BaseRows
  import opened CacheState
  import opened PageTables
  import opened StorePlan
  import opened LayerSteps
  import opened Decode
  import opened LayerRuns
  import opened TrueSlots

  /** The flat token log of a layer: every KV head holds exactly its tokens, in order, under a page table; all heads
    * hold the same number; and every slot they refer to holds what was lost of the tokens in its place. */
  ghost predicate Holds(m: Manager, st: State, kv: seq<seq<Token>>, n: nat)
  {
    && m.en.Valid() && Inv(m.en.cfg, st) && PromptOk(m.en.cfg, kv, n)
    && (forall h :: 0 <= h < m.en.cfg.numKvHeads ==> HeadHolds(m, st, h, kv, n))
    && LayerTrue(m, st, kv, m.en.cfg.numKvHeads)
  }

  ghost predicate HeadHolds(m: Manager, st: State, h: nat, kv: seq<seq<Token>>, n: nat)
  {
    && Ready(m, st, h) && h < |kv| && TokensOk(m.en.cfg, kv[h])
    && PageTable(m.en.cfg, HeadAt(m, st, h), n)
    && Log(m.en.cfg, HeadAt(m, st, h)) == EncodeAll(m.en.cfg, kv[h])
  }

  /** No page of the layer is allocated. */
  ghost predicate EmptyLayer(m: Manager, st: State)
  {
    && m.en.Valid() && Inv(m.en.cfg, st)
    && forall h :: 0 <= h < m.en.cfg.numKvHeads ==> Ready(m, st, h) && HeadAt(m, st, h).next == 0
  }

  lemma EmptyLog(cfg: CacheConfig, hd: Head)
    requires HeadOk(cfg, hd) && hd.next == 0
    ensures Log(cfg, hd) == []
  {
  }

  /** A prompt on an empty layer: the log is the prompt. */
  lemma PrefillHolds(m: Manager, st: State, kv: seq<seq<Token>>, at: Prompt, n: nat)
    requires EmptyLayer(m, st) && PromptOk(m.en.cfg, kv, n) && at.start == 0 && PrefillLayer(m, st, kv, at).Some?
    ensures Holds(m, PrefillLayer(m, st, kv, at).value, kv, n)
    ensures Grows(st, PrefillLayer(m, st, kv, at).value) && OnlyLayer(st, PrefillLayer(m, st, kv, at).value, m.en.layer)
  {
    hide Inv, HeadOk, PrefillLayer, Grows, OnlyLayer, Log, PageTable, EncodeAll, LayerTrue;
    Prefilled(m, st, kv, at, n);
    PrefillTrue(m, st, kv, at, n);
    var st' := PrefillLayer(m, st, kv, at).value;
    forall h | 0 <= h < m.en.cfg.numKvHeads ensures HeadHolds(m, st', h, kv, n) {
      assert PromptedRel(m, kv, at)(h, HeadAt(m, st, h), HeadAt(m, st', h));
      EmptyLog(m.en.cfg, HeadAt(m, st, h));
      assert [] + EncodeAll(m.en.cfg, kv[h]) == EncodeAll(m.en.cfg, kv[h]);
    }
  }

  predicate StepTokens(cfg: CacheConfig, ts: seq<Token>)
  {
    |ts| == cfg.numKvHeads && TokensOk(cfg, ts)
  }

  lemma ExtendedOk(cfg: CacheConfig, kv: seq<seq<Token>>, ts: seq<Token>, n: nat)
    requires PromptOk(cfg, kv, n) && StepTokens(cfg, ts)
    ensures PromptOk(cfg, Extended(kv, ts), n + 1)
  {
    hide TokenOk;
    forall h | 0 <= h < |kv| ensures TokensOk(cfg, Extended(kv, ts)[h]) {
      forall i | 0 <= i < n + 1 ensures TokenOk(cfg, Extended(kv, ts)[h][i]) {
        if i < n { assert TokensOk(cfg, kv[h]) && Extended(kv, ts)[h][i] == kv[h][i]; }
      }
    }
  }

  lemma EncodeMore(cfg: CacheConfig, ts: seq<Token>, t: Token)
    requires cfg.Valid() && TokensOk(cfg, ts) && TokenOk(cfg, t)
    ensures TokensOk(cfg, ts + [t]) && EncodeAll(cfg, ts + [t]) == EncodeAll(cfg, ts) + [EncodeRow(cfg, t)]
  {
    hide EncodeRow, TokenOk;
  }

  lemma HeldAt(m: Manager, st: State, kv: seq<seq<Token>>, n: nat, h: nat)
    requires Holds(m, st, kv, n) && h < m.en.cfg.numKvHeads
    ensures HeadHolds(m, st, h, kv, n)
  {
    hide Inv, HeadHolds;
  }

  /** `total_valid_tokens(layer, 0)` is the number of tokens every head holds. */
  lemma PositionIsTotal(m: Manager, st: State, kv: seq<seq<Token>>, n: nat)
    requires Holds(m, st, kv, n)
    ensures Ready(m, st, 0) && |Log(m.en.cfg, HeadAt(m, st, 0))| == n
  {
    hide Inv;
    HeldAt(m, st, kv, n, 0);
  }

  /** One decoded token: the log grows by it on every head. */
  lemma DecodeHolds(m: Manager, st: State, kv: seq<seq<Token>>, n: nat, ts: seq<Token>)
    requires Holds(m, st, kv, n) && NormOk(m.en.ker) && StepTokens(m.en.cfg, ts) && DecodeLayer(m, st, ts).Some?
    ensures Holds(m, DecodeLayer(m, st, ts).value, Extended(kv, ts), n + 1)
    ensures Grows(st, DecodeLayer(m, st, ts).value) && OnlyLayer(st, DecodeLayer(m, st, ts).value, m.en.layer)
  {
    hide Inv, HeadOk, DecodeLayer, Grows, OnlyLayer, Log, PageTable, EncodeAll, EncodeRow, NormOk, TokensOk, TokenOk,
      LayerTrue;
    Decoded(m, st, ts);
    DecodeTrue(m, st, kv, ts);
    PositionIsTotal(m, st, kv, n);
    ExtendedOk(m.en.cfg, kv, ts, n);
    var st', longer, more := DecodeLayer(m, st, ts).value, Extended(kv, ts), n + 1;
    forall h | 0 <= h < m.en.cfg.numKvHeads ensures HeadHolds(m, st', h, longer, more) {
      HeldAt(m, st, kv, n, h);
      assert GrownRel(m, ts, n)(h, HeadAt(m, st, h), HeadAt(m, st', h));
      EncodeMore(m.en.cfg, kv[h], ts[h]);
    }
  }

  // ---- decoding never runs out of slots ----

  lemma {:induction false} DecodeSucceeds(m: Manager, st: State, kv: seq<seq<Token>>, n: nat, ts: seq<Token>, h: nat)
    requires Holds(m, st, kv, n) && NormOk(m.en.ker) && StepTokens(m.en.cfg, ts)
    requires n < m.en.cfg.maxPages * m.en.cfg.pageSize && h <= m.en.cfg.numKvHeads
    ensures Iterate(DecodeStepOf(m, ts, n), st, h).Some?
  {
    hide Inv, HeadOk, Holds, NormOk, Log, PageTable, DecodeHead, HeadsDone, LoopBody, HeadStepOk;
    if h == 0 {
    } else {
      DecodeSucceeds(m, st, kv, n, ts, h - 1);
      HoldsParts(m, st, kv, n);
      DecodeBody(m, ts, n);
      LoopDone(m, DecodeStepOf(m, ts, n), GrownRel(m, ts, n), st, h - 1);
      var mid := Iterate(DecodeStepOf(m, ts, n), st, h - 1).value;
      Untouched(m, st, mid, h - 1, GrownRel(m, ts, n));
      HeldAt(m, st, kv, n, h - 1);
      DecodedTable(m, mid, h - 1, ts[h - 1], n);
    }
  }

  lemma HoldsParts(m: Manager, st: State, kv: seq<seq<Token>>, n: nat)
    requires Holds(m, st, kv, n)
    ensures m.en.Valid() && Inv(m.en.cfg, st)
  {
    hide Inv;
  }

  /** Decode succeeds whenever the pages have room, whatever the state of the slot arenas. */
  lemma DecodeNeedsOnlyPages(m: Manager, st: State, kv: seq<seq<Token>>, n: nat, ts: seq<Token>)
    requires Holds(m, st, kv, n) && NormOk(m.en.ker) && StepTokens(m.en.cfg, ts)
    requires n < m.en.cfg.maxPages * m.en.cfg.pageSize
    ensures DecodeLayer(m, st, ts).Some?
  {
    hide Inv, Holds, NormOk, HeadAt, Log, DecodeStepOf;
    HoldsParts(m, st, kv, n);
    PositionIsTotal(m, st, kv, n);
    DecodeSucceeds(m, st, kv, n, ts, m.en.cfg.numKvHeads);
  }

  // ---- runs ----

  /** What a run has put into the layer: its prompt and every decoded token. */
  function RunLog(kv: seq<seq<Token>>, steps: seq<seq<Token>>): (r: seq<seq<Token>>)
    requires forall i :: 0 <= i < |steps| ==> |steps[i]| == |kv|
    ensures |r| == |kv|
  {
    if steps == [] then kv else Extended(RunLog(kv, steps[..|steps| - 1]), steps[|steps| - 1])
  }

  /** Decode the steps one after another; the first failure ends the run. */
  ghost function RunDecode(m: Manager, st: State, steps: seq<seq<Token>>): Option<State>
  {
    Iterate((s: State, i: nat) =>
      if m.en.Valid() && Inv(m.en.cfg, s) && i < |steps| then DecodeLayer(m, s, steps[i]) else None, st, |steps|)
  }

  lemma NextDecode(m: Manager, st: State, steps: seq<seq<Token>>)
    requires steps != []
    ensures var k := |steps| - 1;
      RunDecode(m, st, steps) ==
      match RunDecode(m, st, steps[..k])
      case None => None
      case Some(mid) => if m.en.Valid() && Inv(m.en.cfg, mid) then DecodeLayer(m, mid, steps[k]) else None
  {
    hide DecodeLayer, Inv;
    var k := |steps| - 1;
    var f := (s: State, i: nat) =>
      if m.en.Valid() && Inv(m.en.cfg, s) && i < |steps| then DecodeLayer(m, s, steps[i]) else None;
    var g := (s: State, i: nat) =>
      if m.en.Valid() && Inv(m.en.cfg, s) && i < |steps[..k]| then DecodeLayer(m, s, steps[..k][i]) else None;
    forall s, i: nat | i < k ensures f(s, i) == g(s, i) { assert steps[..k][i] == steps[i]; }
    IterateExt(f, g, st, k);
  }

  lemma {:induction false} IterateExt(f: (State, nat) -> Option<State>, g: (State, nat) -> Option<State>, st: State,
                                      n: nat)
    requires forall s, i: nat :: i < n ==> f(s, i) == g(s, i)
    ensures Iterate(f, st, n) == Iterate(g, st, n)
  {
    if n == 0 {
    } else {
      IterateExt(f, g, st, n - 1);
    }
  }

  predicate StepsOk(cfg: CacheConfig, steps: seq<seq<Token>>)
  {
    forall i :: 0 <= i < |steps| ==> StepTokens(cfg, steps[i])
  }

  /** Over any run of decode steps within the page capacity: it succeeds, the invariant holds, and every
    * head of the layer holds exactly the tokens of the run, in order. */
  lemma {:induction false} RunHolds(m: Manager, st: State, kv: seq<seq<Token>>, n: nat, steps: seq<seq<Token>>)
    requires Holds(m, st, kv, n) && NormOk(m.en.ker) && StepsOk(m.en.cfg, steps)
    requires n + |steps| <= m.en.cfg.maxPages * m.en.cfg.pageSize
    ensures |kv| == m.en.cfg.numKvHeads && RunDecode(m, st, steps).Some?
    ensures Holds(m, RunDecode(m, st, steps).value, RunLog(kv, steps), n + |steps|)
    ensures Grows(st, RunDecode(m, st, steps).value) && OnlyLayer(st, RunDecode(m, st, steps).value, m.en.layer)
    decreases |steps|
  {
    hide Holds, NormOk, Inv, DecodeLayer, Grows, OnlyLayer, RunDecode, TokensOk;
    HoldsParts(m, st, kv, n);
    HoldsPrompt(m, st, kv, n);
    if steps == [] {
      NoSteps(m, st);
      GrowsSelf(st);
      OnlyLayerSelf(st, m.en.layer);
    } else {
      var k := |steps| - 1;
      RunHolds(m, st, kv, n, steps[..k]);
      NextDecode(m, st, steps);
      var mid := RunDecode(m, st, steps[..k]).value;
      HoldsParts(m, mid, RunLog(kv, steps[..k]), n + k);
      DecodeNeedsOnlyPages(m, mid, RunLog(kv, steps[..k]), n + k, steps[k]);
      DecodeHolds(m, mid, RunLog(kv, steps[..k]), n + k, steps[k]);
      var st' := RunDecode(m, st, steps).value;
      GrowsTrans(st, mid, st');
      OnlyLayerTrans(st, mid, st', m.en.layer);
    }
  }

  lemma HoldsPrompt(m: Manager, st: State, kv: seq<seq<Token>>, n: nat)
    requires Holds(m, st, kv, n)
    ensures PromptOk(m.en.cfg, kv, n) && |kv| == m.en.cfg.numKvHeads
  {
    hide Inv;
  }

  lemma NoSteps(m: Manager, st: State)
    ensures RunDecode(m, st, []) == Some(st)
  {
    hide DecodeLayer, Inv;
  }

  lemma OnlyLayerSelf(st: State, l: nat)
    ensures OnlyLayer(st, st, l)
  {
  }

  lemma OnlyLayerTrans(a: State, b: State, c: State, l: nat)
    requires OnlyLayer(a, b, l) && OnlyLayer(b, c, l)
    ensures OnlyLayer(a, c, l)
  {
  }

  // ---- what the correction paths may assume ----

  /** In every state a run reaches, the view given to the correction of a head is well formed, its pages
    * are in order and its tokens are the run's. */
  lemma ReachableView(m: Manager, st: State, kv: seq<seq<Token>>, n: nat, h: nat)
    requires Holds(m, st, kv, n) && h < m.en.cfg.numKvHeads
    ensures m.en.layer < |st.heads| && h < |st.heads[m.en.layer]|
    ensures st.heads[m.en.layer][h].next <= |st.heads[m.en.layer][h].pages|
    ensures var view := View(st, m.en.layer, h);
      && ViewOk(m.en.cfg, view) && MetaShaped(view.pages) && PagesInOrder(view.pages) && TokenCount(view.pages) == n
      && (forall kind :: Entries(m.en.cfg, kind, view.pages, |view.pages|, true) == Stored(m.en.cfg, kind, view.pages))
  {
    hide Holds, Inv, ViewOk, PagesInOrder, Entries, Log, PageTable, View;
    HoldsParts(m, st, kv, n);
    HeldAt(m, st, kv, n, h);
    OneHead(m.en.cfg, st, m.en.layer, h);
    ViewSound(m.en.cfg, st, m.en.layer, h, n);
  }
}
