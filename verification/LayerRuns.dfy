/** Prefill and decode over all KV heads of a layer, and whole runs of them. */
module LayerRuns {

  import opened Config
  import opened BaseRows
  import opened SlotArena
  import opened CacheState
  import opened PageTables
  import opened StorePlan
  import opened LayerSteps
  import opened Prefill
  import opened Decode

  // ---- a loop over heads ----

  ghost predicate HeadStepOk(m: Manager, st: State, st': State, h: nat, rel: (nat, Head, Head) -> bool)
    requires Ready(m, st, h)
  {
    && Ready(m, st', h) && Grows(st, st') && OnlyHead(st, st', m.en.layer, h)
    && rel(h, HeadAt(m, st, h), HeadAt(m, st', h))
  }

  /** What every successful iteration does to its head. */
  ghost predicate LoopBody(m: Manager, step: (State, nat) -> Option<State>, rel: (nat, Head, Head) -> bool)
  {
    forall st: State, h: nat :: Ready(m, st, h) && step(st, h).Some? ==> HeadStepOk(m, st, step(st, h).value, h, rel)
  }

  ghost predicate OnlyLayer(st: State, st': State, l: nat)
  {
    |st'.heads| == |st.heads| && forall i :: 0 <= i < |st.heads| && i != l ==> st'.heads[i] == st.heads[i]
  }

  /** The first `n` heads of the layer have taken their step; nothing else has changed. */
  ghost predicate HeadsDone(m: Manager, st: State, st': State, n: nat, rel: (nat, Head, Head) -> bool)
  {
    && m.en.Valid() && Inv(m.en.cfg, st) && Inv(m.en.cfg, st') && n <= m.en.cfg.numKvHeads
    && Grows(st, st') && OnlyLayer(st, st', m.en.layer)
    && (forall h :: 0 <= h < n ==> Ready(m, st, h) && Ready(m, st', h) && rel(h, HeadAt(m, st, h), HeadAt(m, st', h)))
    && (forall h :: n <= h < m.en.cfg.numKvHeads ==>
          Ready(m, st, h) && Ready(m, st', h) && HeadAt(m, st', h) == HeadAt(m, st, h))
  }

  lemma OnlyHeadOnlyLayer(cfg: CacheConfig, a: State, b: State, c: State, l: nat, h: nat)
    requires OnlyLayer(a, b, l) && OnlyHead(b, c, l, h)
    ensures OnlyLayer(a, c, l)
  {
    forall i | 0 <= i < |a.heads| && i != l ensures c.heads[i] == a.heads[i] {
      assert |c.heads[i]| == |b.heads[i]|;
      forall j | 0 <= j < |b.heads[i]| ensures c.heads[i][j] == b.heads[i][j] {}
    }
  }

  lemma NoneDone(m: Manager, st: State, rel: (nat, Head, Head) -> bool)
    requires m.en.Valid() && Inv(m.en.cfg, st)
    ensures HeadsDone(m, st, st, 0, rel)
  {
    hide Inv, Extends, HeadAt;
    GrowsSelf(st);
  }

  lemma OneMoreDone(m: Manager, st: State, mid: State, st': State, h: nat, rel: (nat, Head, Head) -> bool)
    requires HeadsDone(m, st, mid, h, rel) && h < m.en.cfg.numKvHeads
    requires Ready(m, mid, h) && HeadStepOk(m, mid, st', h, rel)
    ensures HeadsDone(m, st, st', h + 1, rel)
  {
    hide Inv, Grows, HeadOk;
    GrowsTrans(st, mid, st');
    OnlyHeadOnlyLayer(m.en.cfg, st, mid, st', m.en.layer, h);
    forall j | 0 <= j < m.en.cfg.numKvHeads && j != h
      ensures Ready(m, st', j) && HeadAt(m, st', j) == HeadAt(m, mid, j)
    {
      OneHead(m.en.cfg, mid, m.en.layer, j);
      OneHead(m.en.cfg, st', m.en.layer, j);
    }
  }

  lemma {:induction false} LoopDone(m: Manager, step: (State, nat) -> Option<State>, rel: (nat, Head, Head) -> bool,
                                    st: State, n: nat)
    requires m.en.Valid() && Inv(m.en.cfg, st) && n <= m.en.cfg.numKvHeads && LoopBody(m, step, rel)
    requires Iterate(step, st, n).Some?
    ensures HeadsDone(m, st, Iterate(step, st, n).value, n, rel)
  {
    hide HeadsDone, Inv, LoopBody, HeadStepOk;
    if n == 0 {
      NoneDone(m, st, rel);
    } else {
      LoopDone(m, step, rel, st, n - 1);
      var mid := Iterate(step, st, n - 1).value;
      DoneReady(m, st, mid, n - 1, rel);
      BodyStep(m, step, rel, mid, n - 1);
      OneMoreDone(m, st, mid, step(mid, n - 1).value, n - 1, rel);
    }
  }

  lemma DoneReady(m: Manager, st: State, st': State, n: nat, rel: (nat, Head, Head) -> bool)
    requires HeadsDone(m, st, st', n, rel) && n < m.en.cfg.numKvHeads
    ensures Ready(m, st', n)
  {
    hide Inv;
  }

  lemma Untouched(m: Manager, st: State, mid: State, h: nat, rel: (nat, Head, Head) -> bool)
    requires HeadsDone(m, st, mid, h, rel) && h < m.en.cfg.numKvHeads
    ensures Ready(m, st, h) && Ready(m, mid, h) && HeadAt(m, mid, h) == HeadAt(m, st, h)
  {
    hide Inv, HeadOk;
  }

  lemma BodyStep(m: Manager, step: (State, nat) -> Option<State>, rel: (nat, Head, Head) -> bool, st: State, h: nat)
    requires LoopBody(m, step, rel) && Ready(m, st, h) && step(st, h).Some?
    ensures HeadStepOk(m, st, step(st, h).value, h, rel)
  {
    hide Ready, HeadStepOk;
  }

  // ---- prefill ----

  /** A layer's prompt: the same number of tokens for every KV head. */
  predicate PromptOk(cfg: CacheConfig, kv: seq<seq<Token>>, n: nat)
  {
    |kv| == cfg.numKvHeads && forall h :: 0 <= h < |kv| ==> |kv[h]| == n && TokensOk(cfg, kv[h])
  }

  /** A model's prompt: one for every layer. */
  predicate PassOk(cfg: CacheConfig, kvs: seq<seq<seq<Token>>>, n: nat)
  {
    |kvs| == cfg.numLayers && forall l :: 0 <= l < |kvs| ==> PromptOk(cfg, kvs[l], n)
  }

  ghost function PrefillStep(m: Manager, kv: seq<seq<Token>>, at: Prompt): (State, nat) -> Option<State>
  {
    (st: State, h: nat) =>
      if Ready(m, st, h) && h < |kv| then WritePages(m, st, h, kv[h], at, PagesFor(m.en.cfg, |kv[h]|)) else None
  }

  ghost function PrefillLayer(m: Manager, st: State, kv: seq<seq<Token>>, at: Prompt): Option<State>
  {
    Iterate(PrefillStep(m, kv, at), st, m.en.cfg.numKvHeads)
  }

  /** A head after its prompt: the log has grown by exactly the prompt, and an empty head now has a page
    * table. */
  ghost predicate Prompted(m: Manager, kv: seq<seq<Token>>, at: Prompt, h: nat, before: Head, after: Head)
  {
    && m.en.Valid() && h < |kv| && TokensOk(m.en.cfg, kv[h]) && HeadOk(m.en.cfg, before) && HeadOk(m.en.cfg, after)
    && Log(m.en.cfg, after) == Log(m.en.cfg, before) + EncodeAll(m.en.cfg, kv[h])
    && (before.next == 0 && at.start == 0 ==> PageTable(m.en.cfg, after, |kv[h]|))
  }

  ghost function PromptedRel(m: Manager, kv: seq<seq<Token>>, at: Prompt): (nat, Head, Head) -> bool
  {
    (h: nat, before: Head, after: Head) => Prompted(m, kv, at, h, before, after)
  }

  lemma PromptedHead(m: Manager, st: State, h: nat, kv: seq<seq<Token>>, at: Prompt)
    requires Ready(m, st, h) && h < |kv| && TokensOk(m.en.cfg, kv[h]) && PrefillStep(m, kv, at)(st, h).Some?
    ensures HeadStepOk(m, st, PrefillStep(m, kv, at)(st, h).value, h, PromptedRel(m, kv, at))
  {
    hide Inv, HeadOk, WritePages, EncodeAll, Log, PageTable, Grows, OnlyHead, PagesFor, TokensOk;
    var ts, p := kv[h], PagesFor(m.en.cfg, |kv[h]|);
    WrotePages(m, st, h, ts, at, p);
    UptoLast(m.en.cfg, |ts|);
    assert EncodeAll(m.en.cfg, ts)[..|ts|] == EncodeAll(m.en.cfg, ts);
    if HeadAt(m, st, h).next == 0 && at.start == 0 { PromptTable(m, st, h, ts, at, p); }
  }

  lemma PrefillBody(m: Manager, kv: seq<seq<Token>>, at: Prompt, n: nat)
    requires PromptOk(m.en.cfg, kv, n)
    ensures LoopBody(m, PrefillStep(m, kv, at), PromptedRel(m, kv, at))
  {
    hide HeadStepOk, PromptedRel, WritePages, PagesFor, TokensOk, Inv;
    forall st: State, h: nat | Ready(m, st, h) && PrefillStep(m, kv, at)(st, h).Some?
      ensures HeadStepOk(m, st, PrefillStep(m, kv, at)(st, h).value, h, PromptedRel(m, kv, at))
    {
      PromptedHead(m, st, h, kv, at);
    }
  }

  /** Prefill keeps the invariant, leaves every other layer alone, and appends every head's prompt. */
  lemma Prefilled(m: Manager, st: State, kv: seq<seq<Token>>, at: Prompt, n: nat)
    requires m.en.Valid() && Inv(m.en.cfg, st) && PromptOk(m.en.cfg, kv, n) && PrefillLayer(m, st, kv, at).Some?
    ensures HeadsDone(m, st, PrefillLayer(m, st, kv, at).value, m.en.cfg.numKvHeads, PromptedRel(m, kv, at))
  {
    hide HeadsDone, LoopBody, PrefillStep, PromptedRel, Inv;
    PrefillBody(m, kv, at, n);
    LoopDone(m, PrefillStep(m, kv, at), PromptedRel(m, kv, at), st, m.en.cfg.numKvHeads);
  }

  // ---- decode ----

  ghost function DecodeStepOf(m: Manager, ts: seq<Token>, pos: nat): (State, nat) -> Option<State>
  {
    (st: State, h: nat) =>
      if Ready(m, st, h) && h < |ts| && TokenOk(m.en.cfg, ts[h]) then DecodeHead(m, st, h, ts[h], pos) else None
  }

  /** One token for every KV head, at the position head 0 has reached. */
  ghost function DecodeLayer(m: Manager, st: State, ts: seq<Token>): Option<State>
    requires m.en.Valid() && Inv(m.en.cfg, st)
  {
    var pos := |Log(m.en.cfg, HeadAt(m, st, 0))|;
    Iterate(DecodeStepOf(m, ts, pos), st, m.en.cfg.numKvHeads)
  }

  /** A head after one decoded token. */
  ghost predicate Grown(m: Manager, ts: seq<Token>, pos: nat, h: nat, before: Head, after: Head)
  {
    && m.en.Valid() && h < |ts| && TokenOk(m.en.cfg, ts[h]) && HeadOk(m.en.cfg, before) && HeadOk(m.en.cfg, after)
    && Log(m.en.cfg, after) == Log(m.en.cfg, before) + [EncodeRow(m.en.cfg, ts[h])]
    && (PageTable(m.en.cfg, before, pos) ==> PageTable(m.en.cfg, after, pos + 1))
  }

  ghost function GrownRel(m: Manager, ts: seq<Token>, pos: nat): (nat, Head, Head) -> bool
  {
    (h: nat, before: Head, after: Head) => Grown(m, ts, pos, h, before, after)
  }

  lemma GrownHead(m: Manager, st: State, h: nat, ts: seq<Token>, pos: nat)
    requires Ready(m, st, h) && DecodeStepOf(m, ts, pos)(st, h).Some? && NormOk(m.en.ker)
    ensures HeadStepOk(m, st, DecodeStepOf(m, ts, pos)(st, h).value, h, GrownRel(m, ts, pos))
  {
    hide Inv, HeadOk, DecodeHead, EncodeRow, Log, PageTable, Grows, OnlyHead, NormOk, Opened;
    DecodedHead(m, st, h, ts[h], pos);
    if PageTable(m.en.cfg, HeadAt(m, st, h), pos) { DecodedTable(m, st, h, ts[h], pos); }
  }

  lemma DecodeBody(m: Manager, ts: seq<Token>, pos: nat)
    requires NormOk(m.en.ker)
    ensures LoopBody(m, DecodeStepOf(m, ts, pos), GrownRel(m, ts, pos))
  {
    hide HeadStepOk, GrownRel, DecodeStepOf, Inv, NormOk;
    forall st: State, h: nat | Ready(m, st, h) && DecodeStepOf(m, ts, pos)(st, h).Some?
      ensures HeadStepOk(m, st, DecodeStepOf(m, ts, pos)(st, h).value, h, GrownRel(m, ts, pos))
    {
      GrownHead(m, st, h, ts, pos);
    }
  }

  /** Decoding keeps the invariant, leaves every other layer alone, and appends one row to every head. */
  lemma Decoded(m: Manager, st: State, ts: seq<Token>)
    requires m.en.Valid() && Inv(m.en.cfg, st) && NormOk(m.en.ker) && DecodeLayer(m, st, ts).Some?
    ensures HeadsDone(m, st, DecodeLayer(m, st, ts).value, m.en.cfg.numKvHeads,
                      GrownRel(m, ts, |Log(m.en.cfg, HeadAt(m, st, 0))|))
  {
    hide HeadsDone, LoopBody, DecodeStepOf, GrownRel, Inv, NormOk, HeadAt, Log;
    var pos := |Log(m.en.cfg, HeadAt(m, st, 0))|;
    DecodeBody(m, ts, pos);
    LoopDone(m, DecodeStepOf(m, ts, pos), GrownRel(m, ts, pos), st, m.en.cfg.numKvHeads);
  }
}
