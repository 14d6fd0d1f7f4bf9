/** The cache shared by all layers of a patched model: layer 0 alone resets it.
  *
  * Single sequences only (one batch row); a pass visits every layer in order. */
module Protocol {

  import opened Config
  import opened Quantizer
  import opened ResidualPack
  import opened Pages
  import opened Selection
  import opened BaseRows
  import opened SlotArena
  import opened CacheState
  import opened StorePlan
  import opened LayerSteps
  import opened LayerRuns
  import opened TrueSlots
  import opened Sessions
  import opened Occupancy
  import opened Capacity

  // ---- a new cache ----

  function BlankPacked(cfg: CacheConfig, kind: Kind): (p: Packed)
    ensures p.Fits(BlockRows(cfg, kind) * BlockWidth(cfg, kind), cfg.residualBits)
  {
    var n := BlockRows(cfg, kind) * BlockWidth(cfg, kind);
    if cfg.residualBits == 8 then Wide(seq(n, _ => 0), 0.0) else Nibbles(seq((n + 1) / 2, _ => 0 as Byte), 0.0)
  }

  function BlankPage(cfg: CacheConfig): (p: PageState)
    requires cfg.Valid()
    ensures PageOk(cfg, p) && Unused(p)
  {
    PageState(seq(cfg.pageSize, _ => BlankRow(cfg)), 0, None)
  }

  function BlankHead(cfg: CacheConfig): (hd: Head)
    requires cfg.Valid()
    ensures HeadOk(cfg, hd) && hd.next == 0
  {
    Head(seq(cfg.maxPages, _ => BlankPage(cfg)), 0)
  }

  function BlankArena(cfg: CacheConfig, kind: Kind, n: nat): Arena
  {
    Arena(seq(n, _ => BlankPacked(cfg, kind)), seq(n, i => i), map[])
  }

  /** A freshly constructed cache. */
  function Fresh(cfg: CacheConfig): State
    requires cfg.Valid()
  {
    State(seq(cfg.numLayers, _ => seq(cfg.numKvHeads, _ => BlankHead(cfg))),
          BlankArena(cfg, KSlot, ArenaSlots(cfg)), BlankArena(cfg, VSlot, ArenaSlots(cfg)))
  }

  /** The pages of a new cache. */
  lemma BlankPages(cfg: CacheConfig)
    requires cfg.Valid()
    ensures |BlankHead(cfg).pages| == cfg.maxPages && BlankHead(cfg).next == 0
    ensures forall p :: 0 <= p < cfg.maxPages ==> BlankHead(cfg).pages[p] == BlankPage(cfg)
    ensures BlankPage(cfg).valid == 0 && BlankPage(cfg).meta == None
  {
    hide BlankRow;
  }

  /** The buffers of a new cache, entry by entry. */
  lemma FreshBuffers(cfg: CacheConfig)
    requires cfg.Valid()
    ensures var st, n := Fresh(cfg), ArenaSlots(cfg);
      && Framed(cfg, st)
      && (forall l, h :: 0 <= l < cfg.numLayers && 0 <= h < cfg.numKvHeads ==> st.heads[l][h] == BlankHead(cfg))
      && st.k.buf == seq(n, _ => BlankPacked(cfg, KSlot)) && st.v.buf == seq(n, _ => BlankPacked(cfg, VSlot))
      && st.k.free == st.v.free == seq(n, i => i)
  {
    hide BlankPage, ArenaSlots, BlankPacked;
  }

  lemma BlankArenaOk(cfg: CacheConfig, kind: Kind, n: nat)
    ensures ArenaOk(cfg, kind, BlankArena(cfg, kind, n)) && |BlankArena(cfg, kind, n).free| == n
  {
    hide BlankPacked;
    var a := BlankArena(cfg, kind, n);
    forall s: nat ensures s in a.free <==> s < |a.buf| && s !in a.claims {
      if s < n { assert a.free[s] == s; }
    }
  }

  lemma BlankRefs(cfg: CacheConfig, k: Arena, v: Arena, l: nat, h: nat)
    requires cfg.Valid()
    ensures HeadRefs(cfg, k, v, BlankHead(cfg), l, h)
  {
    hide PageOk, SlotsOk;
  }

  /** A new cache keeps the invariant, has every slot free and no page allocated. */
  lemma FreshOk(m: Manager)
    requires m.en.Valid()
    ensures Inv(m.en.cfg, Fresh(m.en.cfg))
    ensures |Fresh(m.en.cfg).k.free| == |Fresh(m.en.cfg).v.free| == ArenaSlots(m.en.cfg)
    ensures forall l :: 0 <= l < m.en.cfg.numLayers ==> EmptyLayer(At(m, l), Fresh(m.en.cfg))
  {
    hide ArenaOk, BlankArena, BlankHead, HeadRefs, HeadOk, ArenaSlots;
    var cfg, st := m.en.cfg, Fresh(m.en.cfg);
    BlankArenaOk(cfg, KSlot, ArenaSlots(cfg));
    BlankArenaOk(cfg, VSlot, ArenaSlots(cfg));
    forall l, h | 0 <= l < |st.heads| && 0 <= h < |st.heads[l]|
      ensures HeadOk(cfg, st.heads[l][h]) && HeadRefs(cfg, st.k, st.v, st.heads[l][h], l, h)
    {
      BlankRefs(cfg, st.k, st.v, l, h);
    }
    assert HeadsOk(cfg, st);
  }

  // ---- one pass over the layers ----

  /** Layer `l` holds its share of the model's log. */
  ghost predicate LayerHolds(m: Manager, st: State, l: nat, kvs: seq<seq<seq<Token>>>, n: nat)
  {
    l < |kvs| && Holds(At(m, l), st, kvs[l], n)
  }

  /** Layers before `l` hold the log, the others are empty. */
  ghost predicate PromptedTo(m: Manager, st: State, kvs: seq<seq<seq<Token>>>, n: nat, l: nat)
  {
    && (forall i :: 0 <= i < l ==> LayerHolds(m, st, i, kvs, n))
    && (forall i :: l <= i < m.en.cfg.numLayers ==> EmptyLayer(At(m, i), st))
  }

  /** Every layer holds the log. */
  ghost predicate AllHold(m: Manager, st: State, kvs: seq<seq<seq<Token>>>, n: nat)
  {
    m.en.Valid() && Inv(m.en.cfg, st) && |kvs| == m.en.cfg.numLayers
    && forall i :: 0 <= i < m.en.cfg.numLayers ==> LayerHolds(m, st, i, kvs, n)
  }

  /** What a layer holds survives steps of other layers. */
  lemma HoldsFramed(m: Manager, st: State, st': State, l: nat, kvs: seq<seq<seq<Token>>>, n: nat)
    requires m.en.Valid() && l < m.en.cfg.numLayers && LayerHolds(m, st, l, kvs, n) && Inv(m.en.cfg, st')
    requires l < |st.heads| == |st'.heads| && st'.heads[l] == st.heads[l] && Grows(st, st')
    ensures LayerHolds(m, st', l, kvs, n)
  {
    hide Inv, HeadOk, PageTable, Log, EncodeAll, TokensOk, LayerTrue, Grows;
    var ml := At(m, l);
    LayerTrueFramed(ml, st, st', kvs[l], m.en.cfg.numKvHeads);
    forall h | 0 <= h < m.en.cfg.numKvHeads ensures HeadHolds(ml, st', h, kvs[l], n) {
      HeldAt(ml, st, kvs[l], n, h);
      assert Ready(ml, st', h);
      OneHead(m.en.cfg, st, l, h);
      OneHead(m.en.cfg, st', l, h);
    }
  }

  lemma EmptyFramed(m: Manager, st: State, st': State, l: nat)
    requires m.en.Valid() && l < m.en.cfg.numLayers && EmptyLayer(At(m, l), st) && Inv(m.en.cfg, st')
    requires l < |st.heads| == |st'.heads| && st'.heads[l] == st.heads[l]
    ensures EmptyLayer(At(m, l), st')
  {
    hide Inv, HeadOk;
    var ml := At(m, l);
    forall h | 0 <= h < m.en.cfg.numKvHeads ensures Ready(ml, st', h) && HeadAt(ml, st', h).next == 0 {
      EmptyParts(ml, st, h);
      OneHead(m.en.cfg, st, l, h);
      OneHead(m.en.cfg, st', l, h);
    }
  }

  predicate StepPassOk(cfg: CacheConfig, tss: seq<seq<Token>>)
  {
    |tss| == cfg.numLayers && forall l :: 0 <= l < |tss| ==> StepTokens(cfg, tss[l])
  }

  lemma FramedHeads(cfg: CacheConfig, st: State)
    requires Inv(cfg, st)
    ensures |st.heads| == cfg.numLayers
  {
  }

  /** A layer's prompt turns it from empty to holding, and no other layer notices. */
  lemma PromptLayer(m: Manager, st: State, kvs: seq<seq<seq<Token>>>, n: nat, at: Prompt, l: nat)
    requires m.en.Valid() && Inv(m.en.cfg, st) && PassOk(m.en.cfg, kvs, n) && l < m.en.cfg.numLayers && at.start == 0
    requires PromptedTo(m, st, kvs, n, l) && PrefillLayer(At(m, l), st, kvs[l], at).Some?
    ensures var st' := PrefillLayer(At(m, l), st, kvs[l], at).value;
      Inv(m.en.cfg, st') && PromptedTo(m, st', kvs, n, l + 1) && Grows(st, st')
  {
    hide Inv, PrefillLayer, EmptyLayer, LayerHolds, Holds, PromptOk, Grows;
    var ml := At(m, l);
    var st' := PrefillLayer(ml, st, kvs[l], at).value;
    PrefillHolds(ml, st, kvs[l], at, n);
    HoldsParts(ml, st', kvs[l], n);
    FramedHeads(m.en.cfg, st);
    FramedHeads(m.en.cfg, st');
    forall i | 0 <= i < l + 1 ensures LayerHolds(m, st', i, kvs, n) {
      if i < l { HoldsFramed(m, st, st', i, kvs, n); } else { HoldsLayer(m, st', l, kvs, n); }
    }
    forall i | l + 1 <= i < m.en.cfg.numLayers ensures EmptyLayer(At(m, i), st') { EmptyFramed(m, st, st', i); }
  }

  lemma HoldsLayer(m: Manager, st: State, l: nat, kvs: seq<seq<seq<Token>>>, n: nat)
    requires l < |kvs| && Holds(At(m, l), st, kvs[l], n)
    ensures LayerHolds(m, st, l, kvs, n)
  {
    hide Holds;
  }

  /** The model's log with one token more on every head of every layer. */
  function ExtendedAll(kvs: seq<seq<seq<Token>>>, tss: seq<seq<Token>>): (r: seq<seq<seq<Token>>>)
    requires |kvs| == |tss| && forall l :: 0 <= l < |kvs| ==> |kvs[l]| == |tss[l]|
    ensures |r| == |kvs|
  {
    seq(|kvs|, l requires 0 <= l < |kvs| => Extended(kvs[l], tss[l]))
  }

  /** Layers before `l` hold the longer log, the others still hold the old one. */
  ghost predicate SteppedTo(m: Manager, st: State, kvs: seq<seq<seq<Token>>>, n: nat,
                            more: seq<seq<seq<Token>>>, n': nat, l: nat)
  {
    && (forall i :: 0 <= i < l ==> LayerHolds(m, st, i, more, n'))
    && (forall i :: l <= i < m.en.cfg.numLayers ==> LayerHolds(m, st, i, kvs, n))
  }

  /** A layer's decoded token, likewise; it always succeeds while pages have room. */
  lemma StepLayer(m: Manager, st: State, kvs: seq<seq<seq<Token>>>, tss: seq<seq<Token>>, n: nat,
                  more: seq<seq<seq<Token>>>, n': nat, l: nat)
    requires m.en.Valid() && Inv(m.en.cfg, st) && PassOk(m.en.cfg, kvs, n) && StepPassOk(m.en.cfg, tss)
    requires l < m.en.cfg.numLayers && NormOk(m.en.ker) && n < m.en.cfg.maxPages * m.en.cfg.pageSize
    requires more == ExtendedAll(kvs, tss) && n' == n + 1 && SteppedTo(m, st, kvs, n, more, n', l)
    ensures DecodeLayer(At(m, l), st, tss[l]).Some?
    ensures var st' := DecodeLayer(At(m, l), st, tss[l]).value;
      Inv(m.en.cfg, st') && SteppedTo(m, st', kvs, n, more, n', l + 1) && Grows(st, st')
  {
    hide Inv, DecodeLayer, LayerHolds, Holds, NormOk, TokensOk, Grows;
    var ml := At(m, l);
    LayerHeld(m, st, l, kvs, n);
    DecodeNeedsOnlyPages(ml, st, kvs[l], n, tss[l]);
    DecodeHolds(ml, st, kvs[l], n, tss[l]);
    var st' := DecodeLayer(ml, st, tss[l]).value;
    HoldsParts(ml, st', more[l], n');
    FramedHeads(m.en.cfg, st);
    FramedHeads(m.en.cfg, st');
    forall i | 0 <= i < l + 1 ensures LayerHolds(m, st', i, more, n') {
      if i < l { HoldsFramed(m, st, st', i, more, n'); } else { HoldsLayer(m, st', l, more, n'); }
    }
    forall i | l + 1 <= i < m.en.cfg.numLayers ensures LayerHolds(m, st', i, kvs, n) {
      HoldsFramed(m, st, st', i, kvs, n);
    }
  }

  lemma LayerHeld(m: Manager, st: State, l: nat, kvs: seq<seq<seq<Token>>>, n: nat)
    requires LayerHolds(m, st, l, kvs, n)
    ensures l < |kvs| && Holds(At(m, l), st, kvs[l], n)
  {
    hide Holds;
  }

  // ---- the shared dictionary ----

  /** The cache all layers share, the device it was made on, and each layer's own prefill flag. */
  datatype Shared = Shared(cache: Option<State>, dev: nat, prefilled: seq<bool>)

  /** One call of a wrapped attention layer: the new tokens of every KV head, the device of the hidden
    * states, and what the caller's own cache says. */
  datatype Call = Call(kv: seq<seq<Token>>, len: nat, dev: nat, useCache: bool, hfLen: nat)

  predicate FullPrefill(prefilled: bool, c: Call)
  {
    c.len > 1 || (c.useCache && c.hfLen == 0 && c.len >= 1 && !prefilled)
  }

  /** Before a full prefill layer 0 drops the shared cache; the others only clear their own flag. */
  function Reset(sh: Shared, l: nat, c: Call): (r: Shared)
    requires l < |sh.prefilled|
    ensures |r.prefilled| == |sh.prefilled|
  {
    if !FullPrefill(sh.prefilled[l], c) then sh
    else if l == 0 then Shared(None, 0, sh.prefilled[0 := false])
    else sh.(prefilled := sh.prefilled[l := false])
  }

  /** A cache that is missing or on another device is replaced by a new one. */
  function GetOrCreate(cfg: CacheConfig, sh: Shared, l: nat, dev: nat): Shared
    requires cfg.Valid() && l < |sh.prefilled|
  {
    if sh.cache.None? || sh.dev != dev then Shared(Some(Fresh(cfg)), dev, sh.prefilled[l := false]) else sh
  }

  function FirstTokens(kv: seq<seq<Token>>): (ts: seq<Token>)
    requires forall h :: 0 <= h < |kv| ==> |kv[h]| > 0
    ensures |ts| == |kv|
  {
    seq(|kv|, h requires 0 <= h < |kv| => kv[h][0])
  }

  /** What a layer writes: a prompt, or one token when it is already prefilled. */
  ghost function Advance(m: Manager, st: State, l: nat, c: Call, prefilled: bool): Option<State>
    requires m.en.Valid() && c.len > 0 && PromptOk(m.en.cfg, c.kv, c.len)
  {
    if c.len > 1 || !prefilled then PrefillLayer(At(m, l), st, c.kv, Prompt(0, 4))
    else if l < m.en.cfg.numLayers && Inv(m.en.cfg, st) then DecodeLayer(At(m, l), st, FirstTokens(c.kv))
    else None
  }

  /** One layer's forward, for a batch of one. */
  ghost function Forward(m: Manager, sh: Shared, l: nat, c: Call): Option<Shared>
    requires m.en.Valid() && l < |sh.prefilled|
    requires c.len > 0 && PromptOk(m.en.cfg, c.kv, c.len)
  {
    var g := GetOrCreate(m.en.cfg, Reset(sh, l, c), l, c.dev);
    var next := Advance(m, g.cache.value, l, c, g.prefilled[l]);
    if next.Some? then Some(Shared(next, g.dev, g.prefilled[l := true])) else None
  }
}
