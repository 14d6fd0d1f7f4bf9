/** The patched attention layers of a model: one cache dictionary, shared by reference, and a prefill
  * flag of each layer's own. */
module LlamaPatch {

  import opened Config
  import opened BaseRows
  import opened CacheState
  import opened StorePlan
  import opened LayerSteps
  import opened LayerRuns
  import opened Sessions
  import opened Capacity
  import opened Protocol
  import opened SharedCache
  import opened Cache
  import opened Layer

  /** Caches by sequence id. A batch of one uses id 0 only. */
  class CacheDict {

    var caches: map<nat, KVCache>

    constructor ()
      ensures caches == map[]
    {
      caches := map[];
    }

    ghost function Footprint(): set<object>
      reads this
    {
      {this} + if 0 in caches then {caches[0]} + caches[0].Repr else {}
    }

    ghost predicate Valid(cfg: CacheConfig)
      reads Footprint()
    {
      0 in caches ==>
        && this !in caches[0].Repr && caches[0].Valid() && caches[0].cfg == cfg && Inv(cfg, caches[0].st)
    }

    ghost function Content(): Option<State>
      reads Footprint()
    {
      if 0 in caches then Some(caches[0].st) else None
    }

    ghost function Device(): nat
      reads Footprint()
    {
      if 0 in caches then caches[0].device else 0
    }
  }

  class CareAttention {

    const m: Manager
    const layer: nat
    const dict: CacheDict
    var prefilled: map<nat, bool>

    constructor (m: Manager, layer: nat, dict: CacheDict)
      ensures this.m == m && this.layer == layer && this.dict == dict && !Flag()
    {
      this.m, this.layer, this.dict, prefilled := m, layer, dict, map[];
    }

    predicate Flag()
      reads this
    {
      0 in prefilled && prefilled[0]
    }

    ghost predicate Valid()
      reads dict.Footprint()
    {
      && m.en.Valid() && layer < m.en.cfg.numLayers
      && dict.Valid(m.en.cfg)
    }

    /** The shared state, with the flags of all layers. */
    ghost function AsShared(flags: seq<bool>): Shared
      reads dict.Footprint()
    {
      Shared(dict.Content(), dict.Device(), flags)
    }

    /** Drop the cache and the flag of one sequence, or those of all when none is named. The dictionary of caches is
      * every layer's, the flags are this layer's own. */
    method ResetCache(seqId: Option<nat>)
      requires Valid()
      modifies this, dict
      ensures dict.caches == if seqId.None? then map[] else old(dict.caches) - {seqId.value}
      ensures prefilled == if seqId.None? then map[] else old(prefilled) - {seqId.value}
      ensures Valid()
      ensures seqId.None? || seqId.value == 0 ==>
        !Flag() && dict.Content() == None && dict.Device() == 0 && dict.Footprint() == {dict}
    {
      if seqId.None? {
        dict.caches, prefilled := map[], map[];
      } else {
        dict.caches := dict.caches - {seqId.value};
        prefilled := prefilled - {seqId.value};
      }
    }

    /** The sequence's cache; a new one when it is missing or on another device. */
    method GetOrCreateCache(dev: nat) returns (cache: KVCache)
      requires Valid()
      modifies this, dict
      ensures Valid() && 0 in dict.caches && cache == dict.caches[0] && cache.device == dev
      ensures if old(dict.Content()).None? || old(dict.Device()) != dev
        then fresh(cache) && fresh(cache.Repr) && cache.st == Fresh(m.en.cfg) && !Flag()
        else dict.caches == old(dict.caches) && prefilled == old(prefilled) && cache.st == old(dict.Content()).value
    {
      hide Inv, KVCache.Valid, KVCache.Shaped, Fresh;
      if 0 !in dict.caches || dict.caches[0].device != dev {
        var made := new KVCache(m.en.cfg, dev);
        FreshInv(m);
        dict.caches := dict.caches[0 := made];
        prefilled := prefilled[0 := false];
      }
      cache := dict.caches[0];
    }

    /** The write half of a forward call: prefill, or decode when this layer is already prefilled. */
    method Write(cache: KVCache, c: Call) returns (ok: bool)
      requires Valid() && NormOk(m.en.ker) && c.len > 0 && PromptOk(m.en.cfg, c.kv, c.len)
      requires 0 in dict.caches && cache == dict.caches[0] && this !in cache.Repr
      modifies this, cache.Repr
      ensures ok <==> Advance(m, old(cache.st), layer, c, old(Flag())).Some?
      ensures ok ==> Valid() && Flag() && cache.st == Advance(m, old(cache.st), layer, c, old(Flag())).value
    {
      hide Inv, KVCache.Valid, KVCache.Shaped, PrefillLayer, DecodeLayer, PromptOk, NormOk;
      ghost var st := cache.st;
      if c.len > 1 || !Flag() {
        prefilled := prefilled[0 := true];
        ok := PrefillHeads(At(m, layer), cache, c.kv, Prompt(0, 4), c.len);
        if ok { PrefilledInv(At(m, layer), st, c.kv, Prompt(0, 4), c.len); }
      } else {
        FirstOk(m.en.cfg, c.kv, c.len);
        ok := DecodeHeads(At(m, layer), cache, FirstTokens(c.kv));
        if ok { DecodedInv(At(m, layer), st, FirstTokens(c.kv)); }
      }
    }

    /** The cache half of a forward call: reset before a full prefill, then get or create. `flags` stands
      * for the flags of all layers, of which only this layer's own is read or written. */
    method Obtain(c: Call, ghost flags: seq<bool>) returns (cache: KVCache)
      requires Valid() && layer < |flags| && flags[layer] == Flag() && this !in dict.Footprint()
      modifies this, dict
      ensures Valid() && 0 in dict.caches && cache == dict.caches[0]
      ensures AsShared(flags[layer := Flag()])
           == GetOrCreate(m.en.cfg, Reset(old(AsShared(flags)), layer, c), layer, c.dev)
      ensures this !in dict.Footprint() && fresh(dict.Footprint() - old(dict.Footprint()))
    {
      hide Inv, KVCache.Valid, KVCache.Shaped, Fresh;
      var full := c.len > 1 || (c.useCache && c.hfLen == 0 && c.len >= 1 && !Flag());
      if full {
        if layer == 0 { ResetCache(Some(0)); } else { prefilled := prefilled - {0}; }
      }
      assert flags[layer := false][layer := false] == flags[layer := false];
      assert flags[layer := flags[layer]] == flags;
      cache := GetOrCreateCache(c.dev);
    }

    /** One forward call of this layer, for a batch of one. */
    method Forward(c: Call, ghost flags: seq<bool>) returns (ok: bool)
      requires Valid() && NormOk(m.en.ker) && layer < |flags| && flags[layer] == Flag()
      requires c.len > 0 && PromptOk(m.en.cfg, c.kv, c.len)
      requires this !in dict.Footprint()
      modifies this, dict.Footprint()
      ensures ok <==> Protocol.Forward(m, old(AsShared(flags)), layer, c).Some?
      ensures ok ==> Valid() && Flag() && fresh(dict.Footprint() - old(dict.Footprint()))
      ensures ok ==> AsShared(flags[layer := true]) == Protocol.Forward(m, old(AsShared(flags)), layer, c).value
    {
      hide Inv, KVCache.Valid, KVCache.Shaped, Advance, PromptOk, NormOk, GetOrCreate, Reset;
      var cache := Obtain(c, flags);
      ghost var now := flags[layer := Flag()];
      assert now[layer := true] == flags[layer := true];
      ok := Write(cache, c);
    }
  }

  /** A model whose attention layers all hold the same dictionary. */
  class PatchedModel {

    const m: Manager
    const dict: CacheDict
    const layers: seq<CareAttention>

    /** Layer `l` is wrapper `l`, wrappers are distinct objects, and they share one dictionary. */
    ghost predicate Wired()
    {
      && m.en.Valid() && |layers| == m.en.cfg.numLayers
      && (forall l :: 0 <= l < |layers| ==> layers[l].m == m && layers[l].layer == l && layers[l].dict == dict)
      && (forall i, j :: 0 <= i < j < |layers| ==> layers[i] != layers[j])
    }

    ghost predicate Valid()
      reads dict.Footprint()
    {
      Wired() && dict.Valid(m.en.cfg) && forall l :: 0 <= l < |layers| ==> layers[l] !in dict.Footprint()
    }

    ghost function Flags(): (f: seq<bool>)
      reads layers
      ensures |f| == |layers| && forall l :: 0 <= l < |layers| ==> f[l] == layers[l].Flag()
    {
      seq(|layers|, l requires 0 <= l < |layers| reads layers => layers[l].Flag())
    }

    ghost function Now(): Shared
      reads layers, dict.Footprint()
    {
      Shared(dict.Content(), dict.Device(), Flags())
    }

    /** `patch_llama_model`: wrap every layer, then point all wrappers at one dictionary. */
    constructor (m: Manager)
      requires m.en.Valid()
      ensures Valid() && this.m == m && Now().cache == None && fresh(dict) && fresh(layers)
      ensures forall l :: 0 <= l < |layers| ==> !Flags()[l]
    {
      var shared := new CacheDict();
      var made: seq<CareAttention> := [];
      while |made| < m.en.cfg.numLayers
        invariant |made| <= m.en.cfg.numLayers && shared.caches == map[] && fresh(shared)
        invariant forall l :: 0 <= l < |made| ==>
          fresh(made[l]) && made[l].m == m && made[l].layer == l && made[l].dict == shared && !made[l].Flag()
        invariant forall i, j :: 0 <= i < j < |made| ==> made[i] != made[j]
      {
        var one := new CareAttention(m, |made|, shared);
        made := made + [one];
      }
      this.m, dict, layers := m, shared, made;
    }

    /** One layer's call touches the shared cache and that layer's flag, and no other flag. */
    method ForwardLayer(l: nat, c: Call) returns (ok: bool)
      requires Valid() && NormOk(m.en.ker) && l < |layers| && c.len > 0 && PromptOk(m.en.cfg, c.kv, c.len)
      modifies layers[l], dict.Footprint()
      ensures ok <==> Protocol.Forward(m, old(Now()), l, c).Some?
      ensures ok ==> Valid() && Now() == Protocol.Forward(m, old(Now()), l, c).value
      ensures ok ==> fresh(dict.Footprint() - old(dict.Footprint()))
    {
      hide CacheDict.Valid, PromptOk, NormOk, Protocol.Forward;
      ghost var flags := Flags();
      ok := layers[l].Forward(c, flags);
      if ok { assert Flags() == flags[l := true]; }
    }

    /** One pass: every layer in order. */
    method Forward(calls: seq<Call>) returns (ok: bool)
      requires Valid() && NormOk(m.en.ker) && |calls| == m.en.cfg.numLayers
      requires forall l :: 0 <= l < |calls| ==> calls[l].len > 0 && PromptOk(m.en.cfg, calls[l].kv, calls[l].len)
      modifies layers, dict.Footprint()
      ensures ok <==> ForwardAll(m, old(Now()), calls).Some?
      ensures ok ==> Valid() && Now() == ForwardAll(m, old(Now()), calls).value
    {
      hide Valid, Now, Flags, PromptOk, NormOk, Protocol.Forward;
      ghost var sh0 := Now();
      Counted();
      var l := 0;
      while l < |layers|
        invariant 0 <= l <= |layers| && Valid() && |Now().prefilled| == |layers|
        invariant Iterate(ForwardStep(m, calls), sh0, l) == Some(Now())
        invariant fresh(dict.Footprint() - old(dict.Footprint()))
      {
        ok := ForwardLayer(l, calls[l]);
        if !ok {
          IterateStops(ForwardStep(m, calls), sh0, l + 1, |calls|);
          return;
        }
        l := l + 1;
        Counted();
      }
      ok := true;
    }

    lemma Counted()
      requires Valid()
      ensures m.en.Valid() && |layers| == m.en.cfg.numLayers == |Now().prefilled|
    {
    }
  }

  lemma FreshInv(m: Manager)
    requires m.en.Valid()
    ensures Inv(m.en.cfg, Fresh(m.en.cfg))
  {
    hide Inv, Fresh, EmptyLayer;
    FreshOk(m);
  }

  lemma FirstOk(cfg: CacheConfig, kv: seq<seq<Token>>, n: nat)
    requires PromptOk(cfg, kv, n) && n > 0
    ensures (forall h :: 0 <= h < |kv| ==> |kv[h]| > 0) && |FirstTokens(kv)| == cfg.numKvHeads
    ensures TokensOk(cfg, FirstTokens(kv))
  {
    hide TokenOk;
    forall h | 0 <= h < |kv| ensures TokenOk(cfg, FirstTokens(kv)[h]) { assert TokensOk(cfg, kv[h]); }
  }

  lemma PrefilledInv(m: Manager, st: State, kv: seq<seq<Token>>, at: Prompt, n: nat)
    requires m.en.Valid() && Inv(m.en.cfg, st) && PromptOk(m.en.cfg, kv, n) && PrefillLayer(m, st, kv, at).Some?
    ensures Inv(m.en.cfg, PrefillLayer(m, st, kv, at).value)
  {
    hide Inv, PrefillLayer, PromptedRel;
    Prefilled(m, st, kv, at, n);
  }

  lemma DecodedInv(m: Manager, st: State, ts: seq<Token>)
    requires m.en.Valid() && Inv(m.en.cfg, st) && NormOk(m.en.ker) && DecodeLayer(m, st, ts).Some?
    ensures Inv(m.en.cfg, DecodeLayer(m, st, ts).value)
  {
    hide Inv, DecodeLayer, GrownRel, NormOk, Log, HeadAt;
    Decoded(m, st, ts);
  }
}
