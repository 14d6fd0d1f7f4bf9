/** Runs of passes over a model whose layers share one cache. */
module SharedCache {

  import opened Config
  import opened BaseRows
  import opened CacheState
  import opened PageTables
  import opened StorePlan
  import opened LayerSteps
  import opened LayerRuns
  import opened TrueSlots
  import opened Sessions
  import opened Selection
  import opened SlotArena
  import opened Occupancy
  import opened Capacity
  import opened Protocol

  /** A pass through the model: a prompt of `n` tokens, or one more token, for every layer and head. */
  datatype Pass = Ask(kvs: seq<seq<seq<Token>>>, n: nat) | Next(tss: seq<seq<Token>>)

  /** The calls a pass makes, layer by layer, all on one device. */
  predicate Calls(cfg: CacheConfig, pass: Pass, calls: seq<Call>, dev: nat)
  {
    && |calls| == cfg.numLayers
    && (forall l :: 0 <= l < |calls| ==>
          calls[l].dev == dev && calls[l].len > 0 && PromptOk(cfg, calls[l].kv, calls[l].len))
    && match pass
       case Ask(kvs, n) =>
         PassOk(cfg, kvs, n) && n > 1 && forall l :: 0 <= l < |calls| ==> calls[l].kv == kvs[l] && calls[l].len == n
       case Next(tss) =>
         StepPassOk(cfg,
                    tss) && forall l :: 0 <= l < |calls| ==> calls[l].len == 1 && FirstTokens(calls[l].kv) == tss[l]
  }

  ghost function ForwardStep(m: Manager, calls: seq<Call>): (Shared, nat) -> Option<Shared>
  {
    (sh: Shared, l: nat) =>
      if m.en.Valid() && l < |sh.prefilled| && l < |calls| && calls[l].len > 0
         && PromptOk(m.en.cfg, calls[l].kv, calls[l].len)
      then Forward(m, sh, l, calls[l]) else None
  }

  /** The model's forward: every layer in order. */
  ghost function ForwardAll(m: Manager, sh: Shared, calls: seq<Call>): Option<Shared>
  {
    Iterate(ForwardStep(m, calls), sh, |calls|)
  }

  /** Slots of one kind that a prompt takes, over all layers. */
  ghost function PassTakes(m: Manager, kind: Kind, kvs: seq<seq<seq<Token>>>): nat
    requires m.en.Valid()
  {
    Total(m.en.cfg.numLayers, LayerTakes(m, kind, kvs, Prompt(0, 4)))
  }

  /** A prompt of `n` tokens fits a new cache: there are pages for it, and slots for every block it stores. */
  ghost predicate PassFits(m: Manager, kvs: seq<seq<seq<Token>>>, n: nat)
    requires m.en.Valid()
  {
    && PagesFor(m.en.cfg, n) <= m.en.cfg.maxPages
    && (forall kind :: PassTakes(m, kind, kvs) <= ArenaSlots(m.en.cfg)
                       && (PassTakes(m, kind, kvs) > 0 ==> SlotHolds(m.en.cfg, kind)))
  }

  // ---- a prompt pass ----

  /** The layers before `l` took, from a new cache, the slots of their blocks. */
  ghost predicate Filled(m: Manager, st: State, kvs: seq<seq<seq<Token>>>, l: nat)
    requires m.en.Valid()
  {
    var k, v := Total(l, LayerTakes(m, KSlot, kvs, Prompt(0, 4))), Total(l, LayerTakes(m, VSlot, kvs, Prompt(0, 4)));
    Fits(m.en.cfg, Fresh(m.en.cfg), k, v) && Took(Fresh(m.en.cfg), st, k, v)
  }

  /** The shared cache with the layers before `l` prompted. */
  ghost predicate AskedTo(m: Manager, sh: Shared, kvs: seq<seq<seq<Token>>>, n: nat, l: nat, dev: nat)
    requires m.en.Valid()
  {
    && |sh.prefilled| == m.en.cfg.numLayers && l <= m.en.cfg.numLayers
    && (l > 0 ==>
          && sh.cache.Some? && sh.dev == dev && Inv(m.en.cfg, sh.cache.value)
          && PromptedTo(m, sh.cache.value, kvs, n, l)
          && Filled(m, sh.cache.value, kvs, l))
    && (forall i :: 0 <= i < l ==> sh.prefilled[i])
  }

  lemma FreshPrompted(m: Manager, kvs: seq<seq<seq<Token>>>, n: nat)
    requires m.en.Valid()
    ensures Inv(m.en.cfg, Fresh(m.en.cfg)) && PromptedTo(m, Fresh(m.en.cfg), kvs, n, 0)
    ensures Filled(m, Fresh(m.en.cfg), kvs, 0)
  {
    hide Inv, Fresh, EmptyLayer, LayerTakes, Fits, Took;
    FreshOk(m);
    NothingTaken(m.en.cfg, Fresh(m.en.cfg));
  }

  /** The cache a full prefill of layer `l` starts from. */
  lemma AskStart(m: Manager, sh: Shared, kvs: seq<seq<seq<Token>>>, n: nat, l: nat, c: Call)
    requires m.en.Valid() && l < m.en.cfg.numLayers && AskedTo(m, sh, kvs, n, l, c.dev) && c.len > 1
    ensures var g := GetOrCreate(m.en.cfg, Reset(sh, l, c), l, c.dev);
      && g.cache.Some? && g.dev == c.dev && Inv(m.en.cfg, g.cache.value) && PromptedTo(m, g.cache.value, kvs, n, l)
      && |g.prefilled| == m.en.cfg.numLayers && (forall i :: 0 <= i < l ==> g.prefilled[i])
      && Filled(m, g.cache.value, kvs, l)
  {
    hide Inv, Fresh, PromptedTo, Filled;
    if l == 0 { FreshPrompted(m, kvs, n); }
  }

  lemma EmptyAt(m: Manager, st: State, kvs: seq<seq<seq<Token>>>, n: nat, l: nat)
    requires PromptedTo(m, st, kvs, n, l) && l < m.en.cfg.numLayers
    ensures EmptyLayer(At(m, l), st)
  {
    hide EmptyLayer, LayerHolds;
  }

  lemma PagesWithin(cfg: CacheConfig, n: nat, pages: nat)
    requires cfg.Valid() && n <= pages * cfg.pageSize
    ensures PagesFor(cfg, n) <= pages
  {
    if PagesFor(cfg, n) > pages { PageNotEmpty(cfg, n, pages); }
  }

  /** One layer of a prompt pass: it succeeds exactly when its blocks still fit. */
  lemma AskLayer(m: Manager, sh: Shared, kvs: seq<seq<seq<Token>>>, n: nat, l: nat, c: Call)
    requires m.en.Valid() && l < m.en.cfg.numLayers && AskedTo(m, sh, kvs, n, l, c.dev)
    requires PassOk(m.en.cfg, kvs, n) && n > 1 && c.kv == kvs[l] && c.len == n
    ensures Forward(m, sh, l, c).Some? <==> PagesFor(m.en.cfg, n) <= m.en.cfg.maxPages && FitsUpTo(m, kvs, l + 1)
    ensures Forward(m, sh, l, c).Some? ==> AskedTo(m, Forward(m, sh, l, c).value, kvs, n, l + 1, c.dev)
  {
    hide Inv, Fresh, EmptyLayer, PrefillLayer, Reset, GetOrCreate, PromptOk, Grows, LayerHolds, PagesFor, Filled,
      FitsUpTo;
    AskStart(m, sh, kvs, n, l, c);
    var g, ml := GetOrCreate(m.en.cfg, Reset(sh, l, c), l, c.dev), At(m, l);
    var st := g.cache.value;
    if PrefillLayer(ml, st, kvs[l], Prompt(0, 4)).Some? { PromptLayer(m, st, kvs, n, Prompt(0, 4), l); }
    AskFilled(m, st, kvs, n, l);
  }

  /** The blocks of the first `l` layers fit a new cache. */
  ghost predicate FitsUpTo(m: Manager, kvs: seq<seq<seq<Token>>>, l: nat)
    requires m.en.Valid()
  {
    Fits(m.en.cfg, Fresh(m.en.cfg), Total(l, LayerTakes(m, KSlot, kvs, Prompt(0, 4))),
         Total(l, LayerTakes(m, VSlot, kvs, Prompt(0, 4))))
  }

  lemma AskFilled(m: Manager, st: State, kvs: seq<seq<seq<Token>>>, n: nat, l: nat)
    requires m.en.Valid() && l < m.en.cfg.numLayers && PassOk(m.en.cfg, kvs, n) && n > 0
    requires PromptedTo(m, st, kvs, n, l) && Filled(m, st, kvs, l)
    ensures var r := PrefillLayer(At(m, l), st, kvs[l], Prompt(0, 4));
      && (r.Some? <==> PagesFor(m.en.cfg, n) <= m.en.cfg.maxPages && FitsUpTo(m, kvs, l + 1))
      && (r.Some? ==> Filled(m, r.value, kvs, l + 1))
  {
    hide EmptyLayer, PrefillLayer, PromptOk, PromptedTo, PagesFor, Fits, Took, PromptTakes, Fresh;
    EmptyAt(m, st, kvs, n, l);
    PrefillIff(At(m, l), st, kvs[l], Prompt(0, 4), n);
    var r := PrefillLayer(At(m, l), st, kvs[l], Prompt(0, 4));
    var at, first := Prompt(0, 4), Fresh(m.en.cfg);
    var k, v := Total(l, LayerTakes(m, KSlot, kvs, at)), Total(l, LayerTakes(m, VSlot, kvs, at));
    var k', v' := PromptTakes(At(m, l), KSlot, kvs[l], at), PromptTakes(At(m, l), VSlot, kvs[l], at);
    FitsMore(m.en.cfg, first, st, k, v, k', v');
    if r.Some? { TookTrans(first, st, r.value, k, v, k', v'); }
  }

  lemma FitsFewer(m: Manager, kvs: seq<seq<seq<Token>>>, l: nat)
    requires m.en.Valid() && FitsUpTo(m, kvs, l + 1)
    ensures FitsUpTo(m, kvs, l)
  {
    hide Fits, LayerTakes, Fresh;
    var at := Prompt(0, 4);
    FitsLess(m.en.cfg, Fresh(m.en.cfg),
             Total(l, LayerTakes(m, KSlot, kvs, at)), Total(l, LayerTakes(m, VSlot, kvs, at)),
             LayerTakes(m, KSlot, kvs, at)(l), LayerTakes(m, VSlot, kvs, at)(l));
  }

  // ---- a pass with one more token ----

  /** The shared cache with the layers before `l` stepped. */
  ghost predicate NextedTo(m: Manager, sh: Shared, kvs: seq<seq<seq<Token>>>, n: nat,
                           more: seq<seq<seq<Token>>>, n': nat, l: nat, dev: nat)
  {
    && m.en.Valid() && |sh.prefilled| == m.en.cfg.numLayers && l <= m.en.cfg.numLayers
    && sh.cache.Some? && sh.dev == dev && Inv(m.en.cfg, sh.cache.value)
    && SteppedTo(m, sh.cache.value, kvs, n, more, n', l)
    && (forall i :: 0 <= i < m.en.cfg.numLayers ==> sh.prefilled[i])
  }

  /** One layer of such a pass: the cache is neither dropped nor replaced. */
  lemma NextLayer(m: Manager, sh: Shared, kvs: seq<seq<seq<Token>>>, n: nat, tss: seq<seq<Token>>,
                  more: seq<seq<seq<Token>>>, n': nat, l: nat, c: Call)
    requires NextedTo(m, sh, kvs, n, more, n', l, c.dev) && l < m.en.cfg.numLayers && NormOk(m.en.ker)
    requires PassOk(m.en.cfg, kvs, n) && StepPassOk(m.en.cfg, tss) && n < m.en.cfg.maxPages * m.en.cfg.pageSize
    requires more == ExtendedAll(kvs, tss) && n' == n + 1
    requires c.len == 1 && PromptOk(m.en.cfg, c.kv, 1) && FirstTokens(c.kv) == tss[l]
    ensures Forward(m, sh, l, c).Some? && NextedTo(m, Forward(m, sh, l, c).value, kvs, n, more, n', l + 1, c.dev)
  {
    hide Inv, Fresh, DecodeLayer, PromptOk, SteppedTo, NormOk, Grows, PrefillLayer;
    StepLayer(m, sh.cache.value, kvs, tss, n, more, n', l);
  }

  // ---- whole passes ----

  lemma StepIsForward(m: Manager, pass: Pass, calls: seq<Call>, dev: nat, sh: Shared, l: nat)
    requires m.en.Valid() && Calls(m.en.cfg, pass, calls, dev) && l < m.en.cfg.numLayers == |sh.prefilled|
    ensures ForwardStep(m, calls)(sh, l) == Forward(m, sh, l, calls[l])
  {
    hide Forward, PromptOk, StepPassOk, PassOk;
  }

  lemma {:induction false} AskAll(m: Manager, sh: Shared, kvs: seq<seq<seq<Token>>>, n: nat, calls: seq<Call>,
                                  dev: nat, l: nat)
    requires m.en.Valid() && |sh.prefilled| == m.en.cfg.numLayers && l <= m.en.cfg.numLayers
    requires Calls(m.en.cfg, Ask(kvs, n), calls, dev)
    ensures var r := Iterate(ForwardStep(m, calls), sh, l);
      && (r.Some? <==> (l > 0 ==> PagesFor(m.en.cfg, n) <= m.en.cfg.maxPages) && FitsUpTo(m, kvs, l))
      && (r.Some? ==> AskedTo(m, r.value, kvs, n, l, dev))
  {
    hide Forward, ForwardStep, AskedTo, FitsUpTo, PassOk, PromptOk, PagesFor;
    var r := Iterate(ForwardStep(m, calls), sh, l);
    if l == 0 {
      AskedNone(m, sh, kvs, n, dev);
      FitsNone(m, kvs);
    } else {
      AskAll(m, sh, kvs, n, calls, dev, l - 1);
      var before := Iterate(ForwardStep(m, calls), sh, l - 1);
      if before.Some? {
        AskedFlags(m, before.value, kvs, n, l - 1, dev);
        StepIsForward(m, Ask(kvs, n), calls, dev, before.value, l - 1);
        AskLayer(m, before.value, kvs, n, l - 1, calls[l - 1]);
      } else if FitsUpTo(m, kvs, l) {
        FitsFewer(m, kvs, l - 1);
      }
    }
  }

  lemma FitsNone(m: Manager, kvs: seq<seq<seq<Token>>>)
    requires m.en.Valid()
    ensures FitsUpTo(m, kvs, 0)
  {
    hide Fits, LayerTakes, Fresh;
    NothingTaken(m.en.cfg, Fresh(m.en.cfg));
  }

  lemma AskedNone(m: Manager, sh: Shared, kvs: seq<seq<seq<Token>>>, n: nat, dev: nat)
    requires m.en.Valid() && |sh.prefilled| == m.en.cfg.numLayers
    ensures AskedTo(m, sh, kvs, n, 0, dev)
  {
  }

  lemma AskedFlags(m: Manager, sh: Shared, kvs: seq<seq<seq<Token>>>, n: nat, l: nat, dev: nat)
    requires m.en.Valid() && AskedTo(m, sh, kvs, n, l, dev)
    ensures |sh.prefilled| == m.en.cfg.numLayers
  {
    hide Inv, PromptedTo;
  }

  lemma {:induction false} NextAll(m: Manager, sh: Shared, kvs: seq<seq<seq<Token>>>, n: nat, tss: seq<seq<Token>>,
                                   more: seq<seq<seq<Token>>>, n': nat, calls: seq<Call>, dev: nat, l: nat)
    requires NextedTo(m, sh, kvs, n, more, n', 0, dev) && l <= m.en.cfg.numLayers && NormOk(m.en.ker)
    requires PassOk(m.en.cfg, kvs, n) && n < m.en.cfg.maxPages * m.en.cfg.pageSize
    requires Calls(m.en.cfg, Next(tss), calls, dev) && more == ExtendedAll(kvs, tss) && n' == n + 1
    ensures var r := Iterate(ForwardStep(m, calls), sh, l); r.Some? && NextedTo(m, r.value, kvs, n, more, n', l, dev)
  {
    hide Forward, ForwardStep, NextedTo, NormOk, PassOk, PromptOk, ExtendedAll;
    NextedFlags(m, sh, kvs, n, more, n', 0, dev);
    if l == 0 {
    } else {
      NextAll(m, sh, kvs, n, tss, more, n', calls, dev, l - 1);
      var before := Iterate(ForwardStep(m, calls), sh, l - 1).value;
      NextedFlags(m, before, kvs, n, more, n', l - 1, dev);
      StepIsForward(m, Next(tss), calls, dev, before, l - 1);
      NextLayer(m, before, kvs, n, tss, more, n', l - 1, calls[l - 1]);
    }
  }

  lemma NextedFlags(m: Manager, sh: Shared, kvs: seq<seq<seq<Token>>>, n: nat,
                    more: seq<seq<seq<Token>>>, n': nat, l: nat, dev: nat)
    requires NextedTo(m, sh, kvs, n, more, n', l, dev)
    ensures m.en.Valid() && |sh.prefilled| == m.en.cfg.numLayers
  {
    hide Inv, SteppedTo;
  }

  /** Every layer of the shared cache holds the log, and every layer knows it is prefilled. */
  ghost predicate Synced(m: Manager, sh: Shared, kvs: seq<seq<seq<Token>>>, n: nat, dev: nat)
  {
    && |sh.prefilled| == m.en.cfg.numLayers && sh.cache.Some? && sh.dev == dev
    && AllHold(m, sh.cache.value, kvs, n) && PassOk(m.en.cfg, kvs, n)
    && (forall i :: 0 <= i < m.en.cfg.numLayers ==> sh.prefilled[i])
  }

  lemma FitsAll(m: Manager, kvs: seq<seq<seq<Token>>>, n: nat)
    requires m.en.Valid()
    ensures PassFits(m, kvs, n) <==> PagesFor(m.en.cfg, n) <= m.en.cfg.maxPages && FitsUpTo(m, kvs, m.en.cfg.numLayers)
  {
    hide LayerTakes, Fresh, PagesFor, SlotHolds, ArenaSlots, Inv, EmptyLayer;
    FreshOk(m);
    var k, v := PassTakes(m, KSlot, kvs), PassTakes(m, VSlot, kvs);
    if FitsUpTo(m, kvs, m.en.cfg.numLayers) {
      forall kind
        ensures PassTakes(m, kind, kvs) <= ArenaSlots(m.en.cfg)
        ensures PassTakes(m, kind, kvs) > 0 ==> SlotHolds(m.en.cfg, kind)
      {
        if kind == KSlot {} else {}
      }
    }
  }

  /** A prompt pass from any state of the shared cache: it succeeds if and only if the prompt fits a new cache, and
    * whatever was there, every layer then holds exactly the new prompt. */
  lemma AskPass(m: Manager, sh: Shared, kvs: seq<seq<seq<Token>>>, n: nat, calls: seq<Call>, dev: nat)
    requires m.en.Valid() && |sh.prefilled| == m.en.cfg.numLayers && Calls(m.en.cfg, Ask(kvs, n), calls, dev)
    ensures ForwardAll(m, sh, calls).Some? <==> PassFits(m, kvs, n)
    ensures ForwardAll(m, sh, calls).Some? ==> Synced(m, ForwardAll(m, sh, calls).value, kvs, n, dev)
  {
    hide ForwardStep, Inv, LayerHolds, EmptyLayer, PassFits, FitsUpTo, Filled, PagesFor, PromptOk;
    FitsAll(m, kvs, n);
    AskAll(m, sh, kvs, n, calls, dev, m.en.cfg.numLayers);
  }

  lemma ExtendedPass(cfg: CacheConfig, kvs: seq<seq<seq<Token>>>, n: nat, tss: seq<seq<Token>>)
    requires PassOk(cfg, kvs, n) && StepPassOk(cfg, tss)
    ensures PassOk(cfg, ExtendedAll(kvs, tss), n + 1)
  {
    hide TokensOk, Extended;
    forall l | 0 <= l < |kvs| ensures PromptOk(cfg, ExtendedAll(kvs, tss)[l], n + 1) {
      ExtendedStep(cfg, kvs[l], tss[l], n);
    }
  }

  lemma ExtendedStep(cfg: CacheConfig, kv: seq<seq<Token>>, ts: seq<Token>, n: nat)
    requires PromptOk(cfg, kv, n) && StepTokens(cfg, ts)
    ensures |kv| == |ts| && PromptOk(cfg, Extended(kv, ts), n + 1)
  {
    hide TokensOk, Extended;
    ExtendedOk(cfg, kv, ts, n);
  }

  lemma SyncedStart(m: Manager, sh: Shared, kvs: seq<seq<seq<Token>>>, n: nat, more: seq<seq<seq<Token>>>, n': nat,
                    dev: nat)
    requires Synced(m, sh, kvs, n, dev)
    ensures NextedTo(m, sh, kvs, n, more, n', 0, dev)
  {
    hide Inv, LayerHolds, PassOk;
  }

  lemma SyncedEnd(m: Manager, sh: Shared, kvs: seq<seq<seq<Token>>>, n: nat, more: seq<seq<seq<Token>>>, n': nat,
                  dev: nat)
    requires NextedTo(m, sh, kvs, n, more, n', m.en.cfg.numLayers, dev) && PassOk(m.en.cfg, more, n')
    ensures Synced(m, sh, more, n', dev)
  {
    hide Inv, LayerHolds, PromptOk;
  }

  /** One more token: every layer's log grows by it, while pages have room. */
  lemma NextPass(m: Manager, sh: Shared, kvs: seq<seq<seq<Token>>>, n: nat, tss: seq<seq<Token>>, calls: seq<Call>,
                 dev: nat)
    requires Synced(m, sh, kvs, n, dev) && NormOk(m.en.ker) && Calls(m.en.cfg, Next(tss), calls, dev)
    requires n < m.en.cfg.maxPages * m.en.cfg.pageSize
    ensures |kvs| == |tss| && forall l :: 0 <= l < |kvs| ==> |kvs[l]| == |tss[l]|
    ensures ForwardAll(m, sh, calls).Some?
    ensures Synced(m, ForwardAll(m, sh, calls).value, ExtendedAll(kvs, tss), n + 1, dev)
  {
    hide ForwardStep, Inv, AllHold, NormOk, TokensOk, ExtendedAll, NextedTo;
    var more, n' := ExtendedAll(kvs, tss), n + 1;
    SyncedStart(m, sh, kvs, n, more, n', dev);
    NextAll(m, sh, kvs, n, tss, more, n', calls, dev, m.en.cfg.numLayers);
    ExtendedPass(m.en.cfg, kvs, n, tss);
    SyncedEnd(m, ForwardAll(m, sh, calls).value, kvs, n, more, n', dev);
  }

  // ---- runs ----

  /** What the model should remember: the latest prompt and the tokens since. */
  function Memory(passes: seq<Pass>): (kvs: seq<seq<seq<Token>>>)
  {
    if passes == [] then []
    else
      match passes[|passes| - 1]
      case Ask(kvs, n) => kvs
      case Next(tss) =>
        var before := Memory(passes[..|passes| - 1]);
        if |before| == |tss| && (forall l :: 0 <= l < |tss| ==> |before[l]| == |tss[l]|) then ExtendedAll(before, tss)
        else []
  }

  function Length(passes: seq<Pass>): nat
  {
    if passes == [] then 0
    else
      match passes[|passes| - 1]
      case Ask(kvs, n) => n
      case Next(_) => Length(passes[..|passes| - 1]) + 1
  }

  /** A run starts with a prompt, and no conversation outgrows the pages. */
  predicate RunOk(cfg: CacheConfig, passes: seq<Pass>)
  {
    passes != [] ==>
      var init := passes[..|passes| - 1];
      && RunOk(cfg, init)
      && (passes[|passes| - 1].Next? ==> init != [])
      && Length(passes) <= cfg.maxPages * cfg.pageSize
  }

  ghost predicate CallsOf(cfg: CacheConfig, passes: seq<Pass>, calls: seq<seq<Call>>, dev: nat)
  {
    |calls| == |passes| && forall i :: 0 <= i < |passes| ==> Calls(cfg, passes[i], calls[i], dev)
  }

  ghost function RunAll(m: Manager, sh: Shared, calls: seq<seq<Call>>): Option<Shared>
  {
    if calls == [] then Some(sh)
    else
      match RunAll(m, sh, calls[..|calls| - 1])
      case None => None
      case Some(mid) => ForwardAll(m, mid, calls[|calls| - 1])
  }

  ghost predicate PromptsFit(m: Manager, passes: seq<Pass>)
    requires m.en.Valid()
  {
    forall i :: 0 <= i < |passes| && passes[i].Ask? ==> PassFits(m, passes[i].kvs, passes[i].n)
  }

  /** The shared-cache protocol: after any run of prompt passes and single-token passes on one device,
    * every layer's slice of the shared cache holds exactly the latest prompt and the tokens decoded
    * since. Such a run succeeds if and only if each of its prompts, on its own, fits a new cache: nothing that
    * went before takes room from it, and decoding takes none. */
  lemma {:induction false} RunSynced(m: Manager, sh: Shared, passes: seq<Pass>, calls: seq<seq<Call>>, dev: nat)
    requires m.en.Valid() && NormOk(m.en.ker) && |sh.prefilled| == m.en.cfg.numLayers
    requires passes != [] && RunOk(m.en.cfg, passes) && CallsOf(m.en.cfg, passes, calls, dev)
    ensures RunAll(m, sh, calls).Some? <==> PromptsFit(m, passes)
    ensures RunAll(m, sh, calls).Some? ==>
      Synced(m, RunAll(m, sh, calls).value, Memory(passes), Length(passes), dev)
    decreases |passes|
  {
    hide ForwardAll, Synced, NormOk, PassOk, ExtendedAll, PassFits;
    var k := |passes| - 1;
    if k > 0 { RunSynced(m, sh, passes[..k], calls[..k], dev); }
    var before := RunAll(m, sh, calls[..k]);
    if before.Some? {
      var mid := before.value;
      if k > 0 { SyncedFlags(m, mid, Memory(passes[..k]), Length(passes[..k]), dev); }
      assert Calls(m.en.cfg, passes[k], calls[k], dev);
      match passes[k]
      case Ask(kvs, n) => AskPass(m, mid, kvs, n, calls[k], dev);
      case Next(tss) => NextPass(m, mid, Memory(passes[..k]), Length(passes[..k]), tss, calls[k], dev);
    }
  }

  lemma SyncedFlags(m: Manager, sh: Shared, kvs: seq<seq<seq<Token>>>, n: nat, dev: nat)
    requires Synced(m, sh, kvs, n, dev)
    ensures |sh.prefilled| == m.en.cfg.numLayers
  {
    hide AllHold, PassOk;
  }

  // ---- more than one device ----

  lemma EmptyIsNotHeld(m: Manager, st: State, l: nat, kvs: seq<seq<seq<Token>>>, n: nat)
    requires m.en.Valid() && l < m.en.cfg.numLayers && EmptyLayer(At(m, l), st) && n > 0
    ensures !LayerHolds(m, st, l, kvs, n)
  {
    hide Inv, HeadOk;
    EmptyParts(At(m, l), st, 0);
    var hd := HeadAt(At(m, l), st, 0);
    EmptyLog(m.en.cfg, hd);
    if PageTable(m.en.cfg, hd, n) { TableCounts(m.en.cfg, hd, n); }
    assert !PageTable(m.en.cfg, hd, n);
    if LayerHolds(m, st, l, kvs, n) { HeldAt(At(m, l), st, kvs[l], n, 0); }
  }

  /** One device is needed, not assumed for convenience: inside a prompt pass a later layer leaves the
    * earlier layers' slices as they were exactly when its hidden states are on the cache's device. */
  lemma DeviceIff(m: Manager, sh: Shared, kvs: seq<seq<seq<Token>>>, n: nat, l: nat, c: Call)
    requires m.en.Valid() && 0 < l < m.en.cfg.numLayers && AskedTo(m, sh, kvs, n, l, sh.dev)
    requires PassOk(m.en.cfg, kvs, n) && n > 1 && c.kv == kvs[l] && c.len == n && Forward(m, sh, l, c).Some?
    ensures (forall i :: 0 <= i < l ==> LayerHolds(m, Forward(m, sh, l, c).value.cache.value, i, kvs, n))
       <==> c.dev == sh.dev
  {
    hide Inv, LayerHolds, EmptyLayer, Fresh, PromptOk, Filled, PrefillLayer, Grows, PagesFor, FitsUpTo;
    if c.dev == sh.dev {
      AskLayer(m, sh, kvs, n, l, c);
    } else {
      FreshOk(m);
      var st := Fresh(m.en.cfg);
      var st' := Forward(m, sh, l, c).value.cache.value;
      PrefillHolds(At(m, l), st, kvs[l], Prompt(0, 4), n);
      HoldsParts(At(m, l), st', kvs[l], n);
      FramedHeads(m.en.cfg, st);
      FramedHeads(m.en.cfg, st');
      EmptyFramed(m, st, st', 0);
      EmptyIsNotHeld(m, st', 0, kvs, n);
    }
  }
}
