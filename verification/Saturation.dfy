/** Prompts that take every slot a page can take, and so exactly which arenas are large enough for every prompt.
  *
  * Entries far below the quantizer's scale floor round to zero, so nothing of them survives in the base rows: every
  * group of such a page has a residual, and the page stores as many blocks as it ever can. */
module Saturation {

  import opened Numbers
  import opened Sums
  import opened Config
  import opened Quantizer
  import opened ResidualPack
  import opened Pages
  import opened Selection
  import opened BaseRows
  import opened SlotArena
  import opened Router
  import opened StorePlan
  import opened Losses
  import opened LayerSteps
  import opened LayerRuns
  import opened Occupancy
  import opened Capacity
  import opened Protocol
  import opened SharedCache

  // ---- tiny tokens ----

  const TINY := 0.0000000001

  function TinyRow(n: nat): (r: Vec)
    ensures |r| == n
  {
    seq(n, _ => TINY)
  }

  lemma TinyCode(q: QuantConfig, x: real, s: real)
    requires q.Valid() && 7.0 * s >= 0.00000001 && 0.0 <= x <= TINY
    ensures Code(q, x, s) == 0
  {
    DivBounds(x, s, 0.07);
    assert Round(x / s) == 0;
  }

  lemma TinyEntry(cfg: CacheConfig, x: Vec, i: nat)
    requires cfg.Valid() && |x| == cfg.headDim && i < |x| && 0.0 <= x[i] <= TINY
    ensures Codes(x, BaseQuant(cfg))[i] == 0
  {
    hide Code, MaxAbs;
    TinyCode(BaseQuant(cfg), x[i], ScaleAt(x, BaseQuant(cfg), i));
  }

  lemma NoCode(s: real)
    ensures 0 as real * s == 0.0
  {
  }

  /** Nothing of a tiny row survives quantization. */
  lemma TinyHat(cfg: CacheConfig, x: Vec)
    requires cfg.Valid() && |x| == cfg.headDim && forall i :: 0 <= i < |x| ==> 0.0 <= x[i] <= TINY
    ensures Hat(cfg, x) == ZeroRow(cfg.headDim)
  {
    hide Codes, Scales;
    forall i | 0 <= i < |x| ensures Hat(cfg, x)[i] == 0.0 {
      TinyEntry(cfg, x, i);
      GroupIndex(i, |x|, cfg.groupSize);
      NoCode(Scales(x, BaseQuant(cfg))[i / cfg.groupSize]);
    }
  }

  /** A token whose key, or whose value, is tiny, and the other zero. */
  function TinyToken(cfg: CacheConfig, kind: Kind): (t: Token)
    ensures TokenOk(cfg, t)
  {
    if kind == KSlot then Token(TinyRow(cfg.headDim), ZeroRow(cfg.headDim))
    else Token(ZeroRow(cfg.headDim), TinyRow(cfg.headDim))
  }

  function TinyPrompt(cfg: CacheConfig, kind: Kind, n: nat): (ts: seq<Token>)
    ensures |ts| == n && TokensOk(cfg, ts)
  {
    seq(n, _ => TinyToken(cfg, kind))
  }

  // ---- one page of them ----

  function Other(kind: Kind): Kind { if kind == KSlot then VSlot else KSlot }

  /** A whole page of tiny rows of one kind, which base storage turns to zeros, and exact rows of the other. */
  predicate Saturated(cfg: CacheConfig, kind: Kind, x: PageInput)
  {
    && InputOk(cfg, x) && x.valid == cfg.pageSize && Exactly(Other(kind), x)
    && forall i :: 0 <= i < cfg.pageSize ==>
      Orig(kind, x)[i] == TinyRow(cfg.headDim) && HatOf(kind, x)[i] == ZeroRow(cfg.headDim)
  }

  lemma TinyPage(cfg: CacheConfig, kind: Kind, at: Prompt, n: nat, p: nat)
    requires cfg.Valid() && p * cfg.pageSize + cfg.pageSize <= n
    ensures Saturated(cfg, kind, PromptInput(cfg, TinyPrompt(cfg, kind, n), at, p))
  {
    hide Hat, PagesFor;
    TinyHat(cfg, TinyRow(cfg.headDim));
    TinyHat(cfg, ZeroRow(cfg.headDim));
    var ts := TinyPrompt(cfg, kind, n);
    var x := PromptInput(cfg, ts, at, p);
    forall i | 0 <= i < cfg.pageSize ensures PageTokens(cfg, ts, p)[i] == TinyToken(cfg, kind) {}
    assert Exactly(Other(kind), x);
  }

  lemma TinyResidual(cfg: CacheConfig, kind: Kind, x: PageInput, i: nat)
    requires cfg.Valid() && Saturated(cfg, kind, x) && i < cfg.pageSize
    ensures InputOk(cfg, x) && forall c :: 0 <= c < cfg.headDim ==> ResidualOf(cfg, kind, x)[i][c] == TINY
  {
    ResidualRow(Orig(kind, x), HatOf(kind, x), x.valid, cfg.pageSize, cfg.headDim, i);
    hide Residual;
    var tiny, zero := TinyRow(cfg.headDim), ZeroRow(cfg.headDim);
    assert ResidualOf(cfg, kind, x)[i] == Diff(tiny, zero);
    assert forall c :: 0 <= c < cfg.headDim ==> tiny[c] == TINY && zero[c] == 0.0;
  }

  lemma TinyBlock(cfg: CacheConfig, kind: Kind, x: PageInput, g: nat, t: nat)
    requires cfg.Valid() && cfg.headDim > 0 && Saturated(cfg, kind, x)
    requires g < NumGroups(cfg, kind) && t < Live(cfg, kind, g, x.valid)
    ensures InputOk(cfg, x) && t < BlockRows(cfg, kind)
    ensures !ZeroVec(BlockOf(cfg, kind, ResidualOf(cfg, kind, x), g)[t])
  {
    hide ResidualOf, Saturated, CacheConfig.NumCg, CacheConfig.NumVb;
    SaturatedInput(cfg, kind, x);
    TinyResidual(cfg, kind, x, BlockStart(cfg, kind, g) + t);
    if kind == KSlot { ChannelGroupFits(cfg, g); }
    assert BlockRow(cfg, kind, ResidualOf(cfg, kind, x), g, t)[0] == TINY;
  }

  lemma GroupLive(cfg: CacheConfig, kind: Kind, g: nat)
    requires cfg.Valid() && g < NumGroups(cfg, kind)
    ensures Live(cfg, kind, g, cfg.pageSize) > 0
  {
    if kind == VSlot { BlockBound(g, cfg.NumVb(), cfg.vTokenBlock); }
  }

  lemma TinyError(m: Manager, kind: Kind, x: PageInput, g: nat)
    requires m.en.Valid() && m.en.cfg.headDim > 0 && Saturated(m.en.cfg, kind, x) && Definite(m.en.ker)
    requires g < NumGroups(m.en.cfg, kind)
    ensures GroupError(m, kind, x, g) > 0.0
  {
    hide BlockOf, ResidualOf, Live, Definite, Saturated;
    SaturatedInput(m.en.cfg, kind, x);
    GroupLive(m.en.cfg, kind, g);
    var n, b := Live(m.en.cfg, kind, g, x.valid), BlockOf(m.en.cfg, kind, ResidualOf(m.en.cfg, kind, x), g);
    var f := Norms(m.en.ker, b);
    TinyBlock(m.en.cfg, kind, x, g, 0);
    NonZeroNorm(m.en.ker, b[0]);
    forall t ensures f(t) >= 0.0 {
      if 0 <= t < |b| { NonNegativeNorm(m.en.ker, b[t]); }
    }
    SumAtLeastOne(0, n, f, 0);
    QuotientPositive(Sum(0, n, f), n as real);
  }

  lemma SaturatedInput(cfg: CacheConfig, kind: Kind, x: PageInput)
    requires Saturated(cfg, kind, x)
    ensures InputOk(cfg, x) && x.valid == cfg.pageSize
  {
  }

  lemma TinyPrior(m: Manager, kind: Kind, x: PageInput, g: nat)
    requires m.en.Valid() && m.en.cfg.headDim > 0 && Saturated(m.en.cfg, kind, x) && Definite(m.en.ker)
    requires g < NumGroups(m.en.cfg, kind) && m.en.Sens() > 0.0
    ensures Prior(m, kind, x, g) > 0.0
  {
    hide GroupError, Definite;
    TinyError(m, kind, x, g);
    MulPositive(GroupError(m, kind, x, g), m.en.Sens());
    MulPositive(GroupError(m, kind, x, g) * m.en.Sens(), StructPrior(x));
  }

  lemma {:induction false} AllPositive(s: seq<Candidate>)
    requires forall i :: 0 <= i < |s| ==> s[i].score > 0.0
    ensures Positive(s) == s
  {
    if s == [] {
    } else {
      AllPositive(s[..|s| - 1]);
    }
  }

  lemma TinyScored(m: Manager, kind: Kind, x: PageInput, p: nat)
    requires m.en.Valid() && m.en.cfg.headDim > 0 && Saturated(m.en.cfg, kind, x) && Definite(m.en.ker)
    requires m.en.Sens() > 0.0
    ensures InputOk(m.en.cfg, x) && |Scored(m, kind, x, p)| == NumGroups(m.en.cfg, kind)
  {
    hide Prior, Definite, Saturated;
    SaturatedInput(m.en.cfg, kind, x);
    var offers := Offers(m, kind, x, p);
    forall i | 0 <= i < |offers| ensures offers[i].score > 0.0 { TinyPrior(m, kind, x, i); }
    AllPositive(offers);
    SortPermutes(offers);
    assert |SortDesc(offers)| == |offers|;
  }

  /** With one kind ranked and the other not, a page stores what the budget takes of that ranking. */
  lemma LoneKindStored(m: Manager, kind: Kind, x: PageInput, p: nat)
    requires m.en.Valid() && InputOk(m.en.cfg, x) && Scored(m, Other(kind), x, p) == []
    requires !StoresNothing(m.en.cfg.store)
    ensures |SelectedOf(m, kind, x, p)|
         == Min(|Scored(m, kind, x, p)|,
                if m.en.cfg.storePolicy == StoreJoint then JointBudget(m) else StoreBudget(m, kind))
  {
    hide Scored, StoreBudget, JointBudget, SortDesc, AllOffers, OfKind;
    var s, ks, vs := Scored(m, kind, x, p), Scored(m, KSlot, x, p), Scored(m, VSlot, x, p);
    assert ks + vs == s;
    ScoredSorted(m, kind, x, p);
    ScoredOffers(m, kind, x, p);
    OffersKind(m, kind, x, p, s);
    assert Selected(m, x, p) == Take(s, if m.en.cfg.storePolicy == StoreJoint then JointBudget(m)
                                        else StoreBudget(m, kind));
    OfKindAll(Selected(m, x, p), kind);
  }

  /** Such a page stores the most a page can. */
  lemma TinySelected(m: Manager, kind: Kind, x: PageInput, p: nat)
    requires m.en.Valid() && m.en.cfg.headDim > 0 && Saturated(m.en.cfg, kind, x) && Definite(m.en.ker)
    ensures InputOk(m.en.cfg, x) && |SelectedOf(m, kind, x, p)| == KindCap(m, kind)
  {
    hide Definite, Scored, SelectedOf, StoreBudget, JointBudget, NumGroups;
    SaturatedInput(m.en.cfg, kind, x);
    if StoresNothing(m.en.cfg.store) || m.en.Sens() == 0.0 {
      SelectedAtMost(m, kind, x, p);
    } else {
      TinyScored(m, kind, x, p);
      DefiniteOk(m.en.ker);
      ExactlyScored(m, Other(kind), x, p);
      LoneKindStored(m, kind, x, p);
    }
  }

  // ---- a prompt of them ----

  lemma FullPages(cfg: CacheConfig, p: nat)
    requires cfg.Valid()
    ensures PagesFor(cfg, p * cfg.pageSize) == p
  {
    var k := PagesFor(cfg, p * cfg.pageSize);
    UptoLast(cfg, p * cfg.pageSize);
    if k < p { BlocksApart(k, p, cfg.pageSize); }
    if k > p { PageNotEmpty(cfg, p * cfg.pageSize, p); }
  }

  lemma TinyHead(m: Manager, kind: Kind, at: Prompt, n: nat, pages: nat)
    requires m.en.Valid() && m.en.cfg.headDim > 0 && Definite(m.en.ker) && n == pages * m.en.cfg.pageSize
    ensures Total(PagesFor(m.en.cfg, n), PageTakes(m, kind, TinyPrompt(m.en.cfg, kind, n), at))
         == pages * KindCap(m, kind)
  {
    hide Definite, SelectedOf, KindCap, PromptInput, TinyPrompt, PagesFor, Saturated, TokensOk;
    var ts := TinyPrompt(m.en.cfg, kind, n);
    FullPages(m.en.cfg, pages);
    forall p: nat | p < pages ensures PageTakes(m, kind, ts, at)(p) == KindCap(m, kind) {
      BlockBound(p, pages, m.en.cfg.pageSize);
      TinyPage(m.en.cfg, kind, at, n, p);
      TinySelected(m, kind, PromptInput(m.en.cfg, ts, at, p), p);
    }
    TotalConstant(pages, PageTakes(m, kind, ts, at), KindCap(m, kind));
  }

  function TinyHeads(cfg: CacheConfig, kind: Kind, n: nat): (kv: seq<seq<Token>>)
    ensures PromptOk(cfg, kv, n)
  {
    seq(cfg.numKvHeads, _ => TinyPrompt(cfg, kind, n))
  }

  function TinyLayers(cfg: CacheConfig, kind: Kind, n: nat): (kvs: seq<seq<seq<Token>>>)
    ensures PassOk(cfg, kvs, n)
  {
    seq(cfg.numLayers, _ => TinyHeads(cfg, kind, n))
  }

  lemma TinyLayer(m: Manager, kind: Kind, at: Prompt, n: nat, pages: nat)
    requires m.en.Valid() && m.en.cfg.headDim > 0 && Definite(m.en.ker) && n == pages * m.en.cfg.pageSize
    ensures PromptTakes(m, kind, TinyHeads(m.en.cfg, kind, n), at)
         == m.en.cfg.numKvHeads * (pages * KindCap(m, kind))
  {
    hide Definite, KindCap, TinyPrompt, PageTakes, PagesFor;
    TinyHead(m, kind, at, n, pages);
    TotalConstant(m.en.cfg.numKvHeads, HeadTakes(m, kind, TinyHeads(m.en.cfg, kind, n), at),
                  pages * KindCap(m, kind));
  }

  /** A prompt of tiny tokens that fills every page takes exactly the worst case. */
  lemma {:induction false} TinyTakes(m: Manager, kind: Kind, at: Prompt, n: nat, l: nat, pages: nat)
    requires m.en.Valid() && m.en.cfg.headDim > 0 && Definite(m.en.ker) && n == pages * m.en.cfg.pageSize
    requires l <= m.en.cfg.numLayers
    ensures Total(l, LayerTakes(m, kind, TinyLayers(m.en.cfg, kind, n), at))
         == pages * m.en.cfg.numKvHeads * Total(l, CapAt(m, kind))
  {
    hide Definite, KindCap, TinyHeads, PromptTakes;
    if l == 0 {
    } else {
      TinyTakes(m, kind, at, n, l - 1, pages);
      TinyLayer(Capacity.At(m, l - 1), kind, at, n, pages);
      Regroup(pages, m.en.cfg.numKvHeads, Total(l - 1, CapAt(m, kind)),
              KindCap(Capacity.At(m, l - 1), kind));
    }
  }

  // ---- every prompt ----

  /** Every prompt pass of at most so many pages succeeds, whatever it asks. */
  ghost predicate EveryPromptFits(m: Manager, sh: Shared, pages: nat)
  {
    forall kvs, n: nat, calls, dev ::
      Calls(m.en.cfg, Ask(kvs, n), calls, dev) && n <= pages * m.en.cfg.pageSize ==>
        ForwardAll(m, sh, calls).Some?
  }

  lemma HoldsFits(m: Manager, kvs: seq<seq<seq<Token>>>, n: nat, pages: nat)
    requires m.en.Valid() && ArenaHolds(m, pages) && PassOk(m.en.cfg, kvs, n) && n <= pages * m.en.cfg.pageSize
    requires pages <= m.en.cfg.maxPages
    ensures PassFits(m, kvs, n)
  {
    hide PromptOk, PagesFor, LayerTakes, CapAt, SlotHolds, ArenaSlots;
    PagesWithin(m.en.cfg, n, pages);
    forall kind
      ensures PassTakes(m, kind, kvs) <= ArenaSlots(m.en.cfg)
      ensures PassTakes(m, kind, kvs) > 0 ==> SlotHolds(m.en.cfg, kind)
    {
      LayersAtMost(m, kind, kvs, Prompt(0, 4), n, m.en.cfg.numLayers, pages);
      assert PassTakes(m, kind, kvs) <= WorstCase(m, kind, pages);
    }
  }

  function CallsFor(kvs: seq<seq<seq<Token>>>, n: nat): (calls: seq<Call>)
    ensures |calls| == |kvs|
  {
    seq(|kvs|, l requires 0 <= l < |kvs| => Call(kvs[l], n, 0, true, 0))
  }

  /** The arena is large enough for every prompt of at most so many pages if and only if it holds the worst case of
    * both kinds. */
  lemma ArenaIff(m: Manager, sh: Shared, pages: nat)
    requires m.en.Valid() && Definite(m.en.ker) && |sh.prefilled| == m.en.cfg.numLayers
    requires m.en.cfg.headDim > 0 && pages <= m.en.cfg.maxPages && pages * m.en.cfg.pageSize > 1
    ensures EveryPromptFits(m, sh, pages) <==> ArenaHolds(m, pages)
  {
    hide Definite, PassOk, PassFits, ForwardAll, ArenaHolds;
    if ArenaHolds(m, pages) {
      forall kvs, n: nat, calls, dev |
        Calls(m.en.cfg, Ask(kvs, n), calls, dev) && n <= pages * m.en.cfg.pageSize
        ensures ForwardAll(m, sh, calls).Some?
      {
        HoldsFits(m, kvs, n, pages);
        AskPass(m, sh, kvs, n, calls, dev);
      }
    }
    if EveryPromptFits(m, sh, pages) {
      WorstFits(m, sh, KSlot, pages);
      WorstFits(m, sh, VSlot, pages);
      BothHold(m, pages);
    }
  }

  /** The arena holds the worst case of one kind. */
  ghost predicate KindHolds(m: Manager, kind: Kind, pages: nat)
    requires m.en.Valid()
  {
    && WorstCase(m, kind, pages) <= ArenaSlots(m.en.cfg)
    && (WorstCase(m, kind, pages) > 0 ==> SlotHolds(m.en.cfg, kind))
  }

  lemma BothHold(m: Manager, pages: nat)
    requires m.en.Valid() && KindHolds(m, KSlot, pages) && KindHolds(m, VSlot, pages)
    ensures ArenaHolds(m, pages)
  {
    hide WorstCase, SlotHolds, ArenaSlots;
    forall kind ensures KindHolds(m, kind, pages) {
      if kind == KSlot {} else {}
    }
    forall kind
      ensures WorstCase(m, kind, pages) <= ArenaSlots(m.en.cfg)
           && (WorstCase(m, kind, pages) > 0 ==> SlotHolds(m.en.cfg, kind))
    {
      assert KindHolds(m, kind, pages);
    }
  }

  lemma WorstFits(m: Manager, sh: Shared, kind: Kind, pages: nat)
    requires m.en.Valid() && Definite(m.en.ker) && |sh.prefilled| == m.en.cfg.numLayers
    requires EveryPromptFits(m, sh, pages) && m.en.cfg.headDim > 0 && pages * m.en.cfg.pageSize > 1
    ensures KindHolds(m, kind, pages)
  {
    hide Definite, TinyLayers, ForwardAll, LayerTakes, CapAt, PagesFor, SlotHolds, ArenaSlots;
    var n := pages * m.en.cfg.pageSize;
    var kvs := TinyLayers(m.en.cfg, kind, n);
    var calls := CallsFor(kvs, n);
    assert Calls(m.en.cfg, Ask(kvs, n), calls, 0);
    AskPass(m, sh, kvs, n, calls, 0);
    TinyTakes(m, kind, Prompt(0, 4), n, m.en.cfg.numLayers, pages);
    assert PassTakes(m, kind, kvs) == WorstCase(m, kind, pages);
  }

  /** Then every run within the pages succeeds as well; with non-negative absolute budgets this needs only that
    * blocks have the size of a slot. */
  lemma RunsSucceed(m: Manager, sh: Shared, passes: seq<Pass>, calls: seq<seq<Call>>, dev: nat)
    requires m.en.Valid() && NormOk(m.en.ker) && |sh.prefilled| == m.en.cfg.numLayers
    requires passes != [] && RunOk(m.en.cfg, passes) && CallsOf(m.en.cfg, passes, calls, dev)
    requires forall kind :: WorstCase(m, kind, m.en.cfg.maxPages) > 0 ==> SlotHolds(m.en.cfg, kind)
    requires ArenaHolds(m, m.en.cfg.maxPages)
      || (m.en.cfg.store.mode == Absolute && m.en.cfg.store.absK >= 0 && m.en.cfg.store.absV >= 0)
    ensures RunAll(m, sh, calls).Some?
  {
    hide WorstCase, SlotHolds, ArenaSlots, NormOk, PassFits, BudgetSum, PassOk, Synced, RunAll;
    if !ArenaHolds(m, m.en.cfg.maxPages) { ArenaSuffices(m); }
    forall i | 0 <= i < |passes| && passes[i].Ask? ensures PassFits(m, passes[i].kvs, passes[i].n) {
      assert Calls(m.en.cfg, passes[i], calls[i], dev);
      PassWithin(m.en.cfg, passes, i);
      HoldsFits(m, passes[i].kvs, passes[i].n, m.en.cfg.maxPages);
    }
    RunSynced(m, sh, passes, calls, dev);
  }

  lemma {:induction false} PassWithin(cfg: CacheConfig, passes: seq<Pass>, i: nat)
    requires RunOk(cfg, passes) && i < |passes| && passes[i].Ask?
    ensures passes[i].n <= cfg.maxPages * cfg.pageSize
  {
    if i < |passes| - 1 { PassWithin(cfg, passes[..|passes| - 1], i); }
  }

  // ---- budgets of either sign ----

  /** Blocks of one kind that one page of each layer stores at most, when multipliers are equal. */
  ghost function UniformBlocks(m: Manager, kind: Kind): nat
    requires m.en.Valid()
  {
    LiveLayers(m) * PageCap(m.en.cfg, kind)
  }

  /** The size of the arena is enough for one kind. */
  ghost predicate Covered(m: Manager, kind: Kind)
    requires m.en.Valid()
  {
    var cfg, blocks := m.en.cfg, UniformBlocks(m, kind);
    && SlotHolds(cfg, kind)
    && (cfg.maxPages * cfg.numKvHeads * blocks <= 64
        || blocks <= 2 * cfg.numLayers * (cfg.store.absK + cfg.store.absV))
  }

  /** With equal multipliers, absolute budgets of either sign and no ratio estimate, every prompt fits if and only if,
    * for each kind that is stored at all, blocks have the size of a slot, and 64 slots hold them or twice the plain
    * sum of the budgets covers them. */
  lemma UniformFitsIff(m: Manager, sh: Shared)
    requires m.en.Valid() && Definite(m.en.ker) && |sh.prefilled| == m.en.cfg.numLayers
    requires m.en.cfg.headDim > 0 && m.en.cfg.maxPages * m.en.cfg.pageSize > 1
    requires m.en.cfg.store.mode == Absolute && m.en.cfg.budgetPolicy == Uniform && m.en.cfg.store.ratio <= 0.0
    ensures EveryPromptFits(m, sh, m.en.cfg.maxPages) <==>
      forall kind :: UniformBlocks(m, kind) > 0 ==> Covered(m, kind)
  {
    hide Definite, EveryPromptFits, WorstCase, PageCap, LiveLayers, SlotHolds, ArenaSlots;
    ArenaIff(m, sh, m.en.cfg.maxPages);
    forall kind ensures KindHolds(m, kind, m.en.cfg.maxPages) <==> UniformBlocks(m, kind) > 0 ==> Covered(m, kind) {
      CoveredIff(m, kind);
    }
    HoldsIffKinds(m, m.en.cfg.maxPages);
  }

  lemma HoldsIffKinds(m: Manager, pages: nat)
    requires m.en.Valid()
    ensures ArenaHolds(m, pages) <==> forall kind :: KindHolds(m, kind, pages)
  {
    hide WorstCase, SlotHolds, ArenaSlots;
    if ArenaHolds(m, pages) {
      forall kind ensures KindHolds(m, kind, pages) { assert WorstCase(m, kind, pages) <= ArenaSlots(m.en.cfg); }
    }
    if forall kind :: KindHolds(m, kind, pages) { BothHold(m, pages); }
  }

  lemma CoveredIff(m: Manager, kind: Kind)
    requires m.en.Valid() && m.en.cfg.maxPages > 0
    requires m.en.cfg.store.mode == Absolute && m.en.cfg.budgetPolicy == Uniform && m.en.cfg.store.ratio <= 0.0
    ensures KindHolds(m, kind, m.en.cfg.maxPages) <==> UniformBlocks(m, kind) > 0 ==> Covered(m, kind)
  {
    hide WorstCase, PageCap, LiveLayers, SlotHolds, ArenaSlots;
    UniformWorstIff(m, kind);
    var pages, blocks := m.en.cfg.maxPages * m.en.cfg.numKvHeads, UniformBlocks(m, kind);
    assert pages > 0;
    assert pages * blocks > 0 <==> blocks > 0;
  }

  /** One layer and head of pages of 16 tokens and 16 channels, storing `k` K and `v` V blocks a page. */
  function SmallManager(pages: nat, k: int, v: int): (m: Manager)
    ensures m.en.Valid()
  {
    var store := Budget(Absolute, 0.0, None, None, k, v);
    var cfg := CacheConfig(1, 1, 16, 16, pages, 4, 8, 16, false, 1, 1, store, PerKind, store, Both, 0.0, 0.0, 0,
                           Separate, CareKv, Uniform, [1.0]);
    Manager(Engine(cfg, 0, Kernels(MaxAbs, [], _ => 0.0)), 0, 1.0, 1.0)
  }

  lemma ZeroAppend(v: Vec, x: real)
    ensures ZeroVec(v + [x]) <==> ZeroVec(v) && x == 0.0
  {
    if ZeroVec(v + [x]) {
      forall c | 0 <= c < |v| ensures v[c] == 0.0 { assert (v + [x])[c] == v[c]; }
      assert (v + [x])[|v|] == x;
    }
  }

  lemma {:induction false} MaxAbsZero(v: Vec)
    ensures MaxAbs(v) == 0.0 <==> ZeroVec(v)
  {
    if v == [] {
    } else {
      var init := v[..|v| - 1];
      MaxAbsZero(init);
      hide MaxAbs;
      assert v == init + [v[|v| - 1]];
      ZeroAppend(init, v[|v| - 1]);
    }
  }

  lemma MaxAbsDefinite(ker: Kernels)
    requires ker.norm == MaxAbs
    ensures Definite(ker)
  {
    hide MaxAbs;
    forall v: Vec ensures ker.norm(v) == 0.0 <==> ZeroVec(v) { MaxAbsZero(v); }
  }

  lemma SmallBlocks(pages: nat, k: int, v: int, kind: Kind)
    ensures UniformBlocks(SmallManager(pages, k, v), kind) == Min(16, Max(0, if kind == KSlot then k else v))
    ensures SlotHolds(SmallManager(pages, k, v).en.cfg, kind)
  {
    var m := SmallManager(pages, k, v);
    assert LiveLayers(m) == 1 by { TotalConstant(1, LiveAt(m), 1); }
    assert NumGroups(m.en.cfg, kind) == 16;
  }

  /** 64 slots, or twice the sum of the budgets, are enough for one kind of such a layer. */
  predicate EnoughFor(pages: nat, budget: int, sum: int)
  {
    var blocks := Min(16, Max(0, budget)); pages * blocks <= 64 || blocks <= 2 * sum
  }

  lemma SmallCovered(pages: nat, k: int, v: int, kind: Kind)
    ensures (UniformBlocks(SmallManager(pages, k, v), kind) > 0 ==> Covered(SmallManager(pages, k, v), kind))
       <==> EnoughFor(pages, if kind == KSlot then k else v, k + v)
  {
    hide UniformBlocks, SlotHolds;
    SmallBlocks(pages, k, v, kind);
  }

  lemma SmallFitsIff(pages: nat, k: int, v: int, sh: Shared)
    requires pages > 0 && |sh.prefilled| == 1
    ensures EveryPromptFits(SmallManager(pages, k, v), sh, pages) <==>
      EnoughFor(pages, k, k + v) && EnoughFor(pages, v, k + v)
  {
    hide EveryPromptFits, Definite, UniformBlocks, Covered, EnoughFor;
    var m := SmallManager(pages, k, v);
    MaxAbsDefinite(m.en.ker);
    UniformFitsIff(m, sh);
    SmallCovered(pages, k, v, KSlot);
    SmallCovered(pages, k, v, VSlot);
    if EnoughFor(pages, k, k + v) && EnoughFor(pages, v, k + v) {
      forall kind ensures UniformBlocks(m, kind) > 0 ==> Covered(m, kind) { SmallCovered(pages, k, v, kind); }
    }
  }

  /** Eight pages of ten K blocks need 80 slots: a V budget of -1 leaves room for them, one of -10 does not, and some
    * prompt fails. Four pages of all 16 channel groups need 64, and no budget, however negative, leaves fewer. */
  lemma NegativeBudgetShrinks(sh: Shared)
    requires |sh.prefilled| == 1
    ensures EveryPromptFits(SmallManager(8, 10, -1), sh, 8) && !EveryPromptFits(SmallManager(8, 10, -10), sh, 8)
    ensures EveryPromptFits(SmallManager(4, 100, -100), sh, 4)
  {
    hide EveryPromptFits, SmallManager;
    SmallFitsIff(8, 10, -1, sh);
    SmallFitsIff(8, 10, -10, sh);
    SmallFitsIff(4, 100, -100, sh);
  }
}
