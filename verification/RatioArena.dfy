/** Arenas sized by a ratio, as they are by default: exactly when every prompt of so many pages fits. */
module RatioArena {

  import opened Numbers
  import opened Config
  import opened Selection
  import opened SlotArena
  import opened Router
  import opened StorePlan
  import opened Losses
  import opened Occupancy
  import opened Capacity
  import opened Protocol
  import opened Saturation

  /** Equal multipliers, and no absolute budget that adds to the arena. */
  predicate SizedByRatio(cfg: CacheConfig)
  {
    && cfg.budgetPolicy == Uniform && cfg.store.mode != Absolute && cfg.store.ratio > 0.0
    && cfg.store.absK + cfg.store.absV <= 0
  }

  /** The fraction of its groups that a kind may store. */
  function KindRatio(m: Manager, kind: Kind): real
  {
    var b := m.en.cfg.store;
    if kind == KSlot then ResolvedRatio(b.ratioK, b.ratio) * m.kFrac else ResolvedRatio(b.ratioV, b.ratio) * m.vFrac
  }

  /** The shared budget of the joint policy: a fraction of all groups, rounded down but to no less than one. */
  function JointBlocks(cfg: CacheConfig): nat
    requires cfg.Valid()
  {
    Max(1, ((Max(1, cfg.NumCg()) + Max(1, cfg.NumVb())) as real * cfg.store.ratio).Floor)
  }

  /** A kind's own budget: a fraction of its groups, rounded down but to no less than a minimum. */
  function OwnBlocks(groups: nat, least: int, share: real): int
  {
    if share > 0.0 then Max(least, (Max(1, groups) as real * share).Floor) else 0
  }

  /** The most blocks of one kind a page stores: its budget, and no more than it has groups. */
  function RatioBlocks(m: Manager, kind: Kind): nat
    requires m.en.Valid()
  {
    var groups := NumGroups(m.en.cfg, kind);
    var budget :=
      if m.en.cfg.storePolicy == StoreJoint then JointBlocks(m.en.cfg)
      else if Stores(m.en.cfg, kind) then OwnBlocks(groups, m.minPerKind, KindRatio(m, kind))
      else 0;
    Max(0, Min(groups, budget))
  }

  lemma TimesOne(x: real, y: real)
    requires y == 1.0
    ensures x * y == x
  {
  }

  lemma UniformRatio(m: Manager, kind: Kind)
    requires m.en.Valid() && m.en.cfg.budgetPolicy == Uniform
    ensures RatioOf(m, kind) == KindRatio(m, kind)
  {
    hide ResolvedRatio;
    TimesOne(KindRatio(m, kind), m.en.Lm());
  }

  lemma UniformJoint(m: Manager)
    requires m.en.Valid() && m.en.cfg.budgetPolicy == Uniform && m.en.cfg.store.mode != Absolute
    ensures JointBudget(m) == JointBlocks(m.en.cfg)
  {
    hide CacheConfig.NumCg, CacheConfig.NumVb;
    var both := (Max(1, m.en.cfg.NumCg()) + Max(1, m.en.cfg.NumVb())) as real;
    TimesOne(both * m.en.cfg.store.ratio, m.en.Lm());
  }

  lemma OwnIs(groups: nat, least: int, share: real, r: real)
    requires r == share
    ensures OwnBlocks(groups, least, share) == if r > 0.0 then Max(least, (Max(1, groups) as real * r).Floor) else 0
  {
  }

  lemma UniformOwn(m: Manager, kind: Kind)
    requires m.en.Valid() && m.en.cfg.budgetPolicy == Uniform && m.en.cfg.store.mode != Absolute
    requires Stores(m.en.cfg, kind)
    ensures StoreBudget(m, kind) == Max(0, OwnBlocks(NumGroups(m.en.cfg, kind), m.minPerKind, KindRatio(m, kind)))
  {
    hide NumGroups, RatioOf, KindRatio, OwnBlocks;
    UniformRatio(m, kind);
    OwnIs(NumGroups(m.en.cfg, kind), m.minPerKind, KindRatio(m, kind), RatioOf(m, kind));
  }

  lemma RatioCap(m: Manager, kind: Kind)
    requires m.en.Valid() && SizedByRatio(m.en.cfg)
    ensures KindCap(m, kind) == if m.en.Sens() > 0.0 then RatioBlocks(m, kind) else 0
  {
    hide NumGroups, JointBudget, JointBlocks, StoreBudget, KindRatio, OwnBlocks;
    UniformJoint(m);
    if Stores(m.en.cfg, kind) { UniformOwn(m, kind); } else { NotStored(m, kind); }
  }

  lemma NotStored(m: Manager, kind: Kind)
    requires m.en.Valid() && !Stores(m.en.cfg, kind)
    ensures StoreBudget(m, kind) == 0
  {
  }

  lemma {:induction false} RatioTotals(m: Manager, kind: Kind, n: nat)
    requires m.en.Valid() && SizedByRatio(m.en.cfg) && n <= m.en.cfg.numLayers
    ensures Total(n, CapAt(m, kind)) == Total(n, LiveAt(m)) * RatioBlocks(m, kind)
  {
    hide KindCap, RatioBlocks;
    if n == 0 {
    } else {
      RatioTotals(m, kind, n - 1);
      RatioCap(At(m, n - 1), kind);
      SameBlocks(m, kind, n - 1);
      OneMoreTimes(Total(n - 1, LiveAt(m)), RatioBlocks(m, kind));
    }
  }

  lemma SameRatio(m: Manager, kind: Kind, l: nat)
    ensures KindRatio(At(m, l), kind) == KindRatio(m, kind)
  {
    hide ResolvedRatio;
  }

  lemma SameBlocks(m: Manager, kind: Kind, l: nat)
    requires m.en.Valid() && l < m.en.cfg.numLayers
    ensures At(m, l).en.Valid() && RatioBlocks(At(m, l), kind) == RatioBlocks(m, kind)
  {
    hide NumGroups, JointBlocks, OwnBlocks, KindRatio;
    SameRatio(m, kind, l);
  }

  /** Blocks of one kind that one page of each layer stores at most. */
  ghost function LayerBlocks(m: Manager, kind: Kind): nat
    requires m.en.Valid()
  {
    LiveLayers(m) * RatioBlocks(m, kind)
  }

  /** Slots of the size of the blocks, and enough of them for so many pages: 64, or four times the ratio of what one
    * slot for every page would be. */
  ghost predicate RatioCovers(m: Manager, kind: Kind, pages: nat)
    requires m.en.Valid()
  {
    var cfg, need := m.en.cfg, pages * m.en.cfg.numKvHeads * LayerBlocks(m, kind);
    && SlotHolds(cfg, kind)
    && (need <= 64
        || need as real <= 4.0 * cfg.store.ratio * (cfg.maxPages * cfg.numKvHeads * cfg.numLayers) as real)
  }

  lemma RatioSizeIff(cfg: CacheConfig, need: nat)
    requires SizedByRatio(cfg)
    ensures need <= ArenaSlots(cfg) <==>
      need <= 64 || need as real <= 4.0 * cfg.store.ratio * (cfg.maxPages * cfg.numKvHeads * cfg.numLayers) as real
  {
    var slots, a := PageSlots(cfg), cfg.store.absK + cfg.store.absV;
    var top := slots as real * cfg.store.ratio * 4.0;
    assert top == 4.0 * cfg.store.ratio * slots as real;
    NotPositive(slots, a);
    assert need as real <= top <==> need <= top.Floor;
  }

  lemma NotPositive(n: nat, a: int)
    requires a <= 0
    ensures n * a * 2 <= 0
  {
    MulLe(0, -a, n);
    assert n * a == -(-a * n);
  }

  lemma CoversIff(m: Manager, kind: Kind, pages: nat)
    requires m.en.Valid() && SizedByRatio(m.en.cfg) && pages > 0
    ensures KindHolds(m, kind, pages) <==> LayerBlocks(m, kind) > 0 ==> RatioCovers(m, kind, pages)
  {
    hide RatioBlocks, LiveAt, SlotHolds, ArenaSlots, CapAt;
    RatioTotals(m, kind, m.en.cfg.numLayers);
    var heads, blocks := pages * m.en.cfg.numKvHeads, LayerBlocks(m, kind);
    RatioSizeIff(m.en.cfg, heads * blocks);
    assert heads > 0;
    assert heads * blocks > 0 <==> blocks > 0;
  }

  /** With equal multipliers, a positive ratio and no absolute estimate, under every store policy: every prompt of at
    * most so many pages succeeds if and only if, for each kind stored at all, blocks have the size of a slot, and 64
    * slots hold them or four times the ratio covers them. */
  lemma RatioFitsIff(m: Manager, sh: Shared, pages: nat)
    requires m.en.Valid() && Definite(m.en.ker) && |sh.prefilled| == m.en.cfg.numLayers && SizedByRatio(m.en.cfg)
    requires m.en.cfg.headDim > 0 && pages <= m.en.cfg.maxPages && pages * m.en.cfg.pageSize > 1
    ensures EveryPromptFits(m, sh, pages) <==>
      forall kind :: LayerBlocks(m, kind) > 0 ==> RatioCovers(m, kind, pages)
  {
    hide Definite, EveryPromptFits, KindHolds, RatioCovers, LayerBlocks, ArenaHolds;
    ArenaIff(m, sh, pages);
    HoldsIffKinds(m, pages);
    forall kind ensures KindHolds(m, kind, pages) <==> LayerBlocks(m, kind) > 0 ==> RatioCovers(m, kind, pages) {
      CoversIff(m, kind, pages);
    }
  }

  // ---- consequences ----

  lemma {:induction false} LiveAtMost(m: Manager, n: nat)
    requires m.en.Valid()
    ensures Total(n, LiveAt(m)) <= n
  {
    TotalWithin(n, LiveAt(m), 1);
  }

  lemma FloorAtMostFour(groups: nat, ratio: real, least: int)
    requires 1 <= groups <= 4 && ratio > 0.0 && least <= (groups as real * ratio).Floor
    ensures OwnBlocks(groups, least, ratio) as real <= 4.0 * ratio
  {
    MulMono(groups as real, 4.0, ratio);
  }

  lemma BlocksAtMostFour(m: Manager, kind: Kind)
    requires m.en.Valid() && m.en.cfg.storePolicy != StoreJoint && KindRatio(m, kind) == m.en.cfg.store.ratio > 0.0
    requires NumGroups(m.en.cfg, kind) <= 4
    requires m.minPerKind <= (NumGroups(m.en.cfg, kind) as real * m.en.cfg.store.ratio).Floor
    ensures RatioBlocks(m, kind) as real <= 4.0 * m.en.cfg.store.ratio
  {
    hide KindRatio, NumGroups, OwnBlocks;
    var groups := NumGroups(m.en.cfg, kind);
    if groups > 0 { FloorAtMostFour(groups, m.en.cfg.store.ratio, m.minPerKind); }
  }

  lemma FourTimes(pages: nat, heads: nat, layers: nat, live: nat, blocks: nat, most: nat, top: real)
    requires pages <= most && live <= layers && blocks as real <= top && top >= 0.0
    ensures (pages * heads * (live * blocks)) as real <= top * (most * heads * layers) as real
  {
    var small, big := pages * heads * live, most * heads * layers;
    MulLe(pages, most, heads);
    MulLe(live, layers, pages * heads);
    MulLe(pages * heads, most * heads, layers);
    assert pages * heads * (live * blocks) == small * blocks;
    MulMono(blocks as real, top, small as real);
    MulMono(small as real, big as real, top);
  }

  /** A kind with slots of the size of its blocks, at most four groups, the plain ratio for a budget, and a minimum
    * within the rounded fraction of its groups. */
  predicate FourGroups(m: Manager, kind: Kind)
    requires m.en.Valid()
  {
    && SlotHolds(m.en.cfg, kind) && KindRatio(m, kind) == m.en.cfg.store.ratio && NumGroups(m.en.cfg, kind) <= 4
    && m.minPerKind <= (NumGroups(m.en.cfg, kind) as real * m.en.cfg.store.ratio).Floor
  }

  lemma FourGroupsCover(m: Manager, kind: Kind, pages: nat)
    requires m.en.Valid() && SizedByRatio(m.en.cfg) && m.en.cfg.storePolicy != StoreJoint && FourGroups(m, kind)
    requires pages <= m.en.cfg.maxPages
    ensures RatioCovers(m, kind, pages)
  {
    hide RatioBlocks, KindRatio, NumGroups, SlotHolds, LiveAt;
    LiveAtMost(m, m.en.cfg.numLayers);
    BlocksAtMostFour(m, kind);
    FourTimes(pages, m.en.cfg.numKvHeads, m.en.cfg.numLayers, LiveLayers(m), RatioBlocks(m, kind), m.en.cfg.maxPages,
              4.0 * m.en.cfg.store.ratio);
  }

  /** With a policy that budgets each kind by itself, and such kinds, no prompt within the pages fails for want of
    * slots. */
  lemma FourGroupsFit(m: Manager, sh: Shared, pages: nat)
    requires m.en.Valid() && Definite(m.en.ker) && |sh.prefilled| == m.en.cfg.numLayers && SizedByRatio(m.en.cfg)
    requires m.en.cfg.headDim > 0 && pages <= m.en.cfg.maxPages && pages * m.en.cfg.pageSize > 1
    requires m.en.cfg.storePolicy != StoreJoint && forall kind :: LayerBlocks(m, kind) > 0 ==> FourGroups(m, kind)
    ensures EveryPromptFits(m, sh, pages)
  {
    hide Definite, EveryPromptFits, FourGroups, LayerBlocks, RatioCovers;
    RatioFitsIff(m, sh, pages);
    forall kind | LayerBlocks(m, kind) > 0 ensures RatioCovers(m, kind, pages) { FourGroupsCover(m, kind, pages); }
  }

  /** The default configuration, at equal sensitivities: four groups of each kind, a tenth of them stored. */
  function DefaultManager(ker: Kernels): (m: Manager)
    ensures m.en.Valid() && m.en.ker == ker && SizedByRatio(m.en.cfg)
  {
    var cfg := CacheConfig(32, 32, 128, 16, 512, 2, 4, 64, false, 32, 4,
                           Budget(Ratio, 0.1, None, None, 0, 0), KindAware, Budget(Ratio, 0.03, None, None, 0, 0), Both,
                           0.0, 0.0, 0, Separate, CareKv, Uniform, seq(32, _ => 1.0));
    Manager(Engine(cfg, 0, ker), 1, 1.0, 1.0)
  }

  lemma DefaultBlocks(ker: Kernels, kind: Kind)
    ensures var m := DefaultManager(ker);
      && LayerBlocks(m, kind) == 32 && SlotHolds(m.en.cfg, kind)
      && m.en.cfg.maxPages == 512 && m.en.cfg.pageSize == 16 && m.en.cfg.headDim == 128
      && m.en.cfg.numKvHeads == 32 && m.en.cfg.numLayers == 32 && m.en.cfg.store.ratio == 0.1
  {
    var m := DefaultManager(ker);
    TotalConstant(32, LiveAt(m), 1);
    assert NumGroups(m.en.cfg, kind) == 4;
    assert (4 as real * 0.1).Floor == 0;
    assert RatioBlocks(m, kind) == 1;
  }

  /** There a page stores one block of each kind, though a tenth of four groups is none: so prompts of up to 204 pages
    * always fit, and from 205 pages on, of the 512 there are, some prompt finds the arena full. */
  lemma DefaultFitsIff(ker: Kernels, sh: Shared, pages: nat)
    requires Definite(ker) && |sh.prefilled| == 32 && 1 <= pages <= 512
    ensures EveryPromptFits(DefaultManager(ker), sh, pages) <==> pages <= 204
  {
    hide Definite, EveryPromptFits, DefaultManager, LayerBlocks, SlotHolds;
    var m := DefaultManager(ker);
    DefaultBlocks(ker, KSlot);
    RatioFitsIff(m, sh, pages);
    forall kind ensures LayerBlocks(m, kind) == 32 && (RatioCovers(m, kind, pages) <==> pages <= 204) {
      DefaultBlocks(ker, kind);
      assert pages * 32 * 32 == 1024 * pages;
    }
    if EveryPromptFits(m, sh, pages) { assert LayerBlocks(m, KSlot) > 0; }
  }
}
