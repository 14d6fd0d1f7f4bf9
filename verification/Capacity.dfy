/** Arena sizing: the most slots a page, a layer and the whole model can ever take, and why absolute budgets never
  * run out of them. */
module Capacity {

  import opened Numbers
  import opened Sums
  import opened Config
  import opened Selection
  import opened BaseRows
  import opened SlotArena
  import opened Router
  import opened RouterSoundness
  import opened StorePlan
  import opened LayerSteps
  import opened LayerRuns
  import opened Occupancy

  function PageSlots(cfg: CacheConfig): nat { cfg.maxPages * cfg.numKvHeads * cfg.numLayers }

  /** Slots of each kind: the larger of the two estimates, and at least 64. */
  function ArenaSlots(cfg: CacheConfig): (n: nat)
    ensures n >= 64
  {
    Max(64, Max((PageSlots(cfg) as real * cfg.store.ratio * 4.0).Floor,
                PageSlots(cfg) * (cfg.store.absK + cfg.store.absV) * 2))
  }

  // ---- one page ----

  /** The two store budgets of a page together. */
  function PageBudget(m: Manager): nat
    requires m.en.Valid()
  {
    StoreBudget(m, KSlot) + StoreBudget(m, VSlot)
  }

  /** The most blocks of one kind a page can store: no more than its budget, nor than it has groups, and none at all
    * where the sensitivity makes every prior zero. */
  function KindCap(m: Manager, kind: Kind): nat
    requires m.en.Valid()
  {
    if StoresNothing(m.en.cfg.store) || m.en.Sens() == 0.0 then 0
    else
      Min(NumGroups(m.en.cfg, kind),
          if m.en.cfg.storePolicy == StoreJoint then JointBudget(m) else StoreBudget(m, kind))
  }

  lemma InsensitiveScores(m: Manager, kind: Kind, x: PageInput, p: nat)
    requires m.en.Valid() && InputOk(m.en.cfg, x) && m.en.Sens() == 0.0
    ensures Scored(m, kind, x, p) == []
  {
    hide GroupError, StructPrior;
    NothingScored(m, kind, x, p);
  }

  lemma ScoredAtMost(m: Manager, kind: Kind, x: PageInput, p: nat)
    requires m.en.Valid() && InputOk(m.en.cfg, x)
    ensures |Scored(m, kind, x, p)| <= NumGroups(m.en.cfg, kind)
  {
    hide Offers, Positive, SortDesc;
    var offers := Positive(Offers(m, kind, x, p));
    SortPermutes(offers);
    assert |SortDesc(offers)| == |offers|;
  }

  lemma SelectedAtMost(m: Manager, kind: Kind, x: PageInput, p: nat)
    requires m.en.Valid() && InputOk(m.en.cfg, x)
    ensures |SelectedOf(m, kind, x, p)| <= KindCap(m, kind)
  {
    hide Scored, AllOffers, JointBudget, StoreBudget, SortDesc, Take, Engine.Sens, NumGroups;
    SelectedPrefix(m, kind, x, p);
    ScoredAtMost(m, kind, x, p);
    if m.en.Sens() == 0.0 { InsensitiveScores(m, kind, x, p); }
    SelectedInBudget(m, kind, x, p);
  }

  lemma SelectedInBudget(m: Manager, kind: Kind, x: PageInput, p: nat)
    requires m.en.Valid() && InputOk(m.en.cfg, x)
    ensures |SelectedOf(m, kind, x, p)|
         <= if m.en.cfg.storePolicy == StoreJoint then JointBudget(m) else StoreBudget(m, kind)
    ensures StoresNothing(m.en.cfg.store) ==> SelectedOf(m, kind, x, p) == []
  {
    hide Scored, AllOffers, JointBudget, StoreBudget, SortDesc, Take;
    KindSizes(Selected(m, x, p));
    var ks, vs := Scored(m, KSlot, x, p), Scored(m, VSlot, x, p);
    TakePrefix(SortDesc(ks + vs), JointBudget(m));
    TakePrefix(ks, StoreBudget(m, KSlot));
    TakePrefix(vs, StoreBudget(m, VSlot));
    ScoredOffers(m, KSlot, x, p);
    ScoredOffers(m, VSlot, x, p);
    OffersKind(m, KSlot, x, p, ks);
    OffersKind(m, VSlot, x, p, vs);
    KindsOfConcat(Take(ks, StoreBudget(m, KSlot)), Take(vs, StoreBudget(m, VSlot)));
  }

  // ---- a prompt on one layer ----

  lemma MulLe(a: nat, b: nat, c: nat)
    requires a <= b
    ensures a * c <= b * c
  {
  }

  lemma {:induction false} TotalWithin(n: nat, f: nat -> nat, c: nat)
    requires forall i: nat :: i < n ==> f(i) <= c
    ensures Total(n, f) <= n * c
  {
    TotalAtMost(n, f, _ => c);
    TotalConstant(n, _ => c, c);
  }

  lemma PagesAtMost(m: Manager, kind: Kind, ts: seq<Token>, at: Prompt, n: nat)
    requires m.en.Valid()
    ensures Total(n, PageTakes(m, kind, ts, at)) <= n * KindCap(m, kind)
  {
    hide SelectedOf, KindCap, TokensOk, PromptInput;
    forall p: nat | p < n ensures PageTakes(m, kind, ts, at)(p) <= KindCap(m, kind) {
      if TokensOk(m.en.cfg, ts) && p * m.en.cfg.pageSize < |ts| {
        SelectedAtMost(m, kind, PromptInput(m.en.cfg, ts, at, p), p);
      }
    }
    TotalWithin(n, PageTakes(m, kind, ts, at), KindCap(m, kind));
  }

  lemma PromptAtMost(m: Manager, kind: Kind, kv: seq<seq<Token>>, at: Prompt, n: nat, pages: nat)
    requires m.en.Valid() && PromptOk(m.en.cfg, kv, n) && PagesFor(m.en.cfg, n) <= pages
    ensures PromptTakes(m, kind, kv, at) <= m.en.cfg.numKvHeads * (pages * KindCap(m, kind))
  {
    hide PageTakes, KindCap, PagesFor, TokensOk;
    forall h: nat | h < m.en.cfg.numKvHeads
      ensures HeadTakes(m, kind, kv, at)(h) <= pages * KindCap(m, kind)
    {
      PagesAtMost(m, kind, kv[h], at, PagesFor(m.en.cfg, n));
      MulLe(PagesFor(m.en.cfg, n), pages, KindCap(m, kind));
    }
    TotalWithin(m.en.cfg.numKvHeads, HeadTakes(m, kind, kv, at), pages * KindCap(m, kind));
  }

  // ---- all layers ----

  /** The same settings for another layer. */
  function At(m: Manager, l: nat): Manager { m.(en := m.en.(layer := l)) }

  /** Slots of one kind that each layer's share of a prompt takes. */
  ghost function LayerTakes(m: Manager, kind: Kind, kvs: seq<seq<seq<Token>>>, at: Prompt): nat -> nat
    requires m.en.Valid()
  {
    (l: nat) => if l < m.en.cfg.numLayers && l < |kvs| then PromptTakes(At(m, l), kind, kvs[l], at) else 0
  }

  /** The most blocks a page of each layer can store. */
  ghost function CapAt(m: Manager, kind: Kind): nat -> nat
    requires m.en.Valid()
  {
    (l: nat) => if l < m.en.cfg.numLayers then KindCap(At(m, l), kind) else 0
  }

  /** The most slots of one kind that a prompt of so many pages can take, over all layers and heads. */
  ghost function WorstCase(m: Manager, kind: Kind, pages: nat): nat
    requires m.en.Valid()
  {
    pages * m.en.cfg.numKvHeads * Total(m.en.cfg.numLayers, CapAt(m, kind))
  }

  lemma {:induction false} LayersAtMost(m: Manager, kind: Kind, kvs: seq<seq<seq<Token>>>, at: Prompt, n: nat, l: nat,
                                        pages: nat)
    requires m.en.Valid() && PassOk(m.en.cfg, kvs, n) && PagesFor(m.en.cfg, n) <= pages && l <= m.en.cfg.numLayers
    ensures Total(l, LayerTakes(m, kind, kvs, at)) <= pages * m.en.cfg.numKvHeads * Total(l, CapAt(m, kind))
  {
    hide PromptTakes, KindCap, PagesFor, PromptOk;
    if l == 0 {
    } else {
      LayersAtMost(m, kind, kvs, at, n, l - 1, pages);
      PromptAtMost(At(m, l - 1), kind, kvs[l - 1], at, n, pages);
      Regroup(pages, m.en.cfg.numKvHeads, Total(l - 1, CapAt(m, kind)), KindCap(At(m, l - 1), kind));
    }
  }

  lemma Regroup(a: nat, b: nat, s: nat, c: nat)
    ensures a * b * (s + c) == a * b * s + b * (a * c)
  {
  }

  /** Both arenas hold the worst case of so many pages, in slots of the size of the blocks. */
  ghost predicate ArenaHolds(m: Manager, pages: nat)
    requires m.en.Valid()
  {
    forall kind ::
      && WorstCase(m, kind, pages) <= ArenaSlots(m.en.cfg)
      && (WorstCase(m, kind, pages) > 0 ==> SlotHolds(m.en.cfg, kind))
  }

  // ---- absolute budgets ----

  ghost function BudgetAt(m: Manager): nat -> nat
    requires m.en.Valid()
  {
    (l: nat) => if l < m.en.cfg.numLayers then PageBudget(At(m, l)) else 0
  }

  /** Page budgets of all layers. */
  ghost function BudgetSum(m: Manager): nat
    requires m.en.Valid()
  {
    Total(m.en.cfg.numLayers, BudgetAt(m))
  }

  function Exact(m: Manager): int -> real
  {
    l => if 0 <= l < m.en.cfg.numLayers && |m.en.cfg.layerSensitivity| == m.en.cfg.numLayers then
           (m.en.cfg.store.absK + m.en.cfg.store.absV) as real
           * Multiplier(m.en.cfg.budgetPolicy, m.en.cfg.layerSensitivity, m.en.cfg.numLayers, l)
         else 0.0
  }

  lemma AtValid(m: Manager, l: nat)
    requires m.en.Valid() && l < m.en.cfg.numLayers
    ensures At(m, l).en.Valid() && At(m, l).en.cfg == m.en.cfg
    ensures At(m, l).en.Lm() == Multiplier(m.en.cfg.budgetPolicy, m.en.cfg.layerSensitivity, m.en.cfg.numLayers,
                                           l) >= 0.0
  {
    hide Multiplier;
    MultiplierNonNegative(m.en.cfg.budgetPolicy, m.en.cfg.layerSensitivity, m.en.cfg.numLayers, l);
  }

  lemma PageBudgetBound(m: Manager)
    requires m.en.Valid() && m.en.cfg.store.mode == Absolute && m.en.Lm() >= 0.0
    ensures PageBudget(m) <= LayerBudget(m.en.cfg.store.absK, m.en.Lm()) + LayerBudget(m.en.cfg.store.absV, m.en.Lm())
  {
    hide LayerBudget, Multiplier;
    LayerBudgetNonNegative(m.en.cfg.store.absK, m.en.Lm());
    LayerBudgetNonNegative(m.en.cfg.store.absV, m.en.Lm());
  }

  lemma RoundedPair(k: int, v: int, lm: real)
    requires k >= 0 && v >= 0 && lm >= 0.0
    ensures (LayerBudget(k, lm) + LayerBudget(v, lm)) as real <= (k + v) as real * lm + 1.0
    ensures k + v == 0 ==> LayerBudget(k, lm) + LayerBudget(v, lm) == 0
  {
    hide Round, LayerBudget;
    LayerBudgetWithin(k, lm);
    LayerBudgetWithin(v, lm);
    assert (k + v) as real * lm == k as real * lm + v as real * lm;
    if k + v == 0 { NoBudget(lm); }
  }

  lemma NoBudget(lm: real)
    ensures LayerBudget(0, lm) == 0
  {
    RoundOfInt(0);
  }

  lemma OneLayerBudget(m: Manager, l: nat)
    requires m.en.Valid() && l < m.en.cfg.numLayers && m.en.cfg.store.mode == Absolute
    requires m.en.cfg.store.absK >= 0 && m.en.cfg.store.absV >= 0
    ensures At(m, l).en.Valid() && BudgetAt(m)(l) as real <= Exact(m)(l) + 1.0
    ensures m.en.cfg.store.absK + m.en.cfg.store.absV == 0 ==> BudgetAt(m)(l) == 0
  {
    hide Multiplier, LayerBudget, PageBudget;
    AtValid(m, l);
    PageBudgetBound(At(m, l));
    RoundedPair(m.en.cfg.store.absK, m.en.cfg.store.absV, At(m, l).en.Lm());
  }

  lemma {:induction false} BudgetsBelow(m: Manager, n: nat)
    requires m.en.Valid() && n <= m.en.cfg.numLayers && m.en.cfg.store.mode == Absolute
    requires m.en.cfg.store.absK >= 0 && m.en.cfg.store.absV >= 0
    ensures Total(n, BudgetAt(m)) as real <= Sum(0, n, Exact(m)) + n as real
    ensures m.en.cfg.store.absK + m.en.cfg.store.absV == 0 ==> Total(n, BudgetAt(m)) == 0
  {
    hide Exact, BudgetAt;
    if n == 0 {
    } else {
      BudgetsBelow(m, n - 1);
      OneLayerBudget(m, n - 1);
    }
  }

  lemma ExactTotal(m: Manager)
    requires m.en.Valid()
    ensures Sum(0, m.en.cfg.numLayers, Exact(m))
         == (m.en.cfg.store.absK + m.en.cfg.store.absV) as real * m.en.cfg.numLayers as real
  {
    hide Multiplier;
    var cfg := m.en.cfg;
    var f := l => if 0 <= l < cfg.numLayers then Multiplier(cfg.budgetPolicy, cfg.layerSensitivity, cfg.numLayers,
                                                            l) else 0.0;
    MultipliersConserve(cfg.budgetPolicy, cfg.layerSensitivity, cfg.numLayers, f);
    SumScale(0, cfg.numLayers, (cfg.store.absK + cfg.store.absV) as real, f, Exact(m));
  }

  lemma CapWithinBudget(m: Manager, kind: Kind)
    requires m.en.Valid() && m.en.cfg.store.mode == Absolute
    ensures KindCap(m, kind) <= PageBudget(m)
  {
    hide AbsoluteOf, NumGroups;
  }

  lemma WorstWithinBudget(m: Manager, kind: Kind)
    requires m.en.Valid() && m.en.cfg.store.mode == Absolute
    ensures WorstCase(m, kind, m.en.cfg.maxPages) <= m.en.cfg.maxPages * m.en.cfg.numKvHeads * BudgetSum(m)
  {
    hide KindCap, PageBudget;
    forall l: nat | l < m.en.cfg.numLayers ensures CapAt(m, kind)(l) <= BudgetAt(m)(l) {
      CapWithinBudget(At(m, l), kind);
    }
    TotalAtMost(m.en.cfg.numLayers, CapAt(m, kind), BudgetAt(m));
    MulLe(Total(m.en.cfg.numLayers, CapAt(m, kind)), BudgetSum(m), m.en.cfg.maxPages * m.en.cfg.numKvHeads);
  }

  /** The factor 2 in the arena size covers budgets that add up to one slot a layer more than their exact total. */
  lemma DoubleCovers(cfg: CacheConfig, b: nat)
    requires var a := cfg.store.absK + cfg.store.absV;
      && a >= 0 && b as real <= a as real * cfg.numLayers as real + cfg.numLayers as real && (a == 0 ==> b == 0)
    ensures cfg.maxPages * cfg.numKvHeads * b <= ArenaSlots(cfg)
  {
    var pages, a := cfg.maxPages * cfg.numKvHeads, cfg.store.absK + cfg.store.absV;
    if a == 0 {
      assert pages * b == 0;
    } else {
      DoubleAbsorbs(a, cfg.numLayers, b);
      MulLe(b, cfg.numLayers * a * 2, pages);
      assert pages * (cfg.numLayers * a * 2) == PageSlots(cfg) * a * 2;
    }
  }

  /** The arena holds every layer's worst case at once, whatever the layer multipliers: they sum to the
    * number of layers, and rounding adds at most one slot a page and layer, which the factor 2 absorbs. */
  lemma ArenaSuffices(m: Manager)
    requires m.en.Valid() && m.en.cfg.store.mode == Absolute
    requires m.en.cfg.store.absK >= 0 && m.en.cfg.store.absV >= 0
    ensures m.en.cfg.maxPages * m.en.cfg.numKvHeads * BudgetSum(m) <= ArenaSlots(m.en.cfg)
    ensures forall kind :: WorstCase(m, kind, m.en.cfg.maxPages) <= ArenaSlots(m.en.cfg)
  {
    hide Exact, WorstCase, BudgetAt, ArenaSlots;
    BudgetsBelow(m, m.en.cfg.numLayers);
    ExactTotal(m);
    DoubleCovers(m.en.cfg, BudgetSum(m));
    forall kind ensures WorstCase(m, kind, m.en.cfg.maxPages) <= ArenaSlots(m.en.cfg) { WorstWithinBudget(m, kind); }
  }

  lemma DoubleAbsorbs(a: nat, layers: nat, b: nat)
    requires a >= 1 && b as real <= a as real * layers as real + layers as real
    ensures b <= layers * a * 2
  {
    assert a as real * layers as real == (a * layers) as real;
    MulLe(1, a, layers);
  }

  // ---- budgets of either sign ----

  /** What one kind contributes to a page's demand: negative budgets count as zero, and so does a kind
    * that is not stored. */
  function Asked(cfg: CacheConfig, kind: Kind): nat
  {
    if Stores(cfg, kind) then Max(0, if kind == KSlot then cfg.store.absK else cfg.store.absV) else 0
  }

  function Demand(cfg: CacheConfig): nat { Asked(cfg, KSlot) + Asked(cfg, VSlot) }

  /** The most blocks of one kind a page stores when multipliers are equal. */
  function PageCap(cfg: CacheConfig, kind: Kind): nat
    requires cfg.Valid()
  {
    Min(NumGroups(cfg, kind), if cfg.storePolicy == StoreJoint then Demand(cfg) else Asked(cfg, kind))
  }

  ghost function LiveAt(m: Manager): nat -> nat
    requires m.en.Valid()
  {
    (l: nat) => if l < m.en.cfg.numLayers && m.en.cfg.layerSensitivity[l] > 0.0 then 1 else 0
  }

  /** Layers of positive sensitivity; on the others every prior is zero. */
  ghost function LiveLayers(m: Manager): nat
    requires m.en.Valid()
  {
    Total(m.en.cfg.numLayers, LiveAt(m))
  }

  lemma UniformBudgets(m: Manager)
    requires m.en.Valid() && m.en.cfg.store.mode == Absolute && m.en.cfg.budgetPolicy == Uniform
    ensures StoreBudget(m, KSlot) == Asked(m.en.cfg, KSlot) && StoreBudget(m, VSlot) == Asked(m.en.cfg, VSlot)
  {
    hide Round;
    RoundOfInt(Max(0, m.en.cfg.store.absK));
    RoundOfInt(Max(0, m.en.cfg.store.absV));
  }

  lemma UniformCap(m: Manager, kind: Kind)
    requires m.en.Valid() && m.en.cfg.store.mode == Absolute && m.en.cfg.budgetPolicy == Uniform
    ensures KindCap(m, kind) == if m.en.Sens() > 0.0 then PageCap(m.en.cfg, kind) else 0
    ensures PageBudget(m) == Demand(m.en.cfg)
  {
    hide StoreBudget, Asked, NumGroups;
    UniformBudgets(m);
  }

  lemma OneMoreTimes(n: nat, c: nat)
    ensures (n + 1) * c == n * c + c
  {
  }

  lemma {:induction false} UniformTotals(m: Manager, kind: Kind, n: nat)
    requires m.en.Valid() && n <= m.en.cfg.numLayers
    requires m.en.cfg.store.mode == Absolute && m.en.cfg.budgetPolicy == Uniform
    ensures Total(n, CapAt(m, kind)) == Total(n, LiveAt(m)) * PageCap(m.en.cfg, kind)
    ensures Total(n, BudgetAt(m)) == n * Demand(m.en.cfg)
  {
    hide KindCap, PageBudget, Demand, PageCap;
    if n == 0 {
    } else {
      UniformTotals(m, kind, n - 1);
      UniformCap(At(m, n - 1), kind);
      OneMoreTimes(n - 1, Demand(m.en.cfg));
      OneMoreTimes(Total(n - 1, LiveAt(m)), PageCap(m.en.cfg, kind));
    }
  }

  /** With equal multipliers and no negative budget, half the arena is enough: a decoded page takes no slot,
    * so no page stores twice. */
  lemma UniformNeedsHalf(m: Manager)
    requires m.en.Valid() && m.en.cfg.store.mode == Absolute && m.en.cfg.budgetPolicy == Uniform
    requires m.en.cfg.store.absK >= 0 && m.en.cfg.store.absV >= 0
    ensures m.en.cfg.maxPages * m.en.cfg.numKvHeads * BudgetSum(m)
         <= PageSlots(m.en.cfg) * (m.en.cfg.store.absK + m.en.cfg.store.absV)
  {
    hide BudgetAt, PageCap, CapAt;
    var cfg := m.en.cfg;
    UniformTotals(m, KSlot, cfg.numLayers);
    assert cfg.maxPages * cfg.numKvHeads * (cfg.numLayers * Demand(cfg)) == PageSlots(cfg) * Demand(cfg);
    MulLe(Demand(cfg), cfg.store.absK + cfg.store.absV, PageSlots(cfg));
  }

  /** With equal multipliers, budgets of either sign and no ratio estimate: a negative budget is clamped where pages
    * are filled, but subtracts where the arena is sized. So the worst case of a kind is within the arena exactly when
    * 64 slots hold it, or twice the plain sum of the budgets, over all layers, covers what a page can store on
    * the live ones. */
  lemma UniformWorstIff(m: Manager, kind: Kind)
    requires m.en.Valid() && m.en.cfg.store.mode == Absolute && m.en.cfg.budgetPolicy == Uniform
    requires m.en.cfg.store.ratio <= 0.0
    ensures WorstCase(m, kind, m.en.cfg.maxPages)
         == m.en.cfg.maxPages * m.en.cfg.numKvHeads * (LiveLayers(m) * PageCap(m.en.cfg, kind))
    ensures WorstCase(m, kind, m.en.cfg.maxPages) <= ArenaSlots(m.en.cfg) <==>
      WorstCase(m, kind, m.en.cfg.maxPages) <= 64
      || LiveLayers(m) * PageCap(m.en.cfg, kind)
         <= 2 * m.en.cfg.numLayers * (m.en.cfg.store.absK + m.en.cfg.store.absV)
  {
    hide PageCap, CapAt, LiveAt, ArenaSlots;
    UniformTotals(m, kind, m.en.cfg.numLayers);
    ArenaSizeIff(m.en.cfg, LiveLayers(m) * PageCap(m.en.cfg, kind));
  }

  lemma ArenaSizeIff(cfg: CacheConfig, need: nat)
    requires cfg.store.ratio <= 0.0
    ensures var pages := cfg.maxPages * cfg.numKvHeads;
      pages * need <= ArenaSlots(cfg) <==>
      pages * need <= 64 || need <= 2 * cfg.numLayers * (cfg.store.absK + cfg.store.absV)
  {
    var pages, a := cfg.maxPages * cfg.numKvHeads, cfg.store.absK + cfg.store.absV;
    var paid := 2 * cfg.numLayers * a;
    NonPositiveProduct(PageSlots(cfg), cfg.store.ratio);
    assert PageSlots(cfg) * a * 2 == pages * paid;
    if pages > 0 { MulLeIff(need, paid, pages); }
  }

  lemma MulLeIff(a: int, b: int, c: nat)
    requires c > 0
    ensures c * a <= c * b <==> a <= b
  {
    var d := a - b;
    assert c * a == c * b + c * d;
    if d > 0 { MulLe(1, d, c); } else { MulLe(0, -d, c); assert c * d == -(-d * c); }
  }

  lemma NonPositiveProduct(n: nat, r: real)
    requires r <= 0.0
    ensures (n as real * r * 4.0).Floor <= 0
  {
    MulNonNeg(n as real, -r);
    assert n as real * r == -(n as real * -r);
  }
}
