/** Store-time filtering of one page: residual blocks, priors, budgets, and which blocks get a slot. */
module StorePlan {

  import opened Numbers
  import opened Sums
  import opened Config
  import opened ResidualPack
  import opened Selection
  import opened Pages
  import opened Router
  import opened RouterSoundness
  import opened SlotArena
  import opened CacheState

  /** The store manager of one layer, with its environment settings. */
  datatype Manager = Manager(en: Engine, minPerKind: int, kFrac: real, vFrac: real)

  /** One page of original and dequantized rows; `valid` of them are real tokens. */
  datatype PageInput = PageInput(kOrig: seq<Vec>, vOrig: seq<Vec>, kHat: seq<Vec>, vHat: seq<Vec>,
                                 start: int, valid: nat, recent: bool, sink: bool)

  predicate Rect(m: seq<Vec>, n: nat, w: nat) { |m| == n && forall i :: 0 <= i < n ==> |m[i]| == w }

  predicate InputOk(cfg: CacheConfig, x: PageInput)
  {
    && Rect(x.kOrig, cfg.pageSize, cfg.headDim) && Rect(x.kHat, cfg.pageSize, cfg.headDim)
    && Rect(x.vOrig, cfg.pageSize, cfg.headDim) && Rect(x.vHat, cfg.pageSize, cfg.headDim)
    && x.valid <= cfg.pageSize
  }

  // ---- residual blocks ----

  function ZeroRow(n: nat): (r: Vec)
    ensures |r| == n && ZeroVec(r)
  {
    seq(n, _ => 0.0)
  }

  /** Original less dequantized, zeroed beyond the valid rows. */
  function Residual(orig: seq<Vec>, hat: seq<Vec>, valid: nat, n: nat, w: nat): (r: seq<Vec>)
    requires Rect(orig, n, w) && Rect(hat, n, w)
    ensures Rect(r, n, w)
  {
    seq(n, i requires 0 <= i < n => if i < valid then Diff(orig[i], hat[i]) else ZeroRow(w))
  }

  function ResidualOf(cfg: CacheConfig, kind: Kind, x: PageInput): (r: seq<Vec>)
    requires InputOk(cfg, x)
    ensures Rect(r, cfg.pageSize, cfg.headDim)
  {
    if kind == KSlot then Residual(x.kOrig, x.kHat, x.valid, cfg.pageSize, cfg.headDim)
    else Residual(x.vOrig, x.vHat, x.valid, cfg.pageSize, cfg.headDim)
  }

  /** Groups of one page, by kind. */
  function NumGroups(cfg: CacheConfig, kind: Kind): nat
    requires cfg.Valid()
  {
    if kind == KSlot then cfg.NumCg() else cfg.NumVb()
  }

  lemma ChannelGroupFits(cfg: CacheConfig, g: nat)
    requires cfg.Valid() && g < cfg.NumCg()
    ensures g * cfg.kChannelGroup + cfg.kChannelGroup <= cfg.headDim
  {
    BlockBound(g, cfg.NumCg(), cfg.kChannelGroup);
  }

  /** Row `i` of the block of group `g`: a channel slice of the page's row, or a whole row of the token
    * block, zero past the end of the page. */
  function BlockRow(cfg: CacheConfig, kind: Kind, r: seq<Vec>, g: nat, i: nat): (row: Vec)
    requires cfg.Valid() && Rect(r, cfg.pageSize, cfg.headDim)
    requires g < NumGroups(cfg, kind) && i < BlockRows(cfg, kind)
    ensures |row| == BlockWidth(cfg, kind)
  {
    if kind == KSlot then
      ChannelGroupFits(cfg, g);
      r[i][g * cfg.kChannelGroup..g * cfg.kChannelGroup + cfg.kChannelGroup]
    else if g * cfg.vTokenBlock + i < cfg.pageSize then r[g * cfg.vTokenBlock + i]
    else ZeroRow(cfg.headDim)
  }

  function BlockOf(cfg: CacheConfig, kind: Kind, r: seq<Vec>, g: nat): (b: seq<Vec>)
    requires cfg.Valid() && Rect(r, cfg.pageSize, cfg.headDim) && g < NumGroups(cfg, kind)
    ensures BlockOk(cfg, kind, b)
  {
    seq(BlockRows(cfg, kind), i requires 0 <= i < BlockRows(cfg, kind) => BlockRow(cfg, kind, r, g, i))
  }

  lemma ZeroSlice(v: Vec, a: nat, b: nat)
    requires a <= b <= |v| && ZeroVec(v)
    ensures ZeroVec(v[a..b])
  {
  }

  lemma ResidualRow(orig: seq<Vec>, hat: seq<Vec>, valid: nat, n: nat, w: nat, i: nat)
    requires Rect(orig, n, w) && Rect(hat, n, w) && i < n
    ensures i >= valid || orig[i] == hat[i] ==> ZeroVec(Residual(orig, hat, valid, n, w)[i])
    ensures i < valid ==> Residual(orig, hat, valid, n, w)[i] == Diff(orig[i], hat[i])
  {
  }

  /** A block row is zero when its page row is, or when the page has no such row. */
  lemma BlockRowZero(cfg: CacheConfig, kind: Kind, r: seq<Vec>, g: nat, i: nat)
    requires cfg.Valid() && Rect(r, cfg.pageSize, cfg.headDim)
    requires g < NumGroups(cfg, kind) && i < BlockRows(cfg, kind)
    requires var t := BlockStart(cfg, kind, g) + i; t < cfg.pageSize ==> ZeroVec(r[t])
    ensures ZeroVec(BlockRow(cfg, kind, r, g, i))
  {
    hide ZeroVec;
    if kind == KSlot {
      ChannelGroupFits(cfg, g);
      ZeroSlice(r[i], g * cfg.kChannelGroup, g * cfg.kChannelGroup + cfg.kChannelGroup);
    }
  }

  /** Padded rows cannot leak into a block. */
  lemma BlockZeroFrom(cfg: CacheConfig, kind: Kind, x: PageInput, g: nat)
    requires cfg.Valid() && InputOk(cfg, x) && g < NumGroups(cfg, kind)
    ensures ZeroFrom(cfg, kind, g, BlockOf(cfg, kind, ResidualOf(cfg, kind, x), g), x.valid)
  {
    hide ZeroVec, BlockRow, Residual, BlockStart;
    var r := ResidualOf(cfg, kind, x);
    var b := BlockOf(cfg, kind, r, g);
    forall i | 0 <= i < |b| && BlockStart(cfg, kind, g) + i >= x.valid ensures ZeroVec(b[i]) {
      var t := BlockStart(cfg, kind, g) + i;
      if t < cfg.pageSize {
        ResidualRow(if kind == KSlot then x.kOrig else x.vOrig, if kind == KSlot then x.kHat else x.vHat,
                    x.valid, cfg.pageSize, cfg.headDim, t);
      }
      BlockRowZero(cfg, kind, r, g, i);
    }
  }

  // ---- priors ----

  /** Valid rows of a block. */
  function Live(cfg: CacheConfig, kind: Kind, g: nat, valid: nat): nat
  {
    Max(0, BlockEnd(cfg, kind, g, valid) - BlockStart(cfg, kind, g))
  }

  function Norms(ker: Kernels, rows: seq<Vec>): int -> real
  {
    t => if 0 <= t < |rows| then ker.norm(rows[t]) else 0.0
  }

  /** Mean row norm of a group's valid residual rows; 0 when there are none. */
  function GroupError(m: Manager, kind: Kind, x: PageInput, g: nat): real
    requires m.en.Valid() && InputOk(m.en.cfg, x) && g < NumGroups(m.en.cfg, kind)
  {
    Mean(Live(m.en.cfg, kind, g, x.valid), Norms(m.en.ker, BlockOf(m.en.cfg, kind, ResidualOf(m.en.cfg, kind, x), g)))
  }

  /** The projected mean residual of a channel group. */
  function Sketch(m: Manager, x: PageInput, g: nat): Vec
    requires m.en.Valid() && InputOk(m.en.cfg, x) && g < m.en.cfg.NumCg()
  {
    var rows := BlockOf(m.en.cfg, KSlot, ResidualOf(m.en.cfg, KSlot, x), g);
    seq(if m.en.ker.proj == [] then 0 else |m.en.ker.proj[0]|, j =>
      Sum(0, m.en.cfg.kChannelGroup, c => Mean(x.valid, Column(rows, c)) * At2(m.en.ker.proj, c, j)))
  }

  function StructPrior(x: PageInput): real { (if x.recent then 1.5 else 1.0) * (if x.sink then 2.0 else 1.0) }

  function Prior(m: Manager, kind: Kind, x: PageInput, g: nat): real
    requires m.en.Valid() && InputOk(m.en.cfg, x) && g < NumGroups(m.en.cfg, kind)
  {
    GroupError(m, kind, x, g) * m.en.Sens() * StructPrior(x)
  }

  function Offers(m: Manager, kind: Kind, x: PageInput, p: nat): (c: seq<Candidate>)
    requires m.en.Valid() && InputOk(m.en.cfg, x)
    ensures |c| == NumGroups(m.en.cfg, kind)
  {
    seq(NumGroups(m.en.cfg, kind), g requires 0 <= g < NumGroups(m.en.cfg, kind) =>
      Candidate(kind, Prior(m, kind, x, g), p, g, -1))
  }

  function Positive(s: seq<Candidate>): (r: seq<Candidate>)
    ensures |r| <= |s|
  {
    if s == [] then []
    else
      var init := Positive(s[..|s| - 1]);
      if s[|s| - 1].score > 0.0 then init + [s[|s| - 1]] else init
  }

  // ---- budgets ----

  /** The kind-aware policy skips a kind that will not be read. */
  predicate Stores(cfg: CacheConfig, kind: Kind)
  {
    cfg.storePolicy == KindAware ==> if kind == KSlot then cfg.wanted.K() else cfg.wanted.V()
  }

  function RatioOf(m: Manager, kind: Kind): real
    requires m.en.Valid()
  {
    var b := m.en.cfg.store;
    (if kind == KSlot then ResolvedRatio(b.ratioK, b.ratio) * m.kFrac else ResolvedRatio(b.ratioV, b.ratio) * m.vFrac)
    * m.en.Lm()
  }

  function AbsoluteOf(m: Manager, kind: Kind): nat
    requires m.en.Valid()
  {
    Max(0, LayerBudget(if kind == KSlot then m.en.cfg.store.absK else m.en.cfg.store.absV, m.en.Lm()))
  }

  /** How many blocks of one kind a page may store. */
  function StoreBudget(m: Manager, kind: Kind): nat
    requires m.en.Valid()
  {
    if !Stores(m.en.cfg, kind) then 0
    else if m.en.cfg.store.mode == Absolute then AbsoluteOf(m, kind)
    else if RatioOf(m, kind) > 0.0 then
      Max(0, Max(m.minPerKind, (Max(1, NumGroups(m.en.cfg, kind)) as real * RatioOf(m, kind)).Floor))
    else 0
  }

  /** The shared budget of the joint policy. */
  function JointBudget(m: Manager): nat
    requires m.en.Valid()
  {
    var cfg := m.en.cfg;
    if cfg.store.mode == Absolute then StoreBudget(m, KSlot) + StoreBudget(m, VSlot)
    else Max(1, ((Max(1, cfg.NumCg()) + Max(1, cfg.NumVb())) as real * cfg.store.ratio * m.en.Lm()).Floor)
  }

  predicate NonPositive(r: Option<real>) { r.None? || r.value <= 0.0 }

  predicate StoresNothing(b: Budget)
  {
    b.ratio <= 0.0 && b.mode != Absolute && NonPositive(b.ratioK) && NonPositive(b.ratioV)
  }

  function Scored(m: Manager, kind: Kind, x: PageInput, p: nat): seq<Candidate>
    requires m.en.Valid() && InputOk(m.en.cfg, x)
  {
    SortDesc(Positive(Offers(m, kind, x, p)))
  }

  /** The blocks to store, in the order slots are handed out. */
  function Selected(m: Manager, x: PageInput, p: nat): seq<Candidate>
    requires m.en.Valid() && InputOk(m.en.cfg, x)
  {
    var ks, vs := Scored(m, KSlot, x, p), Scored(m, VSlot, x, p);
    if StoresNothing(m.en.cfg.store) then []
    else if m.en.cfg.storePolicy == StoreJoint then Take(SortDesc(ks + vs), JointBudget(m))
    else Take(ks, StoreBudget(m, KSlot)) + Take(vs, StoreBudget(m, VSlot))
  }

  /** The blocks of one kind to store. */
  function SelectedOf(m: Manager, kind: Kind, x: PageInput, p: nat): seq<Candidate>
    requires m.en.Valid() && InputOk(m.en.cfg, x)
  {
    OfKind(Selected(m, x, p), kind)
  }

  // ---- what gets selected ----

  lemma {:induction false} PositiveMembers(s: seq<Candidate>, c: Candidate)
    ensures c in Positive(s) <==> c in s && c.score > 0.0
  {
    if s == [] {
    } else {
      PositiveMembers(s[..|s| - 1], c);
      assert s == s[..|s| - 1] + [s[|s| - 1]];
    }
  }

  lemma {:induction false} PositiveNoDup(s: seq<Candidate>)
    requires NoDup(s)
    ensures NoDup(Positive(s))
  {
    if s == [] {
    } else {
      PositiveNoDup(s[..|s| - 1]);
      PositiveMembers(s[..|s| - 1], s[|s| - 1]);
    }
  }

  /** A candidate that stands for one of the page's groups. */
  ghost predicate Offer(m: Manager, kind: Kind, x: PageInput, p: nat, c: Candidate)
    requires m.en.Valid() && InputOk(m.en.cfg, x)
  {
    && c.kind == kind && c.group < NumGroups(m.en.cfg, kind)
    && c == Candidate(kind, Prior(m, kind, x, c.group), p, c.group, -1)
    && c.score > 0.0
  }

  ghost predicate AllOffers(m: Manager, kind: Kind, x: PageInput, p: nat, s: seq<Candidate>)
    requires m.en.Valid() && InputOk(m.en.cfg, x)
  {
    NoDup(s) && forall i :: 0 <= i < |s| ==> Offer(m, kind, x, p, s[i])
  }

  lemma ScoredOffers(m: Manager, kind: Kind, x: PageInput, p: nat)
    requires m.en.Valid() && InputOk(m.en.cfg, x)
    ensures AllOffers(m, kind, x, p, Scored(m, kind, x, p))
  {
    hide Prior;
    var offers := Offers(m, kind, x, p);
    PositiveNoDup(offers);
    SortNoDup(Positive(offers));
    var s := Scored(m, kind, x, p);
    forall i | 0 <= i < |s| ensures Offer(m, kind, x, p, s[i]) {
      SortMembers(Positive(offers), s[i]);
      PositiveMembers(offers, s[i]);
    }
  }

  lemma PrefixOffers(m: Manager, kind: Kind, x: PageInput, p: nat, s: seq<Candidate>, t: seq<Candidate>)
    requires m.en.Valid() && InputOk(m.en.cfg, x) && AllOffers(m, kind, x, p, s) && t <= s
    ensures AllOffers(m, kind, x, p, t)
  {
    hide Offer;
  }

  lemma OffersKind(m: Manager, kind: Kind, x: PageInput, p: nat, s: seq<Candidate>)
    requires m.en.Valid() && InputOk(m.en.cfg, x) && AllOffers(m, kind, x, p, s)
    ensures forall i :: 0 <= i < |s| ==> s[i].kind == kind
  {
    hide Prior;
  }

  lemma TakePrefix<T>(s: seq<T>, n: nat)
    ensures Take(s, n) <= s && |Take(s, n)| <= n
  {
  }

  /** Whatever the policy, the stored blocks of a kind are distinct groups of the page with a positive
    * prior, in descending order of prior, and their ranking is a prefix of that kind's ranking. */
  lemma SelectedPrefix(m: Manager, kind: Kind, x: PageInput, p: nat)
    requires m.en.Valid() && InputOk(m.en.cfg, x)
    ensures SelectedOf(m, kind, x, p) <= Scored(m, kind, x, p)
    ensures AllOffers(m, kind, x, p, SelectedOf(m, kind, x, p))
  {
    hide Scored, AllOffers, JointBudget, StoreBudget, SortDesc, Take;
    var ks, vs := Scored(m, KSlot, x, p), Scored(m, VSlot, x, p);
    ScoredOffers(m, KSlot, x, p);
    ScoredOffers(m, VSlot, x, p);
    OffersKind(m, KSlot, x, p, ks);
    OffersKind(m, VSlot, x, p, vs);
    if StoresNothing(m.en.cfg.store) {
    } else if m.en.cfg.storePolicy == StoreJoint {
      OfKindPrefix(SortDesc(ks + vs), JointBudget(m), kind);
      OfKindSort(ks + vs, kind);
      KindsOfConcat(ks, vs);
      ScoredSorted(m, kind, x, p);
    } else {
      var tk, tv := Take(ks, StoreBudget(m, KSlot)), Take(vs, StoreBudget(m, VSlot));
      TakePrefix(ks, StoreBudget(m, KSlot));
      TakePrefix(vs, StoreBudget(m, VSlot));
      KindsOfConcat(tk, tv);
    }
    PrefixOffers(m, kind, x, p, Scored(m, kind, x, p), SelectedOf(m, kind, x, p));
  }

  lemma ScoredSorted(m: Manager, kind: Kind, x: PageInput, p: nat)
    requires m.en.Valid() && InputOk(m.en.cfg, x)
    ensures SortDesc(Scored(m, kind, x, p)) == Scored(m, kind, x, p)
  {
    SortSorted(Positive(Offers(m, kind, x, p)));
    SortOfSorted(Scored(m, kind, x, p));
  }

  /** In absolute mode, whatever the policy, a page stores at most its two budgets' worth of blocks; and
    * off the joint policy no kind exceeds its own budget. */
  lemma SelectedWithinBudget(m: Manager, x: PageInput, p: nat)
    requires m.en.Valid() && InputOk(m.en.cfg, x) && m.en.cfg.store.mode == Absolute
    ensures |SelectedOf(m, KSlot, x, p)| + |SelectedOf(m, VSlot, x, p)| <= StoreBudget(m, KSlot) + StoreBudget(m, VSlot)
    ensures m.en.cfg.storePolicy != StoreJoint ==>
      forall kind :: |SelectedOf(m, kind, x, p)| <= StoreBudget(m, kind)
  {
    hide Scored, StoreBudget, SortDesc, Take, AllOffers;
    KindSizes(Selected(m, x, p));
    var ks, vs := Scored(m, KSlot, x, p), Scored(m, VSlot, x, p);
    TakePrefix(SortDesc(ks + vs), JointBudget(m));
    var tk, tv := Take(ks, StoreBudget(m, KSlot)), Take(vs, StoreBudget(m, VSlot));
    TakePrefix(ks, StoreBudget(m, KSlot));
    TakePrefix(vs, StoreBudget(m, VSlot));
    ScoredOffers(m, KSlot, x, p);
    ScoredOffers(m, VSlot, x, p);
    OffersKind(m, KSlot, x, p, ks);
    OffersKind(m, VSlot, x, p, vs);
    KindsOfConcat(tk, tv);
  }

  /** Per-kind policies store the groups with the largest priors: a top-k of the positive ones. */
  lemma StoredAreTop(m: Manager, kind: Kind, x: PageInput, p: nat)
    requires m.en.Valid() && InputOk(m.en.cfg, x) && !StoresNothing(m.en.cfg.store)
    requires m.en.cfg.storePolicy != StoreJoint
    ensures var s := Positive(Offers(m, kind, x, p));
      IsTopK(Scores(s), Min(StoreBudget(m, kind), |s|), Picks(s, SelectedOf(m, kind, x, p)))
  {
    hide StoreBudget, AllOffers, Prior;
    var ks, vs := Scored(m, KSlot, x, p), Scored(m, VSlot, x, p);
    ScoredOffers(m, KSlot, x, p);
    ScoredOffers(m, VSlot, x, p);
    OffersKind(m, KSlot, x, p, ks);
    OffersKind(m, VSlot, x, p, vs);
    KindsOfConcat(Take(ks, StoreBudget(m, KSlot)), Take(vs, StoreBudget(m, VSlot)));
    PositiveNoDup(Offers(m, kind, x, p));
    TakeIsTopK(Positive(Offers(m, kind, x, p)), StoreBudget(m, kind));
  }

  // ---- a page that equals its dequantized form ----

  /** The Euclidean norm of a zero vector is 0. */
  ghost predicate NormOk(ker: Kernels) { forall v :: ZeroVec(v) ==> ker.norm(v) == 0.0 }

  /** The page equals its dequantized form, as far as one kind goes. */
  predicate Exactly(kind: Kind, x: PageInput) { if kind == KSlot then x.kOrig == x.kHat else x.vOrig == x.vHat }

  lemma ZeroBlock(cfg: CacheConfig, kind: Kind, x: PageInput, g: nat)
    requires cfg.Valid() && InputOk(cfg, x) && g < NumGroups(cfg, kind) && Exactly(kind, x)
    ensures var b := BlockOf(cfg, kind, ResidualOf(cfg, kind, x), g); forall i :: 0 <= i < |b| ==> ZeroVec(b[i])
  {
    hide ZeroVec, BlockRow, Residual, BlockStart;
    var r := ResidualOf(cfg, kind, x);
    forall i | 0 <= i < BlockRows(cfg, kind) ensures ZeroVec(BlockRow(cfg, kind, r, g, i)) {
      var t := BlockStart(cfg, kind, g) + i;
      if t < cfg.pageSize {
        ResidualRow(if kind == KSlot then x.kOrig else x.vOrig, if kind == KSlot then x.kHat else x.vHat,
                    x.valid, cfg.pageSize, cfg.headDim, t);
      }
      BlockRowZero(cfg, kind, r, g, i);
    }
  }

  lemma ZeroPrior(m: Manager, kind: Kind, x: PageInput, g: nat)
    requires m.en.Valid() && InputOk(m.en.cfg, x) && g < NumGroups(m.en.cfg, kind) && NormOk(m.en.ker)
    requires Exactly(kind, x)
    ensures Prior(m, kind, x, g) == 0.0
  {
    hide NormOk, ResidualOf, BlockOf;
    var b := BlockOf(m.en.cfg, kind, ResidualOf(m.en.cfg, kind, x), g);
    ZeroBlock(m.en.cfg, kind, x, g);
    forall t ensures Norms(m.en.ker, b)(t) == 0.0 {
      if 0 <= t < |b| { ZeroNorm(m.en.ker, b[t]); }
    }
    SumZero(0, Live(m.en.cfg, kind, g, x.valid), Norms(m.en.ker, b));
  }

  lemma ZeroNorm(ker: Kernels, v: Vec)
    requires NormOk(ker) && ZeroVec(v)
    ensures ker.norm(v) == 0.0
  {
  }

  /** Without a positive prior nothing is ranked. */
  lemma NothingScored(m: Manager, kind: Kind, x: PageInput, p: nat)
    requires m.en.Valid() && InputOk(m.en.cfg, x)
    requires forall g: nat :: g < NumGroups(m.en.cfg, kind) ==> Prior(m, kind, x, g) == 0.0
    ensures Scored(m, kind, x, p) == []
  {
    hide Prior;
    var offers := Offers(m, kind, x, p);
    if Positive(offers) != [] {
      PositiveMembers(offers, Positive(offers)[0]);
      assert false;
    }
  }

  lemma ExactlyScored(m: Manager, kind: Kind, x: PageInput, p: nat)
    requires m.en.Valid() && InputOk(m.en.cfg, x) && NormOk(m.en.ker) && Exactly(kind, x)
    ensures Scored(m, kind, x, p) == []
  {
    hide NormOk, Prior, Scored;
    forall g: nat | g < NumGroups(m.en.cfg, kind) ensures Prior(m, kind, x, g) == 0.0 { ZeroPrior(m, kind, x, g); }
    NothingScored(m, kind, x, p);
  }

  /** A page processed against its own dequantized rows stores no slot, whatever policy and budget. */
  lemma ReprocessingStoresNothing(m: Manager, x: PageInput, p: nat)
    requires m.en.Valid() && InputOk(m.en.cfg, x) && NormOk(m.en.ker)
    requires x.kOrig == x.kHat && x.vOrig == x.vHat
    ensures SelectedOf(m, KSlot, x, p) == [] && SelectedOf(m, VSlot, x, p) == []
  {
    hide NormOk, Prior, Scored;
    ExactlyScored(m, KSlot, x, p);
    ExactlyScored(m, VSlot, x, p);
    SelectedPrefix(m, KSlot, x, p);
    SelectedPrefix(m, VSlot, x, p);
  }
}
