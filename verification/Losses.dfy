/** What quantization loses of a page, group by group, and that this is what the store manager ranks. */
module Losses {

  import opened Numbers
  import opened Sums
  import opened Config
  import opened ResidualPack
  import opened Selection
  import opened Pages
  import opened Router
  import opened SlotArena
  import opened StorePlan

  /** The Euclidean norm is non-negative, and zero on zero vectors only. */
  ghost predicate Definite(ker: Kernels)
  {
    forall v: Vec :: ker.norm(v) >= 0.0 && (ker.norm(v) == 0.0 <==> ZeroVec(v))
  }

  lemma NonZeroNorm(ker: Kernels, v: Vec)
    requires Definite(ker) && !ZeroVec(v)
    ensures ker.norm(v) > 0.0
  {
  }

  lemma NonNegativeNorm(ker: Kernels, v: Vec)
    requires Definite(ker)
    ensures ker.norm(v) >= 0.0
  {
  }

  lemma DefiniteOk(ker: Kernels)
    requires Definite(ker)
    ensures NormOk(ker)
  {
  }

  function Orig(kind: Kind, x: PageInput): seq<Vec> { if kind == KSlot then x.kOrig else x.vOrig }

  function HatOf(kind: Kind, x: PageInput): seq<Vec> { if kind == KSlot then x.kHat else x.vHat }

  /** The entries of a row that belong to a group: one channel group of a key, all of a value. */
  function Slice(cfg: CacheConfig, kind: Kind, g: nat, row: Vec): (part: Vec)
    requires cfg.Valid() && g < NumGroups(cfg, kind) && |row| == cfg.headDim
    ensures |part| == BlockWidth(cfg, kind)
  {
    if kind == KSlot then
      ChannelGroupFits(cfg, g);
      row[g * cfg.kChannelGroup..g * cfg.kChannelGroup + cfg.kChannelGroup]
    else row
  }

  /** What dequantizing lost of row `i` of a group. */
  function Lost(cfg: CacheConfig, kind: Kind, g: nat, x: PageInput, i: nat): (row: Vec)
    requires cfg.Valid() && InputOk(cfg, x) && g < NumGroups(cfg, kind) && i < Live(cfg, kind, g, x.valid)
    ensures |row| == BlockWidth(cfg, kind)
  {
    var t := BlockStart(cfg, kind, g) + i;
    Diff(Slice(cfg, kind, g, Orig(kind, x)[t]), Slice(cfg, kind, g, HatOf(kind, x)[t]))
  }

  /** The norms of what was lost, added up over the first `n` live rows. */
  function LostNorms(ker: Kernels, cfg: CacheConfig, kind: Kind, g: nat, x: PageInput, n: nat): real
    requires cfg.Valid() && InputOk(cfg, x) && g < NumGroups(cfg, kind) && n <= Live(cfg, kind, g, x.valid)
  {
    if n == 0 then 0.0
    else LostNorms(ker, cfg, kind, g, x, n - 1) + ker.norm(Lost(cfg, kind, g, x, n - 1))
  }

  lemma SliceDiff(cfg: CacheConfig, kind: Kind, g: nat, a: Vec, b: Vec)
    requires cfg.Valid() && g < NumGroups(cfg, kind) && |a| == |b| == cfg.headDim
    ensures Slice(cfg, kind, g, Diff(a, b)) == Diff(Slice(cfg, kind, g, a), Slice(cfg, kind, g, b))
  {
    hide CacheConfig.NumCg, CacheConfig.NumVb;
    if kind == KSlot { ChannelGroupFits(cfg, g); }
  }

  lemma BlockIsSlice(cfg: CacheConfig, kind: Kind, g: nat, r: seq<Vec>, valid: nat, i: nat)
    requires cfg.Valid() && Rect(r, cfg.pageSize, cfg.headDim) && valid <= cfg.pageSize
    requires g < NumGroups(cfg, kind) && i < Live(cfg, kind, g, valid)
    ensures i < BlockRows(cfg, kind)
    ensures BlockOf(cfg, kind, r, g)[i] == Slice(cfg, kind, g, r[BlockStart(cfg, kind, g) + i])
  {
    hide CacheConfig.NumCg, CacheConfig.NumVb;
  }

  lemma BlockIsLost(cfg: CacheConfig, kind: Kind, g: nat, x: PageInput, i: nat)
    requires cfg.Valid() && InputOk(cfg, x) && g < NumGroups(cfg, kind) && i < Live(cfg, kind, g, x.valid)
    ensures i < BlockRows(cfg, kind) && BlockOf(cfg, kind, ResidualOf(cfg, kind, x), g)[i] == Lost(cfg, kind, g, x, i)
  {
    hide NumGroups, Residual, Slice, BlockOf;
    var t := BlockStart(cfg, kind, g) + i;
    BlockIsSlice(cfg, kind, g, ResidualOf(cfg, kind, x), x.valid, i);
    ResidualRow(Orig(kind, x), HatOf(kind, x), x.valid, cfg.pageSize, cfg.headDim, t);
    SliceDiff(cfg, kind, g, Orig(kind, x)[t], HatOf(kind, x)[t]);
  }

  lemma {:induction false} NormsAreLost(m: Manager, kind: Kind, x: PageInput, g: nat, n: nat)
    requires m.en.Valid() && InputOk(m.en.cfg, x) && g < NumGroups(m.en.cfg, kind)
    requires n <= Live(m.en.cfg, kind, g, x.valid)
    ensures Sum(0, n, Norms(m.en.ker, BlockOf(m.en.cfg, kind, ResidualOf(m.en.cfg, kind, x), g)))
         == LostNorms(m.en.ker, m.en.cfg, kind, g, x, n)
  {
    hide BlockOf, ResidualOf, Lost, Live, NumGroups;
    if n == 0 {
    } else {
      NormsAreLost(m, kind, x, g, n - 1);
      BlockIsLost(m.en.cfg, kind, g, x, n - 1);
    }
  }

  /** The recorded error of a group, times its live rows, is the sum over those rows of the norm of that part of the
    * original less the dequantized row. */
  lemma ErrorIsLost(m: Manager, kind: Kind, x: PageInput, g: nat)
    requires m.en.Valid() && InputOk(m.en.cfg, x) && g < NumGroups(m.en.cfg, kind)
    ensures var n := Live(m.en.cfg, kind, g, x.valid);
      GroupError(m, kind, x, g) * n as real == LostNorms(m.en.ker, m.en.cfg, kind, g, x, n)
  {
    hide BlockOf, ResidualOf, Lost, Live, NumGroups, Norms;
    NormsAreLost(m, kind, x, g, Live(m.en.cfg, kind, g, x.valid));
  }

  lemma {:induction false} LostNormsGrow(ker: Kernels, cfg: CacheConfig, kind: Kind, g: nat, x: PageInput, y: PageInput,
                                         n: nat)
    requires cfg.Valid() && InputOk(cfg, x) && InputOk(cfg, y) && g < NumGroups(cfg, kind) && x.valid == y.valid
    requires n <= Live(cfg, kind, g, x.valid)
    requires forall i: nat :: i < n ==> ker.norm(Lost(cfg, kind, g, x, i)) <= ker.norm(Lost(cfg, kind, g, y, i))
    ensures LostNorms(ker, cfg, kind, g, x, n) <= LostNorms(ker, cfg, kind, g, y, n)
    ensures (exists i: nat :: i < n && ker.norm(Lost(cfg, kind, g, x, i)) < ker.norm(Lost(cfg, kind, g, y, i))) ==>
      LostNorms(ker, cfg, kind, g, x, n) < LostNorms(ker, cfg, kind, g, y, n)
  {
    hide Lost, NumGroups, Live;
    if n == 0 {
    } else {
      LostNormsGrow(ker, cfg, kind, g, x, y, n - 1);
    }
  }

  /** A page that loses at least as much on every live row of a group, and more on one, gives the group a higher
    * prior. */
  lemma PriorGrows(m: Manager, kind: Kind, x: PageInput, y: PageInput, g: nat, i: nat)
    requires m.en.Valid() && InputOk(m.en.cfg, x) && InputOk(m.en.cfg, y) && g < NumGroups(m.en.cfg, kind)
    requires x.valid == y.valid && x.recent == y.recent && x.sink == y.sink && m.en.Sens() > 0.0
    requires i < Live(m.en.cfg, kind, g, x.valid)
    requires forall j: nat :: j < Live(m.en.cfg, kind, g, x.valid) ==>
      m.en.ker.norm(Lost(m.en.cfg, kind, g, x, j)) <= m.en.ker.norm(Lost(m.en.cfg, kind, g, y, j))
    requires m.en.ker.norm(Lost(m.en.cfg, kind, g, x, i)) < m.en.ker.norm(Lost(m.en.cfg, kind, g, y, i))
    ensures GroupError(m, kind, x, g) < GroupError(m, kind, y, g) && Prior(m, kind, x, g) < Prior(m, kind, y, g)
  {
    hide GroupError, Lost, Live, NumGroups;
    var n := Live(m.en.cfg, kind, g, x.valid);
    ErrorIsLost(m, kind, x, g);
    ErrorIsLost(m, kind, y, g);
    LostNormsGrow(m.en.ker, m.en.cfg, kind, g, x, y, n);
    var a, b := GroupError(m, kind, x, g), GroupError(m, kind, y, g);
    ScaleIff(b, a, n as real);
    ScaleIff(b, a, m.en.Sens());
    ScaleIff(b * m.en.Sens(), a * m.en.Sens(), StructPrior(x));
  }

  lemma {:induction false} LostNormsZero(ker: Kernels, cfg: CacheConfig, kind: Kind, g: nat, x: PageInput, n: nat)
    requires cfg.Valid() && InputOk(cfg, x) && g < NumGroups(cfg, kind) && Definite(ker)
    requires n <= Live(cfg, kind, g, x.valid)
    ensures LostNorms(ker, cfg, kind, g, x, n) >= 0.0
    ensures LostNorms(ker, cfg, kind, g, x, n) == 0.0 <==> forall i: nat :: i < n ==> ZeroVec(Lost(cfg, kind, g, x, i))
  {
    hide Lost, Definite, NumGroups, Live, ZeroVec;
    if n == 0 {
    } else {
      LostNormsZero(ker, cfg, kind, g, x, n - 1);
      var last := Lost(cfg, kind, g, x, n - 1);
      NonNegativeNorm(ker, last);
      if ZeroVec(last) { DefiniteOk(ker); ZeroNorm(ker, last); } else { NonZeroNorm(ker, last); }
    }
  }

  /** Nothing was lost of row `i` of a group: its entries equal their dequantized form. */
  predicate RowExact(cfg: CacheConfig, kind: Kind, g: nat, x: PageInput, i: nat)
    requires cfg.Valid() && InputOk(cfg, x) && g < NumGroups(cfg, kind) && i < Live(cfg, kind, g, x.valid)
  {
    var t := BlockStart(cfg, kind, g) + i;
    Slice(cfg, kind, g, Orig(kind, x)[t]) == Slice(cfg, kind, g, HatOf(kind, x)[t])
  }

  /** Nor of any live row. */
  predicate Lossless(cfg: CacheConfig, kind: Kind, g: nat, x: PageInput)
    requires cfg.Valid() && InputOk(cfg, x) && g < NumGroups(cfg, kind)
  {
    forall i: nat :: i < Live(cfg, kind, g, x.valid) ==> RowExact(cfg, kind, g, x, i)
  }

  lemma ZeroDiff(a: Vec, b: Vec)
    requires |a| == |b|
    ensures ZeroVec(Diff(a, b)) <==> a == b
  {
    if ZeroVec(Diff(a, b)) {
      forall c | 0 <= c < |a| ensures a[c] == b[c] { assert Diff(a, b)[c] == 0.0; }
    }
  }

  lemma LostZeroIff(cfg: CacheConfig, kind: Kind, g: nat, x: PageInput, i: nat)
    requires cfg.Valid() && InputOk(cfg, x) && g < NumGroups(cfg, kind) && i < Live(cfg, kind, g, x.valid)
    ensures ZeroVec(Lost(cfg, kind, g, x, i)) <==> RowExact(cfg, kind, g, x, i)
  {
    hide Slice, NumGroups, ZeroVec;
    var t := BlockStart(cfg, kind, g) + i;
    ZeroDiff(Slice(cfg, kind, g, Orig(kind, x)[t]), Slice(cfg, kind, g, HatOf(kind, x)[t]));
  }

  lemma ErrorZeroIff(m: Manager, kind: Kind, x: PageInput, g: nat)
    requires m.en.Valid() && InputOk(m.en.cfg, x) && g < NumGroups(m.en.cfg, kind) && Definite(m.en.ker)
    ensures GroupError(m, kind, x, g) >= 0.0
    ensures GroupError(m, kind, x, g) == 0.0 <==> Lossless(m.en.cfg, kind, g, x)
  {
    hide Definite, NumGroups, GroupError, Lost, LostNorms, RowExact, ZeroVec, Live;
    var cfg, n := m.en.cfg, Live(m.en.cfg, kind, g, x.valid);
    ErrorIsLost(m, kind, x, g);
    LostNormsZero(m.en.ker, cfg, kind, g, x, n);
    forall i: nat | i < n ensures ZeroVec(Lost(cfg, kind, g, x, i)) <==> RowExact(cfg, kind, g, x, i) {
      LostZeroIff(cfg, kind, g, x, i);
    }
    if n > 0 {
      ErrorSign(GroupError(m, kind, x, g), n as real, LostNorms(m.en.ker, cfg, kind, g, x, n));
    } else {
      NoLiveRows(m, kind, x, g);
    }
  }

  lemma NoLiveRows(m: Manager, kind: Kind, x: PageInput, g: nat)
    requires m.en.Valid() && InputOk(m.en.cfg, x) && g < NumGroups(m.en.cfg, kind)
    requires Live(m.en.cfg, kind, g, x.valid) == 0
    ensures GroupError(m, kind, x, g) == 0.0 && Lossless(m.en.cfg, kind, g, x)
  {
  }

  lemma ErrorSign(e: real, n: real, sum: real)
    requires n > 0.0 && e * n == sum && sum >= 0.0
    ensures e >= 0.0 && (e == 0.0 <==> sum == 0.0)
  {
    ScaleIff(0.0, e, n);
    if e > 0.0 { MulPositive(e, n); }
  }

  /** With a positive sensitivity a group is a candidate for a slot if and only if something was lost on one of its
    * live rows. */
  lemma CandidateIff(m: Manager, kind: Kind, x: PageInput, p: nat, g: nat)
    requires m.en.Valid() && InputOk(m.en.cfg, x) && g < NumGroups(m.en.cfg, kind) && Definite(m.en.ker)
    requires m.en.Sens() > 0.0
    ensures Offers(m, kind, x, p)[g] in Scored(m, kind, x, p) <==> !Lossless(m.en.cfg, kind, g, x)
  {
    hide Definite, GroupError, Lossless, SortDesc, Positive, NumGroups;
    ErrorZeroIff(m, kind, x, g);
    var offers := Offers(m, kind, x, p);
    PositiveMembers(offers, offers[g]);
    SortMembers(Positive(offers), offers[g]);
    if GroupError(m, kind, x, g) > 0.0 {
      MulPositive(GroupError(m, kind, x, g), m.en.Sens());
      MulPositive(GroupError(m, kind, x, g) * m.en.Sens(), StructPrior(x));
    }
  }

  // ---- sink and recent pages ----

  /** Rank of a page by its place: sink pages before others, and among equals the recent ones first. */
  function PlaceRank(x: PageInput): int { (if x.sink then 2 else 0) + (if x.recent then 1 else 0) }

  /** Of two groups with the same error, the one on the page of higher rank has the higher prior. */
  lemma PlaceDecides(m: Manager, kind: Kind, x: PageInput, g: nat, y: PageInput, g': nat)
    requires m.en.Valid() && InputOk(m.en.cfg, x) && InputOk(m.en.cfg, y) && m.en.Sens() > 0.0
    requires g < NumGroups(m.en.cfg, kind) && g' < NumGroups(m.en.cfg, kind)
    requires GroupError(m, kind, x, g) == GroupError(m, kind, y, g') && GroupError(m, kind, x, g) > 0.0
    ensures PlaceRank(x) < PlaceRank(y) <==> Prior(m, kind, x, g) < Prior(m, kind, y, g')
  {
    hide GroupError, NumGroups;
    var base := GroupError(m, kind, x, g) * m.en.Sens();
    MulPositive(GroupError(m, kind, x, g), m.en.Sens());
    SameFactor(base, GroupError(m, kind, x, g), GroupError(m, kind, y, g'), m.en.Sens());
    ScaleIff(StructPrior(y), StructPrior(x), base);
  }

  lemma SameFactor(base: real, a: real, b: real, s: real)
    requires a == b && base == a * s
    ensures base == b * s
  {
  }
}
