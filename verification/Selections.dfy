/** The slots the router chooses against those the batched path may: when one is an answer of the other's. */
module Selections {

  import opened Numbers
  import opened Sums
  import opened Config
  import opened Selection
  import opened Pages
  import opened Router
  import opened RouterSoundness
  import opened Correction
  import opened SlotLoop
  import opened Batched
  import opened Choices

  /** K and V slots compete for one merged budget. */
  predicate Competing(cfg: CacheConfig, wanted: Wanted, nk: nat, nv: nat)
  {
    cfg.routePolicy == Joint && wanted == Both && nk > 0 && nv > 0
  }

  /** Settings under which both paths score slots by the same formula, a positive factor aside. */
  predicate Comparable(en: Engine)
    requires en.Valid()
  {
    en.cfg.baseline == CareKv && en.Sens() > 0.0
  }

  /** Policies that the batched path implements. */
  predicate Plain(policy: RoutePolicy) { policy in {Joint, Separate} }

  /** Candidates in one-to-one correspondence with stored slots. */
  ghost predicate Aligned(cands: seq<Candidate>, es: seq<Entry>, k: Kind)
  {
    |cands| == |es| && forall i :: 0 <= i < |es| ==>
      cands[i].kind == k && cands[i].page == es[i].page && cands[i].group == es[i].group && cands[i].slot == es[i].slot
  }

  lemma ChosenArePicks(cands: seq<Candidate>, es: seq<Entry>, k: Kind, chosen: seq<Candidate>)
    requires Aligned(cands, es, k) && DistinctEntries(es) && forall c :: c in chosen ==> c in cands
    ensures Chosen(es, Refs(chosen)) == Picks(cands, chosen)
  {
    forall i | 0 <= i < |es| ensures RefOf(es[i]) in Refs(chosen) <==> cands[i] in chosen {
      if RefOf(es[i]) in Refs(chosen) {
        var n :| 0 <= n < |chosen| && Refs(chosen)[n] == RefOf(es[i]);
        assert chosen[n] in cands;
        var j :| 0 <= j < |cands| && cands[j] == chosen[n];
        assert i == j;
      }
      if cands[i] in chosen {
        var n :| 0 <= n < |chosen| && chosen[n] == cands[i];
        assert Refs(chosen)[n] == RefOf(es[i]);
      }
    }
  }

  lemma AlignedNoDup(cands: seq<Candidate>, es: seq<Entry>, k: Kind)
    requires Aligned(cands, es, k) && DistinctEntries(es)
    ensures NoDup(cands)
  {
  }

  lemma TakenMembers(s: seq<Candidate>, k: nat)
    ensures forall c :: c in Take(SortDesc(s), k) ==> c in s
  {
    forall c | c in Take(SortDesc(s), k) ensures c in s { SortMembers(s, c); }
  }

  /** One kind on its own: however both sides scale the scores, the router's pick is a top-k of the batched ones. */
  lemma OneKindLegal(raw: seq<Candidate>, rank: seq<Candidate>, vec: Vec, f: real, g: real, es: seq<Entry>, kind: Kind,
                     k: nat)
    requires DistinctEntries(es) && Aligned(rank, es, kind) && |raw| == |rank| == |vec| && f > 0.0 && g > 0.0
    requires forall i :: 0 <= i < |raw| ==> rank[i].score == raw[i].score * f && vec[i] == raw[i].score * g
    ensures IsTopK(vec, Min(k, |vec|), Chosen(es, Refs(Take(SortDesc(rank), k))))
  {
    hide IsTopK, SortDesc;
    var chosen := Take(SortDesc(rank), k);
    TakenMembers(rank, k);
    ChosenArePicks(rank, es, kind, chosen);
    AlignedNoDup(rank, es, kind);
    TakeIsTopK(rank, k);
    ScaledTopK(Scores(raw), Scores(rank), f, Min(k, |raw|), Picks(rank, chosen));
    ScaledTopK(Scores(raw), vec, g, Min(k, |raw|), Picks(rank, chosen));
  }

  lemma RankFactor(s: seq<Candidate>, wanted: Wanted, normalize: bool) returns (f: real)
    ensures f > 0.0 && |Ranked(s, wanted, normalize)| == |s|
    ensures forall i :: 0 <= i < |s| ==> Ranked(s, wanted, normalize)[i] == s[i].(score := s[i].score * f)
  {
    if normalize && wanted == Both {
      var mean := MeanAbs(s);
      var scale := if mean > EPS then mean else EPS;
      f := 1.0 / scale;
      QuotientPositive(1.0, scale);
      forall i | 0 <= i < |s| ensures s[i].score / scale == s[i].score * f { DivAsMul(s[i].score, scale); }
    } else {
      f := 1.0;
    }
  }

  lemma NormFactor(s: Vec, on: bool) returns (g: real)
    ensures g > 0.0
    ensures forall i :: 0 <= i < |s| ==> RankScores(on, s)[i] == s[i] * g
  {
    if on {
      var scale := RMax(Mean(|s|, AbsValues(s)), EPS);
      g := 1.0 / scale;
      QuotientPositive(1.0, scale);
      forall i | 0 <= i < |s| ensures NormScores(s)[i] == s[i] * g { DivAsMul(s[i], scale); }
    } else {
      g := 1.0;
    }
  }

  /** The candidates behind the stored slots. */
  lemma CandidatesAligned(en: Engine, v: seq<Vec>, row: Query, kes: seq<Entry>, ves: seq<Entry>)
    requires en.Valid()
    ensures Aligned(KCands(en, v, row, kes), kes, KSlot) && Aligned(VCands(en, row, ves), ves, VSlot)
  {
    hide KScore, VScore;
  }

  lemma RankAligned(s: seq<Candidate>, es: seq<Entry>, k: Kind, wanted: Wanted, normalize: bool)
    requires Aligned(s, es, k)
    ensures Aligned(Ranked(s, wanted, normalize), es, k)
  {
  }

  /** Batched scores against the router's. */
  lemma ScoresRelate(en: Engine, v: seq<Vec>, row: Query, kes: seq<Entry>, ves: seq<Entry>)
    requires en.Valid() && en.cfg.baseline == CareKv
    requires forall i :: 0 <= i < |ves| ==> ves[i].start + ves[i].len <= |row.a|
    ensures KScores(en, v, row, kes) == Scores(KCands(en, v, row, kes))
    ensures forall i :: 0 <= i < |ves| ==>
      VScores(en, row, ves)[i] == VCands(en, row, ves)[i].score * en.Sens()
  {
    hide AttnMass, SketchDot, BoundaryRisk, ValueSpread, BatchedVScore, VScore;
    forall i | 0 <= i < |ves|
      ensures VScores(en, row, ves)[i] == VCands(en, row, ves)[i].score * en.Sens()
    {
      VScoreTwiceWeighted(en, row, ves[i]);
    }
  }

  /** One ranking of its own, as each side scales it. */
  lemma KindLegal(s: seq<Candidate>, vec: Vec, es: seq<Entry>, kind: Kind, wanted: Wanted, normalize: bool, on: bool,
                  k: nat, sens: real)
    requires DistinctEntries(es) && Aligned(s, es, kind)
    requires sens > 0.0 && |vec| == |s| && forall i :: 0 <= i < |s| ==> vec[i] == s[i].score * sens
    ensures IsTopK(RankScores(on, vec), Min(k, |vec|),
                   Chosen(es, Refs(Take(SortDesc(Ranked(s, wanted, normalize)), k))))
  {
    hide IsTopK, RankScores, Normalise, DistinctEntries, Chosen;
    var f := RankFactor(s, wanted, normalize);
    var g := NormFactor(vec, on);
    RankAligned(s, es, kind, wanted, normalize);
    MulPositive(sens, g);
    var norm, h := RankScores(on, vec), sens * g;
    forall i | 0 <= i < |s| ensures norm[i] == s[i].score * h { MulAssoc(s[i].score, sens, g); }
    OneKindLegal(s, Ranked(s, wanted, normalize), norm, f, h, es, kind, k);
  }

  lemma MulAssoc(x: real, y: real, z: real)
    ensures x * y * z == x * (y * z)
  {
  }

  lemma MergedK(rk: seq<Candidate>, rv: seq<Candidate>, kes: seq<Entry>, ves: seq<Entry>, sel: seq<Candidate>)
    requires DistinctEntries(kes) && Aligned(rk, kes, KSlot) && Aligned(rv, ves, VSlot)
    requires forall c :: c in sel ==> c in rk + rv
    ensures Columns(Picks(rk + rv, sel), 0, |rk|) == Chosen(kes, Refs(OfKind(sel, KSlot)))
  {
    hide OfKind, Refs, Chosen, DistinctEntries;
    forall c ensures c in OfKind(sel, KSlot) <==> c in sel && c.kind == KSlot { OfKindMembers(sel, KSlot, c); }
    ChosenArePicks(rk, kes, KSlot, OfKind(sel, KSlot));
    forall i | 0 <= i < |rk| ensures InColumn(Picks(rk + rv, sel), 0, i) <==> rk[i] in OfKind(sel, KSlot) {
      assert (rk + rv)[i] == rk[i];
    }
  }

  lemma MergedV(rk: seq<Candidate>, rv: seq<Candidate>, kes: seq<Entry>, ves: seq<Entry>, sel: seq<Candidate>)
    requires DistinctEntries(ves) && Aligned(rk, kes, KSlot) && Aligned(rv, ves, VSlot)
    requires forall c :: c in sel ==> c in rk + rv
    ensures Columns(Picks(rk + rv, sel), |rk|, |rv|) == Chosen(ves, Refs(OfKind(sel, VSlot)))
  {
    hide OfKind, Refs, Chosen, DistinctEntries;
    forall c ensures c in OfKind(sel, VSlot) <==> c in sel && c.kind == VSlot { OfKindMembers(sel, VSlot, c); }
    ChosenArePicks(rv, ves, VSlot, OfKind(sel, VSlot));
    forall j | 0 <= j < |rv| ensures InColumn(Picks(rk + rv, sel), |rk|, j) <==> rv[j] in OfKind(sel, VSlot) {
      assert (rk + rv)[|rk| + j] == rv[j];
    }
  }

  // ---- the two paths ----

  /** What the loop's ranking step returns when each kind has its own budget, or no rival. */
  lemma RouterSeparate(en: Engine, a: Vec, ks: seq<Candidate>, vs: seq<Candidate>, wanted: Wanted, normalize: bool,
                       kes: seq<Entry>, ves: seq<Entry>)
    requires en.Valid() && Plain(en.cfg.routePolicy)
    requires Aligned(ks, kes, KSlot) && Aligned(vs, ves, VSlot)
    requires (ks != [] ==> wanted.K()) && (vs != [] ==> wanted.V()) && !Competing(en.cfg, wanted, |ks|, |vs|)
    ensures var b := ReadBudgets(en, wanted, |ks|, |vs|);
      var sel := Preferred(en, a, ks, vs, wanted, normalize);
      && OfKind(sel, KSlot) == Take(SortDesc(Ranked(ks, wanted, normalize)), b.0)
      && OfKind(sel, VSlot) == Take(SortDesc(Ranked(vs, wanted, normalize)), b.1)
  {
    hide ReadBudgets, EntropyShare, SortDesc, Normalise;
    var (bk, bv) := ReadBudgets(en, wanted, |ks|, |vs|);
    var rk, rv := Ranked(ks, wanted, normalize), Ranked(vs, wanted, normalize);
    RankAligned(ks, kes, KSlot, wanted, normalize);
    RankAligned(vs, ves, VSlot, wanted, normalize);
    SortKind(rk, KSlot);
    SortKind(rv, VSlot);
    var pk, pv := Take(SortDesc(rk), bk), Take(SortDesc(rv), bv);
    KindsOfConcat(pk, pv);
    JointWithoutRival(en.cfg.routePolicy, rk, rv, bk, bv, EntropyShare(en.ker, a));
  }

  lemma JointWithoutRival(policy: RoutePolicy, rk: seq<Candidate>, rv: seq<Candidate>, bk: nat, bv: nat, share: real)
    requires 0.0 <= share <= 1.0 && bk <= |rk| && bv <= |rv| && Plain(policy)
    requires policy == Joint ==> rk == [] || rv == []
    ensures ByPolicy(policy, rk, rv, bk, bv, share) == Take(SortDesc(rk), bk) + Take(SortDesc(rv), bv)
  {
    if policy == Joint {
      if rv == [] { assert rk + rv == rk; } else { assert rk + rv == rv; }
    }
  }

  /** And when both kinds compete for one merged budget. */
  lemma RouterJoint(en: Engine, a: Vec, ks: seq<Candidate>, vs: seq<Candidate>, wanted: Wanted, normalize: bool)
    requires en.Valid() && Competing(en.cfg, wanted, |ks|, |vs|)
    ensures var b := ReadBudgets(en, wanted, |ks|, |vs|);
      Preferred(en, a, ks, vs, wanted, normalize)
        == Take(SortDesc(Ranked(ks, wanted, normalize) + Ranked(vs, wanted, normalize)), MergedBudget(b.0, b.1))
  {
    hide ReadBudgets, EntropyShare, SortDesc, Ranked;
  }

  lemma BudgetsAgree(en: Engine, wanted: Wanted, nk: nat, nv: nat)
    requires en.Valid()
    ensures ReadBudgets(en, wanted, if wanted.K() then nk else 0, if wanted.V() then nv else 0)
         == ReadBudgets(en, wanted, nk, nv)
  {
    hide Multiplier, KindBudget;
  }

  /** One query's stored slots and candidates, by kind. */
  datatype Problem = Problem(kes: seq<Entry>, ves: seq<Entry>, ks: seq<Candidate>, vs: seq<Candidate>)

  /** The slots of a page table, and the candidates the router makes of those it wants. */
  ghost function ProblemOf(en: Engine, par: Params, pages: seq<PageState>, row: Query, v: seq<Vec>): Problem
    requires en.Valid() && MetaShaped(pages)
  {
    var kes, ves := Stored(en.cfg, KSlot, pages), Stored(en.cfg, VSlot, pages);
    Problem(kes, ves, if par.wanted.K() then KCands(en, v, row, kes) else [],
            if par.wanted.V() then VCands(en, row, ves) else [])
  }

  ghost predicate WellPosed(en: Engine, p: Problem, row: Query)
  {
    && DistinctEntries(p.kes) && DistinctEntries(p.ves)
    && forall i :: 0 <= i < |p.ves| ==> p.ves[i].start + p.ves[i].len <= |row.a|
  }

  lemma NothingNamed(es: seq<Entry>)
    ensures Chosen(es, Refs([])) == {}
  {
  }

  /** What both paths are given: the slots of a head, and the candidates the router makes of those it wants. */
  ghost predicate Posed(en: Engine, par: Params, p: Problem, row: Query, v: seq<Vec>)
  {
    && en.Valid() && WellPosed(en, p, row)
    && p.ks == (if par.wanted.K() then KCands(en, v, row, p.kes) else [])
    && p.vs == (if par.wanted.V() then VCands(en, row, p.ves) else [])
  }

  function Budgets(en: Engine, par: Params, p: Problem): (nat, nat)
    requires en.Valid()
  {
    ReadBudgets(en, par.wanted, |p.kes|, |p.ves|)
  }

  /** What the router's policy takes, before thresholds. */
  ghost function Taking(en: Engine, par: Params, p: Problem, row: Query): seq<Candidate>
    requires en.Valid()
  {
    Preferred(en, row.a, p.ks, p.vs, par.wanted, par.normalize)
  }

  ghost function TakingK(en: Engine, par: Params, p: Problem, row: Query): set<nat>
    requires en.Valid()
  {
    Chosen(p.kes, Refs(OfKind(Taking(en, par, p, row), KSlot)))
  }

  ghost function TakingV(en: Engine, par: Params, p: Problem, row: Query): set<nat>
    requires en.Valid()
  {
    Chosen(p.ves, Refs(OfKind(Taking(en, par, p, row), VSlot)))
  }

  /** The router's merged ranking, K columns before V columns. */
  function MergedRank(par: Params, p: Problem): seq<Candidate>
  {
    Ranked(p.ks, par.wanted, par.normalize) + Ranked(p.vs, par.wanted, par.normalize)
  }

  /** The columns of it that a budget of `n` takes. */
  ghost function MergedTop(par: Params, p: Problem, n: nat): set<nat>
  {
    Picks(MergedRank(par, p), Take(SortDesc(MergedRank(par, p)), n))
  }

  /** The scores the batched path merges: its V scores carry the sensitivity twice. */
  function BatchedRank(en: Engine, par: Params, p: Problem, row: Query, v: seq<Vec>): Vec
    requires en.Valid()
  {
    RankScores(par.normalize, KScores(en, v, row, p.kes)) + RankScores(par.normalize, VScores(en, row, p.ves))
  }

  /** The router's choice can be had from the batched path. It is in question only when the kinds compete. With
    * both budgets positive, no slot left out may overtake one of the other kind when the V scores are weighted
    * again; with one budget zero, the kind that has one must by itself fill it ahead of every slot of the other. */
  ghost predicate SameMerge(en: Engine, par: Params, p: Problem, row: Query, v: seq<Vec>)
    requires en.Valid()
  {
    Competing(en.cfg, par.wanted, |p.ks|, |p.vs|) ==>
      var (bk, bv), m := Budgets(en, par, p), |p.ks|;
      var rank := Scores(MergedRank(par, p));
      && (bk > 0 && bv > 0 ==> KeepsSplit(BatchedRank(en, par, p, row, v), MergedTop(par, p, bk + bv), m))
      && (bk == 0 && bv > 0 ==> |Leaders(rank, m, |rank|)| >= bv)
      && (bk > 0 && bv == 0 && m <= |rank| ==> |Leaders(rank, 0, m)| >= bk)
  }

  ghost predicate Legal(en: Engine, par: Params, p: Problem, row: Query, v: seq<Vec>, x: set<nat>, y: set<nat>)
    requires en.Valid()
  {
    var (bk, bv) := Budgets(en, par, p);
    LegalPicks(en.cfg, par.wanted, par.normalize, KScores(en, v, row, p.kes), VScores(en, row, p.ves), bk, bv, x, y)
  }

  // ---- kinds that do not compete ----

  lemma SeparateK(en: Engine, par: Params, p: Problem, row: Query, v: seq<Vec>, on: bool, k: nat)
    requires Posed(en, par, p, row, v) && en.cfg.baseline == CareKv && (!par.wanted.K() ==> k == 0)
    ensures var s := KScores(en, v, row, p.kes);
      var taken := Take(SortDesc(Ranked(p.ks, par.wanted, par.normalize)), k);
      IsTopK(RankScores(on, s), Min(k, |s|), Chosen(p.kes, Refs(taken)))
  {
    hide RankScores, Ranked, DistinctEntries, KScores, KCands, SortDesc, Chosen, Refs, Aligned;
    CandidatesAligned(en, v, row, p.kes, p.ves);
    ScoresRelate(en, v, row, p.kes, p.ves);
    if par.wanted.K() {
      KindLegal(p.ks, KScores(en, v, row, p.kes), p.kes, KSlot, par.wanted, par.normalize, on, k, 1.0);
    } else {
      NothingNamed(p.kes);
      NothingIsTop(RankScores(on, KScores(en, v, row, p.kes)));
    }
  }

  lemma SeparateV(en: Engine, par: Params, p: Problem, row: Query, v: seq<Vec>, on: bool, k: nat)
    requires Posed(en, par, p, row, v) && en.cfg.baseline == CareKv && en.Sens() > 0.0 && (!par.wanted.V() ==> k == 0)
    ensures var s := VScores(en, row, p.ves);
      var taken := Take(SortDesc(Ranked(p.vs, par.wanted, par.normalize)), k);
      IsTopK(RankScores(on, s), Min(k, |s|), Chosen(p.ves, Refs(taken)))
  {
    hide RankScores, Ranked, DistinctEntries, VScores, VCands, SortDesc, Chosen, Refs, Aligned;
    CandidatesAligned(en, v, row, p.kes, p.ves);
    ScoresRelate(en, v, row, p.kes, p.ves);
    if par.wanted.V() {
      KindLegal(p.vs, VScores(en, row, p.ves), p.ves, VSlot, par.wanted, par.normalize, on, k, en.Sens());
    } else {
      NothingNamed(p.ves);
      NothingIsTop(RankScores(on, VScores(en, row, p.ves)));
    }
  }

  lemma PosedSizes(en: Engine, par: Params, p: Problem, row: Query, v: seq<Vec>)
    requires Posed(en, par, p, row, v)
    ensures |p.ks| == (if par.wanted.K() then |p.kes| else 0) && |p.vs| == (if par.wanted.V() then |p.ves| else 0)
    ensures Budgets(en, par, p) == ReadBudgets(en, par.wanted, |p.ks|, |p.vs|)
  {
    hide KCands, VCands, ReadBudgets, WellPosed;
    BudgetsAgree(en, par.wanted, |p.kes|, |p.ves|);
  }

  lemma SeparateLegal(en: Engine, par: Params, p: Problem, row: Query, v: seq<Vec>)
    requires Posed(en, par, p, row, v) && Comparable(en) && Plain(en.cfg.routePolicy)
    requires !Competing(en.cfg, par.wanted, |p.ks|, |p.vs|)
    ensures Legal(en, par, p, row, v, TakingK(en, par, p, row), TakingV(en, par, p, row))
  {
    hide RankScores, Ranked, DistinctEntries, ReadBudgets, KScores, VScores, SortDesc, Preferred, Chosen, KCands,
      VCands, IsTopK, OfKind;
    CandidatesAligned(en, v, row, p.kes, p.ves);
    PosedSizes(en, par, p, row, v);
    RouterSeparate(en, row.a, p.ks, p.vs, par.wanted, par.normalize,
                   if par.wanted.K() then p.kes else [], if par.wanted.V() then p.ves else []);
    var (bk, bv) := Budgets(en, par, p);
    var on := Rescaled(par.wanted, par.normalize, bk, bv);
    SeparateK(en, par, p, row, v, on, bk);
    SeparateV(en, par, p, row, v, on, bv);
  }

  // ---- kinds that compete ----

  lemma AlignedLength(cands: seq<Candidate>, es: seq<Entry>, k: Kind)
    requires Aligned(cands, es, k)
    ensures |cands| == |es|
  {
  }

  /** The shape of a merged ranking. */
  lemma CompetingShape(en: Engine, par: Params, p: Problem, row: Query, v: seq<Vec>)
    requires Posed(en, par, p, row, v) && Competing(en.cfg, par.wanted, |p.ks|, |p.vs|)
    ensures var rk, rv := Ranked(p.ks, par.wanted, par.normalize), Ranked(p.vs, par.wanted, par.normalize);
      && Aligned(rk, p.kes, KSlot) && Aligned(rv, p.ves, VSlot) && |rk| == |p.ks| == |p.kes|
      && |rv| == |p.vs| == |p.ves| && NoDup(rk + rv)
  {
    hide KCands, VCands, Aligned, Ranked, NoDup, DistinctEntries;
    var rk, rv := Ranked(p.ks, par.wanted, par.normalize), Ranked(p.vs, par.wanted, par.normalize);
    CandidatesAligned(en, v, row, p.kes, p.ves);
    RankAligned(p.ks, p.kes, KSlot, par.wanted, par.normalize);
    RankAligned(p.vs, p.ves, VSlot, par.wanted, par.normalize);
    AlignedLength(p.ks, p.kes, KSlot);
    AlignedLength(p.vs, p.ves, VSlot);
    AlignedLength(rk, p.kes, KSlot);
    AlignedLength(rv, p.ves, VSlot);
    MergedNoDup(rk, rv, p.kes, p.ves);
  }

  lemma MergedNoDup(rk: seq<Candidate>, rv: seq<Candidate>, kes: seq<Entry>, ves: seq<Entry>)
    requires Aligned(rk, kes, KSlot) && Aligned(rv, ves, VSlot) && DistinctEntries(kes) && DistinctEntries(ves)
    ensures NoDup(rk + rv)
  {
    AlignedNoDup(rk, kes, KSlot);
    AlignedNoDup(rv, ves, VSlot);
  }

  /** With competing kinds the router takes a top-k of the merged ranking, and its reads are the two slices. */
  lemma RouterMerged(en: Engine, par: Params, p: Problem, row: Query, v: seq<Vec>, n: nat)
    requires Posed(en, par, p, row, v) && Comparable(en) && Competing(en.cfg, par.wanted, |p.ks|, |p.vs|)
    requires n == MergedBudget(Budgets(en, par, p).0, Budgets(en, par, p).1)
    ensures var rank, top := MergedRank(par, p), MergedTop(par, p, n);
      && |rank| == |p.ks| + |p.vs| && IsTopK(Scores(rank), n, top)
      && TakingK(en, par, p, row) == Columns(top, 0, |p.ks|)
      && TakingV(en, par, p, row) == Columns(top, |p.ks|, |p.vs|)
      && Below2(TakingK(en, par, p, row), |p.ks|, TakingV(en, par, p, row), |p.vs|)
      && (forall i :: i in top ==> i < |rank|)
      && Merged(TakingK(en, par, p, row), |p.ks|, TakingV(en, par, p, row), |p.vs|) == top
  {
    hide Preferred, ReadBudgets, KCands, VCands, SortDesc, Ranked, Aligned, NoDup, Columns, IsTopK, OfKind, Chosen,
      DistinctEntries, Merged;
    PosedSizes(en, par, p, row, v);
    CompetingShape(en, par, p, row, v);
    RouterJoint(en, row.a, p.ks, p.vs, par.wanted, par.normalize);
    var rk, rv := Ranked(p.ks, par.wanted, par.normalize), Ranked(p.vs, par.wanted, par.normalize);
    var sel := Take(SortDesc(rk + rv), n);
    TakenMembers(rk + rv, n);
    MergedK(rk, rv, p.kes, p.ves, sel);
    MergedV(rk, rv, p.kes, p.ves, sel);
    TakeIsTopK(rk + rv, n);
    var top := MergedTop(par, p, n);
    MergedColumns(top, |p.ks|, |p.vs|);
    ColumnsBelow(top, |p.ks|, |p.vs|);
  }

  lemma NormAgrees(s: seq<Candidate>)
    ensures NormScores(Scores(s)) == Scores(Normalise(s))
  {
  }

  /** The factor that takes scores scaled by `f` to scores scaled by `sens` and `g`. */
  function Reweight(f: real, sens: real, g: real): real
    requires f > 0.0
  {
    sens * g / f
  }

  lemma ReweightPositive(f: real, sens: real, g: real)
    requires f > 0.0 && sens > 0.0 && g > 0.0
    ensures Reweight(f, sens, g) > 0.0
  {
    MulPositive(sens, g);
    QuotientPositive(sens * g, f);
  }

  lemma Reweighted(x: real, f: real, sens: real, g: real)
    requires f > 0.0
    ensures x * sens * g == x * f * Reweight(f, sens, g)
  {
    var h := sens * g;
    assert h == h / f * f;
    MulAssoc(x, sens, g);
    MulAssoc(x, f, h / f);
  }

  lemma ScaleChain(x: real, f: real, sens: real, g: real, y: real, r: real, z: real)
    requires f > 0.0 && y == x * sens && r == x * f && z == y * g
    ensures z == r * Reweight(f, sens, g)
  {
    Reweighted(x, f, sens, g);
  }

  /** One kind's batched scores are one multiple of its ranked ones, however each side scales them. */
  lemma KindFactor(s: seq<Candidate>, vec: Vec, sens: real, wanted: Wanted, normalize: bool, on: bool) returns (c: real)
    requires sens > 0.0 && |vec| == |s| && forall i :: 0 <= i < |s| ==> vec[i] == s[i].score * sens
    ensures c > 0.0 && |Ranked(s, wanted, normalize)| == |s|
    ensures forall i :: 0 <= i < |s| ==> RankScores(on, vec)[i] == Ranked(s, wanted, normalize)[i].score * c
  {
    hide RankScores, Ranked;
    var f := RankFactor(s, wanted, normalize);
    var g := NormFactor(vec, on);
    ReweightPositive(f, sens, g);
    c := Reweight(f, sens, g);
    forall i | 0 <= i < |s| ensures RankScores(on, vec)[i] == Ranked(s, wanted, normalize)[i].score * c {
      ScaleChain(s[i].score, f, sens, g, vec[i], Ranked(s, wanted, normalize)[i].score, RankScores(on, vec)[i]);
    }
  }

  /** Against the router's merged ranking, the batched scores agree on K and carry one factor on V. */
  lemma BatchedFactor(en: Engine, par: Params, p: Problem, row: Query, v: seq<Vec>) returns (c: real)
    requires Posed(en, par, p, row, v) && Comparable(en) && Competing(en.cfg, par.wanted, |p.ks|, |p.vs|)
    ensures c > 0.0
    ensures var s, w := Scores(MergedRank(par, p)), BatchedRank(en, par, p, row, v);
      && |s| == |w| == |p.ks| + |p.vs|
      && (forall i :: 0 <= i < |p.ks| ==> w[i] == s[i])
      && (forall i :: |p.ks| <= i < |s| ==> w[i] == s[i] * c)
  {
    hide KCands, VCands, KScores, VScores, RankScores, Ranked, DistinctEntries, Reweight;
    CompetingShape(en, par, p, row, v);
    ScoresRelate(en, v, row, p.kes, p.ves);
    c := KindFactor(p.vs, VScores(en, row, p.ves), en.Sens(), par.wanted, par.normalize, par.normalize);
    KRanks(en, par, p, row, v);
  }

  lemma KRanks(en: Engine, par: Params, p: Problem, row: Query, v: seq<Vec>)
    requires Posed(en, par, p, row, v) && Comparable(en) && par.wanted == Both
    ensures RankScores(par.normalize, KScores(en, v, row, p.kes)) == Scores(Ranked(p.ks, par.wanted, par.normalize))
  {
    hide KCands, VCands, NormScores, Normalise, DistinctEntries;
    ScoresRelate(en, v, row, p.kes, p.ves);
    NormAgrees(p.ks);
  }

  lemma JointLegal(en: Engine, par: Params, p: Problem, row: Query, v: seq<Vec>)
    requires Posed(en, par, p, row, v) && Comparable(en) && Competing(en.cfg, par.wanted, |p.ks|, |p.vs|)
    requires Budgets(en, par, p).0 > 0 && Budgets(en, par, p).1 > 0
    ensures Legal(en, par, p, row, v, TakingK(en, par, p, row), TakingV(en, par, p, row))
       <==> SameMerge(en, par, p, row, v)
  {
    hide ReadBudgets, KCands, VCands, KScores, VScores, RankScores, Ranked, MergedTop, TakingK, TakingV, IsTopK,
      KeepsSplit, DistinctEntries, Merged, MergedRank;
    var (bk, bv) := Budgets(en, par, p);
    PosedSizes(en, par, p, row, v);
    RouterMerged(en, par, p, row, v, bk + bv);
    var c := BatchedFactor(en, par, p, row, v);
    ReweightedIff(Scores(MergedRank(par, p)), BatchedRank(en, par, p, row, v), |p.ks|, c, bk + bv,
                  MergedTop(par, p, bk + bv));
  }

  /** The batched V scores alone, against the merged ranking. */
  lemma TailFactor(en: Engine, par: Params, p: Problem, row: Query, v: seq<Vec>) returns (c: real)
    requires Posed(en, par, p, row, v) && Comparable(en) && Competing(en.cfg, par.wanted, |p.ks|, |p.vs|)
    ensures c > 0.0
    ensures var s, w := Scores(MergedRank(par, p)), VScores(en, row, p.ves);
      |w| == |p.vs| && |s| == |p.ks| + |p.vs| && forall j :: 0 <= j < |w| ==> w[j] == s[|p.ks| + j] * c
  {
    hide KCands, VCands, KScores, VScores, Ranked, DistinctEntries;
    CompetingShape(en, par, p, row, v);
    ScoresRelate(en, v, row, p.kes, p.ves);
    c := KindFactor(p.vs, VScores(en, row, p.ves), en.Sens(), par.wanted, par.normalize, false);
  }

  /** The batched K scores alone, likewise. */
  lemma HeadFactor(en: Engine, par: Params, p: Problem, row: Query, v: seq<Vec>) returns (c: real)
    requires Posed(en, par, p, row, v) && Comparable(en) && Competing(en.cfg, par.wanted, |p.ks|, |p.vs|)
    ensures c > 0.0
    ensures var s, w := Scores(MergedRank(par, p)), KScores(en, v, row, p.kes);
      |w| == |p.ks| && |s| == |p.ks| + |p.vs| && forall j :: 0 <= j < |w| ==> w[j] == s[j] * c
  {
    hide KCands, VCands, KScores, VScores, Ranked, DistinctEntries;
    CompetingShape(en, par, p, row, v);
    ScoresRelate(en, v, row, p.kes, p.ves);
    c := KindFactor(p.ks, KScores(en, v, row, p.kes), 1.0, par.wanted, par.normalize, false);
  }

  /** Only one kind has a budget: its slots alone are read by the batched path. */
  lemma OnlyVLegal(en: Engine, par: Params, p: Problem, row: Query, v: seq<Vec>)
    requires Posed(en, par, p, row, v) && Comparable(en) && Competing(en.cfg, par.wanted, |p.ks|, |p.vs|)
    requires Budgets(en, par, p).0 == 0 && Budgets(en, par, p).1 > 0
    ensures var top := MergedTop(par, p, Budgets(en, par, p).1);
      Legal(en, par, p, row, v, TakingK(en, par, p, row), TakingV(en, par, p, row)) <==>
        forall i :: i in top ==> |p.ks| <= i < |MergedRank(par, p)|
  {
    hide ReadBudgets, KCands, VCands, KScores, VScores, Ranked, MergedTop, TakingK, TakingV, IsTopK, DistinctEntries,
      Merged, MergedRank, Columns;
    var (bk, bv) := Budgets(en, par, p);
    PosedSizes(en, par, p, row, v);
    RouterMerged(en, par, p, row, v, bv);
    var c := TailFactor(en, par, p, row, v);
    var top := MergedTop(par, p, bv);
    ColumnsEmpty(top, 0, |p.ks|);
    if forall i :: i in top ==> |p.ks| <= i < |MergedRank(par, p)| {
      SliceTopK(Scores(MergedRank(par, p)), VScores(en, row, p.ves), |p.ks|, c, bv, top);
      NothingIsTop(KScores(en, v, row, p.kes));
    } else if Legal(en, par, p, row, v, TakingK(en, par, p, row), TakingV(en, par, p, row)) {
      NoneSelected(KScores(en, v, row, p.kes), TakingK(en, par, p, row));
      assert false;
    }
  }

  lemma OnlyKLegal(en: Engine, par: Params, p: Problem, row: Query, v: seq<Vec>)
    requires Posed(en, par, p, row, v) && Comparable(en) && Competing(en.cfg, par.wanted, |p.ks|, |p.vs|)
    requires Budgets(en, par, p).0 > 0 && Budgets(en, par, p).1 == 0
    ensures var top := MergedTop(par, p, Budgets(en, par, p).0);
      Legal(en, par, p, row, v, TakingK(en, par, p, row), TakingV(en, par, p, row)) <==>
        forall i :: i in top ==> 0 <= i < |p.ks|
  {
    hide ReadBudgets, KCands, VCands, KScores, VScores, Ranked, MergedTop, TakingK, TakingV, IsTopK, DistinctEntries,
      Merged, MergedRank, Columns;
    var (bk, bv) := Budgets(en, par, p);
    PosedSizes(en, par, p, row, v);
    RouterMerged(en, par, p, row, v, bk);
    var c := HeadFactor(en, par, p, row, v);
    var top := MergedTop(par, p, bk);
    ColumnsEmpty(top, |p.ks|, |p.vs|);
    if forall i :: i in top ==> 0 <= i < |p.ks| {
      SliceTopK(Scores(MergedRank(par, p)), KScores(en, v, row, p.kes), 0, c, bk, top);
      NothingIsTop(VScores(en, row, p.ves));
    } else if Legal(en, par, p, row, v, TakingK(en, par, p, row), TakingV(en, par, p, row)) {
      NoneSelected(VScores(en, row, p.ves), TakingV(en, par, p, row));
      assert false;
    }
  }

  lemma ColumnsEmpty(top: set<nat>, off: nat, n: nat)
    ensures Columns(top, off, n) == {} <==> forall i :: i in top ==> !(off <= i < off + n)
  {
    if exists i :: i in top && off <= i < off + n {
      var i :| i in top && off <= i < off + n;
      assert InColumn(top, off, i - off);
      assert i - off in Columns(top, off, n);
    }
  }

  /** A slot of one kind and one of the other do not score the same, where only one kind has a budget. */
  ghost predicate KindsApart(en: Engine, par: Params, p: Problem)
    requires en.Valid()
  {
    var rank, (bk, bv) := Scores(MergedRank(par, p)), Budgets(en, par, p);
    (bk > 0) != (bv > 0) ==> Apart(rank, 0, |p.ks|) && Apart(rank, |p.ks|, |rank|)
  }

  /** Ties aside, the router's choice is one the batched path may make exactly when `SameMerge` holds. */
  lemma TakingLegalIff(en: Engine, par: Params, p: Problem, row: Query, v: seq<Vec>)
    requires Posed(en, par, p, row, v) && Comparable(en) && Plain(en.cfg.routePolicy)
    ensures SameMerge(en, par, p, row, v) ==>
      Legal(en, par, p, row, v, TakingK(en, par, p, row), TakingV(en, par, p, row))
    ensures KindsApart(en, par, p) && Legal(en, par, p, row, v, TakingK(en, par, p, row), TakingV(en, par, p, row)) ==>
      SameMerge(en, par, p, row, v)
  {
    hide ReadBudgets, KCands, VCands, KScores, VScores, Ranked, MergedTop, TakingK, TakingV, IsTopK, DistinctEntries,
      MergedRank, LegalPicks, KeepsSplit, Leaders, BatchedRank;
    if !Competing(en.cfg, par.wanted, |p.ks|, |p.vs|) {
      SeparateLegal(en, par, p, row, v);
    } else {
      var (bk, bv) := Budgets(en, par, p);
      RouterMerged(en, par, p, row, v, MergedBudget(bk, bv));
      var s := Scores(MergedRank(par, p));
      if bk > 0 && bv > 0 {
        JointLegal(en, par, p, row, v);
      } else if bv > 0 {
        OnlyVLegal(en, par, p, row, v);
        WithinEither(s, bv, MergedTop(par, p, bv), |p.ks|, |s|);
      } else if bk > 0 {
        OnlyKLegal(en, par, p, row, v);
        WithinEither(s, bk, MergedTop(par, p, bk), 0, |p.ks|);
      } else {
        NoBudgetLegal(en, par, p, row, v);
      }
    }
  }

  /** Enough leaders keep a top-k within their kind whatever ties there are; conversely without ties. */
  lemma WithinEither(s: Vec, n: nat, top: set<nat>, lo: nat, hi: nat)
    requires IsTopK(s, n, top) && hi <= |s|
    ensures |Leaders(s, lo, hi)| >= n ==> forall i :: i in top ==> lo <= i < hi
    ensures Apart(s, lo, hi) && (forall i :: i in top ==> lo <= i < hi) ==> |Leaders(s, lo, hi)| >= n
  {
    hide IsTopK, Apart, Leaders;
    if !(forall i :: i in top ==> lo <= i < hi) {
      var x :| x in top && !(lo <= x < hi);
      LeadersFirst(s, n, top, lo, hi, x);
    } else if Apart(s, lo, hi) {
      WithinIff(s, n, top, lo, hi);
    }
  }

  lemma NoBudgetTakes(policy: RoutePolicy, rk: seq<Candidate>, rv: seq<Candidate>, share: real)
    requires 0.0 <= share <= 1.0
    ensures ByPolicy(policy, rk, rv, 0, 0, share) == []
  {
    hide SortDesc, AtLeast;
  }

  lemma NoBudgetLegal(en: Engine, par: Params, p: Problem, row: Query, v: seq<Vec>)
    requires Posed(en, par, p, row, v) && Budgets(en, par, p) == (0, 0)
    ensures Legal(en, par, p, row, v, TakingK(en, par, p, row), TakingV(en, par, p, row))
  {
    hide ReadBudgets, KCands, VCands, KScores, VScores, RankScores, DistinctEntries, EntropyShare, Ranked, ByPolicy;
    PosedSizes(en, par, p, row, v);
    NoBudgetTakes(en.cfg.routePolicy, Ranked(p.ks, par.wanted, par.normalize), Ranked(p.vs, par.wanted, par.normalize),
                  EntropyShare(en.ker, row.a));
    NothingNamed(p.kes);
    NothingNamed(p.ves);
    NothingIsTop(KScores(en, v, row, p.kes));
    NothingIsTop(VScores(en, row, p.ves));
  }

  // ---- the batched side ----

  lemma BatchedLegal(en: Engine, par: Params, topk: TopK, p: Problem, row: Query, v: seq<Vec>)
    requires en.Valid() && Chooses(topk)
    ensures var r := BatchedPicks(en, par, topk, p.kes, p.ves, row, v); Legal(en, par, p, row, v, r.0, r.1)
  {
    hide ReadBudgets, KScores, VScores, LegalPicks, Chooses;
    var (bk, bv) := Budgets(en, par, p);
    RowPicksLegal(en.cfg, topk, par.wanted, par.normalize, KScores(en, v, row, p.kes), VScores(en, row, p.ves), bk, bv);
  }

  /** Among the scores the batched path compares, only slots in `qk` and `qv` tie. */
  ghost predicate Ties(en: Engine, par: Params, p: Problem, row: Query, v: seq<Vec>, qk: set<nat>, qv: set<nat>)
    requires en.Valid()
  {
    var (bk, bv) := Budgets(en, par, p);
    TiesQuiet(en.cfg, par.wanted, par.normalize, KScores(en, v, row, p.kes), VScores(en, row, p.ves), bk, bv, qk, qv)
  }

  /** Two legal selections read the same slots, but for tied ones. */
  lemma LegalAgree(en: Engine, par: Params, p: Problem, row: Query, v: seq<Vec>,
                   x: set<nat>, y: set<nat>, x': set<nat>, y': set<nat>, qk: set<nat>, qv: set<nat>)
    requires en.Valid() && Ties(en, par, p, row, v, qk, qv)
    requires Legal(en, par, p, row, v, x, y) && Legal(en, par, p, row, v, x', y')
    ensures x - qk == x' - qk && y - qv == y' - qv
  {
    hide ReadBudgets, KScores, VScores, LegalPicks, TiesQuiet;
    var (bk, bv) := Budgets(en, par, p);
    LegalUnique(en.cfg, par.wanted, par.normalize, KScores(en, v, row, p.kes), VScores(en, row, p.ves), bk, bv,
                x, y, x', y', qk, qv);
  }
}
