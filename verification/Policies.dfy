/** The router's policies and thresholds that the batched path does not implement: exactly when they make no
  * difference to what is read. */
module Policies {

  import opened Numbers
  import opened Config
  import opened Selection
  import opened Pages
  import opened Router
  import opened RouterSoundness
  import opened Correction
  import opened SlotLoop
  import opened Batched
  import opened Choices
  import opened Selections

  // ---- what the router reads ----

  /** What the router chooses. */
  ghost function RouterChoice(en: Engine, par: Params, p: Problem, row: Query): seq<Candidate>
    requires en.Valid()
  {
    Choose(en, row.a, p.ks, p.vs, par.wanted, par.normalize)
  }

  ghost function RoutedK(en: Engine, par: Params, p: Problem, row: Query): set<nat>
    requires en.Valid()
  {
    Chosen(p.kes, Refs(OfKind(RouterChoice(en, par, p, row), KSlot)))
  }

  ghost function RoutedV(en: Engine, par: Params, p: Problem, row: Query): set<nat>
    requires en.Valid()
  {
    Chosen(p.ves, Refs(OfKind(RouterChoice(en, par, p, row), VSlot)))
  }

  // ---- thresholds ----

  /** Of one kind nothing is dropped: every slot passes both thresholds, or there are no more of them than are kept
    * in any case. */
  predicate AllKept(cfg: CacheConfig, s: seq<Candidate>)
  {
    var t := SortDesc(s);
    t == [] || |t| <= cfg.minKeep
    || forall i :: 0 <= i < |t| ==> Passes(t[i], Abs(t[0].score), cfg.relThreshold, cfg.absThreshold)
  }

  ghost predicate NothingDropped(en: Engine, par: Params, p: Problem, row: Query)
    requires en.Valid()
  {
    en.cfg.read.mode == AdaptiveScore ==>
      && AllKept(en.cfg, OfKind(Taking(en, par, p, row), KSlot))
      && AllKept(en.cfg, OfKind(Taking(en, par, p, row), VSlot))
  }

  lemma {:induction false} PassingAll(s: seq<Candidate>, top: real, rel: real, abs: real)
    ensures |Passing(s, top, rel, abs)| == |s| <==> forall i :: 0 <= i < |s| ==> Passes(s[i], top, rel, abs)
    ensures |Passing(s, top, rel, abs)| == |s| ==> Passing(s, top, rel, abs) == s
  {
    hide Passes;
    if s == [] {
    } else {
      PassingAll(s[..|s| - 1], top, rel, abs);
      assert s == s[..|s| - 1] + [s[|s| - 1]];
    }
  }

  function Thresholded(cfg: CacheConfig, s: seq<Candidate>): seq<Candidate>
  {
    Threshold(SortDesc(s), cfg.relThreshold, cfg.absThreshold, cfg.minKeep)
  }

  lemma KeptIff(cfg: CacheConfig, s: seq<Candidate>)
    ensures |Thresholded(cfg, s)| <= |s|
    ensures |Thresholded(cfg, s)| == |s| <==> AllKept(cfg, s)
    ensures AllKept(cfg, s) ==> Thresholded(cfg, s) == SortDesc(s)
  {
    hide Passes, SortDesc;
    var t := SortDesc(s);
    SortPermutes(s);
    assert |t| == |s|;
    if t != [] { PassingAll(t, Abs(t[0].score), cfg.relThreshold, cfg.absThreshold); }
  }

  /** The rankings have one kind each and repeat nothing. */
  lemma RankShapes(en: Engine, par: Params, p: Problem, row: Query, v: seq<Vec>)
    requires Posed(en, par, p, row, v)
    ensures var rk, rv := Ranked(p.ks, par.wanted, par.normalize), Ranked(p.vs, par.wanted, par.normalize);
      && AllOfKind(rk, KSlot) && AllOfKind(rv, VSlot) && NoDup(rk) && NoDup(rv)
      && |rk| == |p.ks| && |rv| == |p.vs|
      && (par.wanted.K() ==> Aligned(rk, p.kes, KSlot)) && (par.wanted.V() ==> Aligned(rv, p.ves, VSlot))
      && (!par.wanted.K() ==> rk == []) && (!par.wanted.V() ==> rv == [])
  {
    hide KCands, VCands, Normalise, DistinctEntries;
    CandidatesAligned(en, v, row, p.kes, p.ves);
    if par.wanted.K() {
      RankAligned(p.ks, p.kes, KSlot, par.wanted, par.normalize);
      AlignedNoDup(Ranked(p.ks, par.wanted, par.normalize), p.kes, KSlot);
    }
    if par.wanted.V() {
      RankAligned(p.vs, p.ves, VSlot, par.wanted, par.normalize);
      AlignedNoDup(Ranked(p.vs, par.wanted, par.normalize), p.ves, VSlot);
    }
  }

  /** Whatever the policy, what it takes of each kind is a prefix of that kind's ranking, within the budgets. */
  lemma TakingSound(en: Engine, par: Params, p: Problem, row: Query, v: seq<Vec>)
    requires Posed(en, par, p, row, v)
    ensures var rk, rv := Ranked(p.ks, par.wanted, par.normalize), Ranked(p.vs, par.wanted, par.normalize);
      var t, (bk, bv) := Taking(en, par, p, row), Budgets(en, par, p);
      && SoundChoice(t, rk, rv, bk + bv) && bk <= |rk| && bv <= |rv|
      && Subselection(OfKind(t, KSlot), rk) && Subselection(OfKind(t, VSlot), rv)
      && |OfKind(t, KSlot)| + |OfKind(t, VSlot)| <= bk + bv
  {
    hide ReadBudgets, ByPolicy, EntropyShare, Ranked, WellPosed, KCands, VCands, SortDesc, NoDup;
    RankShapes(en, par, p, row, v);
    PosedSizes(en, par, p, row, v);
    var rk, rv := Ranked(p.ks, par.wanted, par.normalize), Ranked(p.vs, par.wanted, par.normalize);
    var (bk, bv) := Budgets(en, par, p);
    PolicySound(en.cfg.routePolicy, rk, rv, bk, bv, EntropyShare(en.ker, row.a));
    var t := Taking(en, par, p, row);
    PrefixSub(OfKind(t, KSlot), rk);
    PrefixSub(OfKind(t, VSlot), rv);
    KindSizes(t);
  }

  /** Thresholds keep a part of what the policy took, and all of it exactly when nothing is dropped. */
  lemma Filtered(en: Engine, par: Params, p: Problem, row: Query, v: seq<Vec>)
    requires Posed(en, par, p, row, v)
    ensures var c, t := RouterChoice(en, par, p, row), Taking(en, par, p, row);
      && Subselection(OfKind(c, KSlot), OfKind(t, KSlot)) && Subselection(OfKind(c, VSlot), OfKind(t, VSlot))
      && |OfKind(c, KSlot)| + |OfKind(c, VSlot)| <= |OfKind(t, KSlot)| + |OfKind(t, VSlot)|
      && (NothingDropped(en, par, p, row) <==>
          |OfKind(c, KSlot)| + |OfKind(c, VSlot)| == |OfKind(t, KSlot)| + |OfKind(t, VSlot)|)
      && (NothingDropped(en, par, p, row) ==>
            RoutedK(en, par, p, row) == TakingK(en, par, p, row)
            && RoutedV(en, par, p, row) == TakingV(en, par, p, row))
  {
    hide ReadBudgets, Preferred, WellPosed, KCands, VCands, SortDesc, Threshold, Chosen, AllKept, OfKind, SoundChoice,
      NoDup;
    TakingSound(en, par, p, row, v);
    PosedSizes(en, par, p, row, v);
    var t := Taking(en, par, p, row);
    var tk, tv := OfKind(t, KSlot), OfKind(t, VSlot);
    KindSizes(t);
    EmptyKinds();
    if en.cfg.read.mode == AdaptiveScore {
      FilteredKinds(en.cfg, t);
      SortedNames(p.kes, tk);
      SortedNames(p.ves, tv);
    }
  }

  lemma EmptyKinds()
    ensures OfKind([], KSlot) == [] && OfKind([], VSlot) == [] && forall cfg :: AllKept(cfg, [])
  {
  }

  lemma FilteredKinds(cfg: CacheConfig, t: seq<Candidate>)
    requires cfg.read.mode == AdaptiveScore && NoDup(OfKind(t, KSlot)) && NoDup(OfKind(t, VSlot))
    ensures var c, tk, tv := ByThreshold(cfg, t), OfKind(t, KSlot), OfKind(t, VSlot);
      && OfKind(c, KSlot) == Thresholded(cfg, tk) && OfKind(c, VSlot) == Thresholded(cfg, tv)
      && Subselection(OfKind(c, KSlot), tk) && Subselection(OfKind(c, VSlot), tv)
      && |OfKind(c, KSlot)| <= |tk| && |OfKind(c, VSlot)| <= |tv|
      && (AllKept(cfg, tk) <==> |OfKind(c, KSlot)| == |tk|) && (AllKept(cfg, tv) <==> |OfKind(c, VSlot)| == |tv|)
      && (AllKept(cfg, tk) ==> OfKind(c, KSlot) == SortDesc(tk))
      && (AllKept(cfg, tv) ==> OfKind(c, VSlot) == SortDesc(tv))
  {
    hide SortDesc, Threshold, AllKept, OfKind, NoDup;
    var tk, tv := OfKind(t, KSlot), OfKind(t, VSlot);
    OfKindShape(t, KSlot);
    OfKindShape(t, VSlot);
    ThresholdKindSub(tk, KSlot, cfg);
    ThresholdKindSub(tv, VSlot, cfg);
    KindsOfConcat(Thresholded(cfg, tk), Thresholded(cfg, tv));
    KeptIff(cfg, tk);
    KeptIff(cfg, tv);
  }

  /** Sorting does not change which slots are named. */
  lemma SortedNames(es: seq<Entry>, s: seq<Candidate>)
    ensures Chosen(es, Refs(SortDesc(s))) == Chosen(es, Refs(s))
  {
    hide SortDesc;
    forall ref: SlotRef ensures ref in Refs(SortDesc(s)) <==> ref in Refs(s) {
      if ref in Refs(s) {
        var i :| 0 <= i < |s| && Refs(s)[i] == ref;
        SortMembers(s, s[i]);
        var j :| 0 <= j < |SortDesc(s)| && SortDesc(s)[j] == s[i];
        assert Refs(SortDesc(s))[j] == ref;
      }
      if ref in Refs(SortDesc(s)) {
        var j :| 0 <= j < |SortDesc(s)| && Refs(SortDesc(s))[j] == ref;
        SortMembers(s, SortDesc(s)[j]);
        var i :| 0 <= i < |s| && s[i] == SortDesc(s)[j];
        assert Refs(s)[i] == ref;
      }
    }
  }

  // ---- sizes ----

  lemma NamedSize(rank: seq<Candidate>, es: seq<Entry>, kind: Kind, chosen: seq<Candidate>)
    requires Aligned(rank, es, kind) && DistinctEntries(es) && Subselection(chosen, rank)
    ensures |Chosen(es, Refs(chosen))| == |chosen|
  {
    ChosenArePicks(rank, es, kind, chosen);
    AlignedNoDup(rank, es, kind);
    PicksSize(rank, chosen);
  }

  /** As many slots are read as candidates chosen. */
  lemma ReadSizes(en: Engine, par: Params, p: Problem, row: Query, v: seq<Vec>, ck: seq<Candidate>, cv: seq<Candidate>)
    requires Posed(en, par, p, row, v)
    requires Subselection(ck, Ranked(p.ks, par.wanted, par.normalize))
    requires Subselection(cv, Ranked(p.vs, par.wanted, par.normalize))
    ensures |Chosen(p.kes, Refs(ck))| == |ck| && |Chosen(p.ves, Refs(cv))| == |cv|
  {
    hide Ranked, DistinctEntries, Aligned, Refs, Chosen, KCands, VCands;
    RankShapes(en, par, p, row, v);
    if par.wanted.K() {
      NamedSize(Ranked(p.ks, par.wanted, par.normalize), p.kes, KSlot, ck);
    } else {
      NoneOfNone(ck);
      NothingNamed(p.kes);
    }
    if par.wanted.V() {
      NamedSize(Ranked(p.vs, par.wanted, par.normalize), p.ves, VSlot, cv);
    } else {
      NoneOfNone(cv);
      NothingNamed(p.ves);
    }
  }

  lemma NoneOfNone(s: seq<Candidate>)
    requires Subselection(s, [])
    ensures s == []
  {
    PicksSize([], s);
    assert Picks([], s) == {};
  }

  lemma MergedSize(x: set<nat>, m: nat, y: set<nat>, n: nat)
    requires Below2(x, m, y, n)
    ensures |Merged(x, m, y, n)| == |x| + |y|
  {
    var top := Merged(x, m, y, n);
    var rest := top - x;
    forall i: nat | i < m ensures i in top <==> i in x { assert InMerged(x, m, y, i) <==> i in x; }
    forall j: nat ensures j in Columns(rest, m, n) <==> j in y {
      if j < n { assert InMerged(x, m, y, m + j) <==> j in y; }
      assert InColumn(rest, m, j) <==> m + j in rest;
    }
    assert Columns(rest, m, n) == y;
    ColumnsSize(rest, m, n);
    assert top == x + rest && x !! rest;
  }

  /** Every selection the batched path may make has the size of the budgets. */
  lemma LegalSize(en: Engine, par: Params, p: Problem, row: Query, v: seq<Vec>, x: set<nat>, y: set<nat>)
    requires Posed(en, par, p, row, v) && Legal(en, par, p, row, v, x, y)
    ensures var (bk, bv) := Budgets(en, par, p);
      |x| + |y| == bk + bv && (!Merging(en.cfg, par.wanted, bk, bv) ==> |x| == bk && |y| == bv)
  {
    hide ReadBudgets, KScores, VScores, RankScores, Merged, KCands, VCands, WellPosed;
    PosedSizes(en, par, p, row, v);
    var (bk, bv) := Budgets(en, par, p);
    if Merging(en.cfg, par.wanted, bk, bv) { MergedSize(x, |p.kes|, y, |p.ves|); }
  }

  // ---- policies ----

  /** Where the batched path does not merge the kinds, what a policy takes is legal exactly when it takes as many of
    * each kind as that kind's budget. */
  lemma CountsLegal(en: Engine, par: Params, p: Problem, row: Query, v: seq<Vec>)
    requires Posed(en, par, p, row, v) && Comparable(en)
    requires !Merging(en.cfg, par.wanted, Budgets(en, par, p).0, Budgets(en, par, p).1)
    ensures var t, (bk, bv) := Taking(en, par, p, row), Budgets(en, par, p);
      Legal(en, par, p, row, v, TakingK(en, par, p, row), TakingV(en, par, p, row)) <==>
      |OfKind(t, KSlot)| == bk && |OfKind(t, VSlot)| == bv
  {
    hide ReadBudgets, KScores, VScores, RankScores, Ranked, IsTopK, SortDesc, Preferred, WellPosed, KCands, VCands,
      OfKind, Chosen, Refs, Subselection;
    TakingSound(en, par, p, row, v);
    PosedSizes(en, par, p, row, v);
    var t := Taking(en, par, p, row);
    var (bk, bv) := Budgets(en, par, p);
    ReadSizes(en, par, p, row, v, OfKind(t, KSlot), OfKind(t, VSlot));
    if |OfKind(t, KSlot)| == bk && |OfKind(t, VSlot)| == bv {
      var on := Rescaled(par.wanted, par.normalize, bk, bv);
      assert OfKind(t, KSlot) == Take(SortDesc(Ranked(p.ks, par.wanted, par.normalize)), bk);
      assert OfKind(t, VSlot) == Take(SortDesc(Ranked(p.vs, par.wanted, par.normalize)), bv);
      SeparateK(en, par, p, row, v, on, bk);
      SeparateV(en, par, p, row, v, on, bv);
    } else if Legal(en, par, p, row, v, TakingK(en, par, p, row), TakingV(en, par, p, row)) {
      LegalSize(en, par, p, row, v, TakingK(en, par, p, row), TakingV(en, par, p, row));
      assert false;
    }
  }

  /** V slots that score at least the mean: those `k_first` may read. */
  function AboveMean(rank: seq<Candidate>): nat { |AtLeast(SortDesc(rank), MeanScore(rank))| }

  lemma KFirstTakes(rk: seq<Candidate>, rv: seq<Candidate>, bk: nat, bv: nat, share: real)
    requires 0.0 <= share <= 1.0 && AllOfKind(rk, KSlot) && AllOfKind(rv, VSlot) && bk <= |rk| && bv <= |rv|
    ensures var t := ByPolicy(KFirst, rk, rv, bk, bv, share);
      |OfKind(t, KSlot)| == bk && |OfKind(t, VSlot)| == Min(AboveMean(rv), bv)
  {
    hide SortDesc, OfKind, AtLeast, MeanScore;
    var above := AtLeast(SortDesc(rv), MeanScore(rv));
    SortKind(rk, KSlot);
    SortKind(rv, VSlot);
    SortSorted(rv);
    AtLeastPrefix(SortDesc(rv), MeanScore(rv));
    SortPermutes(rk);
    assert |SortDesc(rk)| == |rk|;
    var kPick, vPick := Take(SortDesc(rk), bk), if rv != [] && bv > 0 then Take(above, bv) else [];
    PrefixKind(kPick, SortDesc(rk), KSlot);
    PrefixKind(vPick, SortDesc(rv), VSlot);
    KindsOfConcat(kPick, vPick);
  }

  lemma AdaptiveTakes(rk: seq<Candidate>, rv: seq<Candidate>, bk: nat, bv: nat, share: real)
    requires 0.0 <= share <= 1.0 && AllOfKind(rk, KSlot) && AllOfKind(rv, VSlot)
    ensures var t, own := ByPolicy(Adaptive, rk, rv, bk, bv, share), VShare(bk + bv, share);
      && own <= bk + bv
      && |OfKind(t, KSlot)| == Min(bk + bv - own, |rk|) && |OfKind(t, VSlot)| == Min(own, |rv|)
  {
    hide SortDesc, OfKind, VShare;
    var own := VShare(bk + bv, share);
    ShareBound(bk + bv, share);
    SortKind(rk, KSlot);
    SortKind(rv, VSlot);
    SortPermutes(rk);
    SortPermutes(rv);
    assert |SortDesc(rk)| == |rk| && |SortDesc(rv)| == |rv|;
    var kPick, vPick := Take(SortDesc(rk), bk + bv - own), Take(SortDesc(rv), own);
    PrefixKind(kPick, SortDesc(rk), KSlot);
    PrefixKind(vPick, SortDesc(rv), VSlot);
    KindsOfConcat(kPick, vPick);
  }

  lemma KFirstCounts(en: Engine, par: Params, p: Problem, row: Query, v: seq<Vec>)
    requires Posed(en, par, p, row, v) && en.cfg.routePolicy == KFirst
    ensures var t, (bk, bv) := Taking(en, par, p, row), Budgets(en, par, p);
      |OfKind(t, KSlot)| == bk && |OfKind(t, VSlot)| == bv <==>
      AboveMean(Ranked(p.vs, par.wanted, par.normalize)) >= bv
  {
    hide ReadBudgets, Ranked, OfKind, WellPosed, KCands, VCands, EntropyShare, ByPolicy, AboveMean;
    RankShapes(en, par, p, row, v);
    PosedSizes(en, par, p, row, v);
    var (bk, bv) := Budgets(en, par, p);
    KFirstTakes(Ranked(p.ks, par.wanted, par.normalize), Ranked(p.vs, par.wanted, par.normalize), bk, bv,
                EntropyShare(en.ker, row.a));
  }

  lemma AdaptiveCounts(en: Engine, par: Params, p: Problem, row: Query, v: seq<Vec>)
    requires Posed(en, par, p, row, v) && en.cfg.routePolicy == Adaptive
    ensures var t, (bk, bv) := Taking(en, par, p, row), Budgets(en, par, p);
      |OfKind(t, KSlot)| == bk && |OfKind(t, VSlot)| == bv <==> VShare(bk + bv, EntropyShare(en.ker, row.a)) == bv
  {
    hide ReadBudgets, Ranked, OfKind, WellPosed, KCands, VCands, EntropyShare, ByPolicy, VShare;
    RankShapes(en, par, p, row, v);
    PosedSizes(en, par, p, row, v);
    var (bk, bv) := Budgets(en, par, p);
    AdaptiveTakes(Ranked(p.ks, par.wanted, par.normalize), Ranked(p.vs, par.wanted, par.normalize), bk, bv,
                  EntropyShare(en.ker, row.a));
  }

  /** The policy takes what the batched path may: separately ranked kinds always; `k_first` when as many V slots as
    * the V budget reach the mean score; `adaptive` when the V share is the V budget; and jointly ranked kinds as
    * `SameMerge` says. */
  ghost predicate SamePolicy(en: Engine, par: Params, p: Problem, row: Query, v: seq<Vec>)
    requires en.Valid()
  {
    var (bk, bv) := Budgets(en, par, p);
    match en.cfg.routePolicy
    case Joint => SameMerge(en, par, p, row, v)
    case Separate => true
    case KFirst => AboveMean(Ranked(p.vs, par.wanted, par.normalize)) >= bv
    case Adaptive => VShare(bk + bv, EntropyShare(en.ker, row.a)) == bv
  }

  /** The router's choice can be had from the batched path: no threshold drops a slot, and the policy takes what the
    * batched path may. */
  ghost predicate SameChoice(en: Engine, par: Params, p: Problem, row: Query, v: seq<Vec>)
    requires en.Valid()
  {
    NothingDropped(en, par, p, row) && SamePolicy(en, par, p, row, v)
  }

  lemma PolicyLegalIff(en: Engine, par: Params, p: Problem, row: Query, v: seq<Vec>)
    requires Posed(en, par, p, row, v) && Comparable(en)
    ensures SamePolicy(en, par, p, row, v) ==>
      Legal(en, par, p, row, v, TakingK(en, par, p, row), TakingV(en, par, p, row))
    ensures KindsApart(en, par, p) && Legal(en, par, p, row, v, TakingK(en, par, p, row), TakingV(en, par, p, row)) ==>
      SamePolicy(en, par, p, row, v)
  {
    hide ReadBudgets, WellPosed, KCands, VCands, KindsApart, Legal, TakingK, TakingV, Taking, SameMerge, EntropyShare,
      VShare, AboveMean, OfKind;
    match en.cfg.routePolicy
    case Joint => TakingLegalIff(en, par, p, row, v);
    case Separate =>
      TakingLegalIff(en, par, p, row, v);
      NeverMerged(en, par, p, row, v);
    case KFirst =>
      CountsLegal(en, par, p, row, v);
      KFirstCounts(en, par, p, row, v);
    case Adaptive =>
      CountsLegal(en, par, p, row, v);
      AdaptiveCounts(en, par, p, row, v);
  }

  lemma NeverMerged(en: Engine, par: Params, p: Problem, row: Query, v: seq<Vec>)
    requires en.Valid() && en.cfg.routePolicy != Joint
    ensures SameMerge(en, par, p, row, v)
  {
  }

  /** Ties aside, under every policy and in every mode, the router's reads are a selection the batched path may make
    * exactly when `SameChoice` holds. */
  lemma RouterLegalIff(en: Engine, par: Params, p: Problem, row: Query, v: seq<Vec>)
    requires Posed(en, par, p, row, v) && Comparable(en)
    ensures SameChoice(en, par, p, row, v) ==>
      Legal(en, par, p, row, v, RoutedK(en, par, p, row), RoutedV(en, par, p, row))
    ensures KindsApart(en, par, p) && Legal(en, par, p, row, v, RoutedK(en, par, p, row), RoutedV(en, par, p, row)) ==>
      SameChoice(en, par, p, row, v)
  {
    hide ReadBudgets, WellPosed, KCands, VCands, KindsApart, Legal, Taking, RouterChoice, SamePolicy, NothingDropped,
      OfKind, Chosen, Refs, Ranked, SoundChoice;
    Filtered(en, par, p, row, v);
    PolicyLegalIff(en, par, p, row, v);
    if !NothingDropped(en, par, p, row)
       && Legal(en, par, p, row, v, RoutedK(en, par, p, row), RoutedV(en, par, p, row)) {
      TakingSound(en, par, p, row, v);
      LegalSize(en, par, p, row, v, RoutedK(en, par, p, row), RoutedV(en, par, p, row));
      var c := RouterChoice(en, par, p, row);
      ReadSizes(en, par, p, row, v, OfKind(c, KSlot), OfKind(c, VSlot));
      assert false;
    }
  }
}
