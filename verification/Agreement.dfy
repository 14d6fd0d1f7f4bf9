/** The batched path and the per-query loop: exactly when they read the same slots, and when they make the same
  * correction. */
module Agreement {

  import opened Numbers
  import opened Sums
  import opened Config
  import opened Selection
  import opened Pages
  import opened Router
  import opened ExactSoftmax
  import opened Correction
  import opened SlotLoop
  import opened Batched
  import opened Vectorized
  import opened Choices
  import opened Silence
  import opened Selections
  import opened Policies

  lemma SlotHasTokens(en: Engine, pages: seq<PageState>, kind: Kind)
    requires en.Valid() && MetaShaped(pages) && Stored(en.cfg, kind, pages) != []
    ensures TokenCount(pages) > 0
  {
    StoredDistinct(en.cfg, kind, pages);
    EntrySource(en.cfg, kind, pages, |pages|, 0);
    var es := Stored(en.cfg, kind, pages);
    assert es[0].start + es[0].len <= TokenCount(pages);
  }

  lemma NoTokensNoSlots(en: Engine, pages: seq<PageState>, kind: Kind)
    requires en.Valid() && MetaShaped(pages) && TokenCount(pages) == 0
    ensures Stored(en.cfg, kind, pages) == []
  {
    if Stored(en.cfg, kind, pages) != [] { SlotHasTokens(en, pages, kind); }
  }

  /** No two of the scores that either path compares are the same. */
  ghost predicate TieFree(en: Engine, par: Params, p: Problem, row: Query, v: seq<Vec>)
    requires en.Valid()
  {
    Ties(en, par, p, row, v, {}, {}) && KindsApart(en, par, p)
  }

  /** Ties occur among slots without attention mass only. */
  ghost predicate TiesSilent(en: Engine, par: Params, p: Problem, row: Query, v: seq<Vec>)
    requires en.Valid()
  {
    Ties(en, par, p, row, v, SilentSet(row.a, p.kes), SilentSet(row.a, p.ves))
  }

  /** The problem a page table poses, and that the router solves it. */
  lemma RouterSolves(en: Engine, par: Params, view: HeadView, row: Query, v: seq<Vec>)
    requires en.Valid() && ViewOk(en.cfg, view) && MetaShaped(view.pages) && PagesInOrder(view.pages)
    requires |row.a| == TokenCount(view.pages)
    ensures var p := ProblemOf(en, par, view.pages, row, v);
      && Posed(en, par, p, row, v)
      && p.kes == Stored(en.cfg, KSlot, view.pages) && p.ves == Stored(en.cfg, VSlot, view.pages)
      && ReadSet(en, par, view, row, v, KSlot) == RoutedK(en, par, p, row)
      && ReadSet(en, par, view, row, v, VSlot) == RoutedV(en, par, p, row)
  {
    hide DistinctEntries, WellPlaced, Choose, KCands, VCands, Entries, Chosen, Refs;
    var p := ProblemOf(en, par, view.pages, row, v);
    StoredDistinct(en.cfg, KSlot, view.pages);
    StoredDistinct(en.cfg, VSlot, view.pages);
    WalksAgree(en.cfg, KSlot, view.pages);
    WalksAgree(en.cfg, VSlot, view.pages);
    PlacedWithin(p.ves, VSlot, |row.a|);
    if row.a == [] {
      NoTokensNoSlots(en, view.pages, KSlot);
      NoTokensNoSlots(en, view.pages, VSlot);
      EmptyChoice(en, par, row, v);
    }
  }

  /** Where no scores tie, under every policy and in every mode, the batched path reads exactly the slots the router
    * reads if and only if the router's choice can be had from it: nothing may be dropped, `k_first` and `adaptive`
    * must come out at the two budgets, and kinds ranked jointly must keep their split under the second weighting or,
    * with one budget, lead far enough. */
  lemma SelectionsAgree(en: Engine, par: Params, topk: TopK, view: HeadView, row: Query, v: seq<Vec>)
    requires en.Valid() && ViewOk(en.cfg, view) && MetaShaped(view.pages) && PagesInOrder(view.pages)
    requires |row.a| == TokenCount(view.pages) && Chooses(topk) && Comparable(en)
    requires TieFree(en, par, ProblemOf(en, par, view.pages, row, v), row, v)
    ensures BatchedPicks(en, par, topk, Stored(en.cfg, KSlot, view.pages), Stored(en.cfg, VSlot, view.pages), row, v)
            == (ReadSet(en, par, view, row, v, KSlot), ReadSet(en, par, view, row, v, VSlot))
       <==> SameChoice(en, par, ProblemOf(en, par, view.pages, row, v), row, v)
  {
    hide Chooses, BatchedPicks, ReadSet, RoutedK, RoutedV, Legal, SameChoice, Ties, ProblemOf, Posed, Comparable,
      ViewOk;
    var p := ProblemOf(en, par, view.pages, row, v);
    RouterSolves(en, par, view, row, v);
    RouterLegalIff(en, par, p, row, v);
    BatchedLegal(en, par, topk, p, row, v);
    var r := BatchedPicks(en, par, topk, p.kes, p.ves, row, v);
    var x, y := RoutedK(en, par, p, row), RoutedV(en, par, p, row);
    if SameChoice(en, par, p, row, v) {
      LegalAgree(en, par, p, row, v, r.0, r.1, x, y, {}, {});
      assert r.0 - {} == r.0 && x - {} == x && r.1 - {} == r.1 && y - {} == y;
    }
  }

  /** Where silent slots may tie, the two paths agree on all others. */
  lemma LiveSelectionsAgree(en: Engine, par: Params, topk: TopK, view: HeadView, row: Query, v: seq<Vec>)
    requires en.Valid() && ViewOk(en.cfg, view) && MetaShaped(view.pages) && PagesInOrder(view.pages)
    requires |row.a| == TokenCount(view.pages) && Chooses(topk) && Comparable(en)
    requires var p := ProblemOf(en, par, view.pages, row, v);
      TiesSilent(en, par, p, row, v) && SameChoice(en, par, p, row, v)
    ensures var kes, ves := Stored(en.cfg, KSlot, view.pages), Stored(en.cfg, VSlot, view.pages);
      var r := BatchedPicks(en, par, topk, kes, ves, row, v);
      && SameLive(row.a, kes, r.0, ReadSet(en, par, view, row, v, KSlot))
      && SameLive(row.a, ves, r.1, ReadSet(en, par, view, row, v, VSlot))
  {
    hide Chooses, BatchedPicks, ReadSet, RoutedK, RoutedV, Legal, SameChoice, Ties, ProblemOf, Posed, Comparable,
      SilentSet, ViewOk;
    var p := ProblemOf(en, par, view.pages, row, v);
    RouterSolves(en, par, view, row, v);
    RouterLegalIff(en, par, p, row, v);
    BatchedLegal(en, par, topk, p, row, v);
    var r := BatchedPicks(en, par, topk, p.kes, p.ves, row, v);
    LegalAgree(en, par, p, row, v, r.0, r.1, RoutedK(en, par, p, row), RoutedV(en, par, p, row),
               SilentSet(row.a, p.kes), SilentSet(row.a, p.ves));
  }

  lemma EmptyChoice(en: Engine, par: Params, row: Query, v: seq<Vec>)
    requires en.Valid()
    ensures Choose(en, row.a, [], [], par.wanted, par.normalize) == []
    ensures KCands(en, v, row, []) == [] && VCands(en, row, []) == []
  {
    hide Multiplier, EntropyShare;
  }

  lemma PlacedWithin(es: seq<Entry>, kind: Kind, total: nat)
    requires WellPlaced(es, kind, total)
    ensures forall i :: 0 <= i < |es| ==> es[i].start + es[i].len <= total
  {
  }

  // ---- the same correction ----

  /** A selection of K slots on which exact mode renormalises as intended. */
  ghost predicate Regular(en: Engine, par: Params, row: Query, v: seq<Vec>, slab: Slab, sk: set<nat>)
  {
    && Exponential(par.exp) && BaseAttention(row, v, en.cfg.headDim)
    && (sk == {} || Unclamped(par, en.cfg.kChannelGroup, row, slab, sk))
  }

  /** Settings, page table and scores on which the two paths make the same correction for one query: the
    * router's choice can be had from the batched path, and only silent slots tie. In exact mode either nothing
    * ties, or the clamp acts on neither selection. */
  ghost predicate Alike(en: Engine, par: Params, topk: TopK, view: HeadView, row: Query, v: seq<Vec>)
    requires en.Valid() && ViewOk(en.cfg, view) && MetaShaped(view.pages)
  {
    var p := ProblemOf(en, par, view.pages, row, v);
    && Comparable(en) && SameChoice(en, par, p, row, v)
    && (Ties(en, par, p, row, v, {}, {})
        || (TiesSilent(en, par, p, row, v)
            && (par.exact ==>
                  && Regular(en, par, row, v, KSlab(en.cfg, view), ReadSet(en, par, view, row, v, KSlot))
                  && Regular(en, par, row, v, KSlab(en.cfg, view),
                             BatchedPicks(en, par, topk, p.kes, p.ves, row, v).0))))
  }

  /** Batched equals looped: on any page table whose only gap is the last page, every batched row is what the
    * per-query loop returns. */
  lemma BatchedEqualsLooped(en: Engine, par: Params, topk: TopK, view: HeadView, row: Query, v: seq<Vec>)
    requires en.Valid() && ViewOk(en.cfg, view) && MetaShaped(view.pages) && PagesInOrder(view.pages)
    requires |row.a| == TokenCount(view.pages) && par.rootD > 0.0 && Chooses(topk)
    requires Alike(en, par, topk, view, row, v)
    ensures BatchedDelta(en, par, topk, view, row, v)
         == Corrected(par, en.cfg, row, v, KSlab(en.cfg, view), VSlab(en.cfg, view),
                      ReadSet(en, par, view, row, v, KSlot), ReadSet(en, par, view, row, v, VSlot))
  {
    hide Comparable, SameChoice, Ties, TiesSilent, Chooses, BatchedPicks, ReadSet, Corrected, SameLive, Exponential,
      BaseAttention, Unclamped, ViewOk, SlotBlock, Stored;
    var p := ProblemOf(en, par, view.pages, row, v);
    var r := BatchedPicks(en, par, topk, p.kes, p.ves, row, v);
    var sk, sv := ReadSet(en, par, view, row, v, KSlot), ReadSet(en, par, view, row, v, VSlot);
    if Ties(en, par, p, row, v, {}, {}) {
      StrictlyAgree(en, par, topk, view, row, v);
    } else {
      LiveSelectionsAgree(en, par, topk, view, row, v);
      SilentSlotsDoNothing(par, en.cfg, row, v, KSlab(en.cfg, view), VSlab(en.cfg, view), r.0, r.1, sk, sv);
    }
  }

  /** Without ties the selections themselves are equal. */
  lemma StrictlyAgree(en: Engine, par: Params, topk: TopK, view: HeadView, row: Query, v: seq<Vec>)
    requires en.Valid() && ViewOk(en.cfg, view) && MetaShaped(view.pages) && PagesInOrder(view.pages)
    requires |row.a| == TokenCount(view.pages) && Chooses(topk) && Comparable(en)
    requires var p := ProblemOf(en, par, view.pages, row, v);
      Ties(en, par, p, row, v, {}, {}) && SameChoice(en, par, p, row, v)
    ensures BatchedPicks(en, par, topk, Stored(en.cfg, KSlot, view.pages), Stored(en.cfg, VSlot, view.pages), row, v)
         == (ReadSet(en, par, view, row, v, KSlot), ReadSet(en, par, view, row, v, VSlot))
  {
    hide Chooses, BatchedPicks, ReadSet, RoutedK, RoutedV, Legal, SameChoice, Ties, ProblemOf, Posed, Comparable,
      ViewOk;
    var p := ProblemOf(en, par, view.pages, row, v);
    RouterSolves(en, par, view, row, v);
    RouterLegalIff(en, par, p, row, v);
    BatchedLegal(en, par, topk, p, row, v);
    var r := BatchedPicks(en, par, topk, p.kes, p.ves, row, v);
    var x, y := RoutedK(en, par, p, row), RoutedV(en, par, p, row);
    LegalAgree(en, par, p, row, v, r.0, r.1, x, y, {}, {});
    assert r.0 - {} == r.0 && x - {} == x && r.1 - {} == r.1 && y - {} == y;
  }

  datatype Impl = PerQuery | Batch(chunk: int)

  /** The corrected rows of one KV head, by either implementation: the choice cannot be observed. */
  method CorrectHead(en: Engine, par: Params, topk: TopK, impl: Impl, view: HeadView, rows: seq<Query>, v: seq<Vec>)
    returns (out: seq<Vec>)
    requires en.Valid() && ViewOk(en.cfg, view) && MetaShaped(view.pages) && PagesInOrder(view.pages)
    requires Chooses(topk) && RowsOk(par, en.cfg, view.pages, rows, v)
    requires impl.Batch? ==> forall r :: 0 <= r < |rows| ==> Alike(en, par, topk, view, rows[r], v)
    ensures |out| == |rows|
    ensures forall r :: 0 <= r < |rows| ==>
      out[r] == Corrected(par, en.cfg, rows[r], v, KSlab(en.cfg, view), VSlab(en.cfg, view),
              ReadSet(en, par, view, rows[r], v, KSlot), ReadSet(en, par, view, rows[r], v, VSlot))
  {
    hide Chooses, Alike, BatchedDelta, ReadSet, Corrected, KSlab, VSlab, ViewOk, ChunkedRows;
    if impl.Batch? {
      out := VectorizedJointCorrection(en, par, topk, view, rows, v, impl.chunk);
      ChunkingInvisible(en, par, topk, view, rows, v, impl.chunk);
      forall r | 0 <= r < |rows|
        ensures out[r] == Corrected(par, en.cfg, rows[r], v, KSlab(en.cfg, view), VSlab(en.cfg, view),
                                    ReadSet(en, par, view, rows[r], v, KSlot),
                                    ReadSet(en, par, view, rows[r], v, VSlot))
      {
        BatchedEqualsLooped(en, par, topk, view, rows[r], v);
      }
    } else {
      out := [];
      while |out| < |rows|
        invariant |out| <= |rows|
        invariant forall r :: 0 <= r < |out| ==>
          out[r] == Corrected(par, en.cfg, rows[r], v, KSlab(en.cfg, view), VSlab(en.cfg, view),
                              ReadSet(en, par, view, rows[r], v, KSlot), ReadSet(en, par, view, rows[r], v, VSlot))
      {
        var delta := ApplySlotCorrections(en, par, view, rows[|out|], v);
        out := out + [delta];
      }
    }
  }

  // ---- where the guards matter ----

  lemma AbsScaled(x: real, c: real)
    requires c > 0.0
    ensures Abs(x * c) == c * Abs(x)
  {
    if x >= 0.0 { MulNonNeg(x, c); } else { MulPositive(-x, c); }
  }

  lemma MeanScaled(a: Vec, b: Vec, c: real)
    requires |a| == |b| && c > 0.0 && forall i :: 0 <= i < |a| ==> b[i] == a[i] * c
    ensures Mean(|b|, AbsValues(b)) == Mean(|a|, AbsValues(a)) * c
  {
    hide Sum;
    forall i | 0 <= i < |a| ensures AbsValues(b)(i) == c * AbsValues(a)(i) { AbsScaled(a[i], c); }
    SumScale(0, |a|, c, AbsValues(a), AbsValues(b));
    if |a| > 0 { ScaledQuotient(Sum(0, |a|, AbsValues(a)), |a| as real, c); }
  }

  lemma ScaledQuotient(x: real, n: real, c: real)
    requires n > 0.0
    ensures c * x / n == x / n * c
  {
  }

  /** The second weighting is invisible when the sensitivity is one, and when scores are normalised by a mean
    * that stays above the floor. */
  predicate WeighsAlike(en: Engine, par: Params, p: Problem)
    requires en.Valid()
  {
    en.Sens() == 1.0 || (par.normalize && MeanAbs(p.vs) >= EPS && MeanAbs(p.vs) * en.Sens() >= EPS)
  }

  lemma SameQuotient(x: real, m: real, c: real, cx: real, cm: real)
    requires m > 0.0 && cm > 0.0 && cx == x * c && cm == m * c
    ensures cx / cm == x / m
  {
    var q := x / m;
    assert x == q * m;
    assert cx == q * cm;
  }

  /** Normalising by the mean cancels a common factor, as long as the mean stays above the floor. */
  lemma FactorCancels(s: seq<Candidate>, vec: Vec, c: real)
    requires c > 0.0 && |vec| == |s| && forall i :: 0 <= i < |s| ==> vec[i] == s[i].score * c
    requires MeanAbs(s) >= EPS && MeanAbs(s) * c >= EPS
    ensures NormScores(vec) == Scores(Normalise(s))
  {
    hide Mean;
    MeanScaled(Scores(s), vec, c);
    var m, cm := MeanAbs(s), Mean(|vec|, AbsValues(vec));
    forall i | 0 <= i < |s| ensures NormScores(vec)[i] == Normalise(s)[i].score {
      SameQuotient(s[i].score, m, c, vec[i], cm);
    }
  }

  lemma WeighsAlikeRank(en: Engine, par: Params, p: Problem, row: Query, v: seq<Vec>)
    requires Posed(en, par, p, row, v) && Comparable(en) && par.wanted == Both && WeighsAlike(en, par, p)
    ensures BatchedRank(en, par, p, row, v) == Scores(MergedRank(par, p))
  {
    hide KCands, VCands, KScores, VScores, DistinctEntries, MeanAbs, NormScores, Normalise;
    PosedSizes(en, par, p, row, v);
    KRanks(en, par, p, row, v);
    ScoresRelate(en, v, row, p.kes, p.ves);
    var sv := VScores(en, row, p.ves);
    if en.Sens() == 1.0 {
      assert sv == Scores(p.vs);
      NormAgrees(p.vs);
    } else {
      FactorCancels(p.vs, sv, en.Sens());
    }
    assert RankScores(par.normalize, sv) == Scores(Ranked(p.vs, par.wanted, par.normalize));
    ScoresConcat(Ranked(p.ks, par.wanted, par.normalize), Ranked(p.vs, par.wanted, par.normalize));
  }

  lemma ScoresConcat(a: seq<Candidate>, b: seq<Candidate>)
    ensures Scores(a + b) == Scores(a) + Scores(b)
  {
  }

  /** Then, with two positive budgets and nothing dropped, the joint or the separate router's choice can always be
    * had from the batched path. */
  lemma WeighsAlikeChoice(en: Engine, par: Params, p: Problem, row: Query, v: seq<Vec>)
    requires Posed(en, par, p, row, v) && Comparable(en) && WeighsAlike(en, par, p)
    requires Plain(en.cfg.routePolicy) && NothingDropped(en, par, p, row)
    requires Budgets(en, par, p).0 > 0 <==> Budgets(en, par, p).1 > 0
    ensures SameChoice(en, par, p, row, v)
  {
    hide KCands, VCands, KScores, VScores, DistinctEntries, ReadBudgets, MergedRank, WeighsAlike, BatchedRank,
      MergedTop, Comparable, IsTopK, KeepsSplit, Leaders, TakingK, TakingV, NothingDropped, Columns, Merged;
    if Competing(en.cfg, par.wanted, |p.ks|, |p.vs|) && Budgets(en, par, p).0 > 0 {
      WeighsAlikeRank(en, par, p, row, v);
      var (bk, bv) := Budgets(en, par, p);
      RouterMerged(en, par, p, row, v, bk + bv);
      TopKeepsSplit(Scores(MergedRank(par, p)), bk + bv, MergedTop(par, p, bk + bv), |p.ks|);
    }
  }

  /** When the kinds compete and one of them alone has a budget, the two paths read the same slots if and only if
    * that many of its slots outscore every slot of the other kind, and no threshold drops any. */
  lemma OneSidedBudgetIff(en: Engine, par: Params, topk: TopK, view: HeadView, row: Query, v: seq<Vec>)
    requires en.Valid() && ViewOk(en.cfg, view) && MetaShaped(view.pages) && PagesInOrder(view.pages)
    requires |row.a| == TokenCount(view.pages) && Chooses(topk) && Comparable(en)
    requires var p := ProblemOf(en, par, view.pages, row, v);
      && TieFree(en, par, p, row, v) && Competing(en.cfg, par.wanted, |p.ks|, |p.vs|)
      && (Budgets(en, par, p).0 > 0) != (Budgets(en, par, p).1 > 0)
    ensures var p := ProblemOf(en, par, view.pages, row, v);
      var rank, (bk, bv) := Scores(MergedRank(par, p)), Budgets(en, par, p);
      && |p.ks| <= |rank|
      && (BatchedPicks(en, par, topk, Stored(en.cfg, KSlot, view.pages), Stored(en.cfg, VSlot, view.pages), row, v)
          == (ReadSet(en, par, view, row, v, KSlot), ReadSet(en, par, view, row, v, VSlot)) <==>
          NothingDropped(en, par, p, row)
          && if bv > 0 then |Leaders(rank, |p.ks|, |rank|)| >= bv else |Leaders(rank, 0, |p.ks|)| >= bk)
  {
    hide Chooses, BatchedPicks, ReadSet, TieFree, ProblemOf, Posed, Comparable, ViewOk, KeepsSplit, BatchedRank,
      ReadBudgets, Leaders, TakingK, TakingV, RoutedK, RoutedV, MergedTop, IsTopK, Columns, Merged, NothingDropped;
    var p := ProblemOf(en, par, view.pages, row, v);
    RouterSolves(en, par, view, row, v);
    RouterMerged(en, par, p, row, v, MergedBudget(Budgets(en, par, p).0, Budgets(en, par, p).1));
    SelectionsAgree(en, par, topk, view, row, v);
  }

  /** When the kinds compete, K alone has no budget and no threshold drops a slot, a single K slot that outscores
    * every V slot is read by the loop and not by the batched path. */
  lemma OneSidedBudgetDisagrees(en: Engine, par: Params, topk: TopK, view: HeadView, row: Query, v: seq<Vec>, i: nat)
    requires en.Valid() && ViewOk(en.cfg, view) && MetaShaped(view.pages) && PagesInOrder(view.pages)
    requires |row.a| == TokenCount(view.pages) && Comparable(en) && Chooses(topk)
    requires var p := ProblemOf(en, par, view.pages, row, v);
      var rank := Scores(MergedRank(par, p));
      && Competing(en.cfg, par.wanted, |p.ks|, |p.vs|) && Budgets(en, par, p).0 == 0 && Budgets(en, par, p).1 > 0
      && NothingDropped(en, par, p, row)
      && i < |p.ks| && forall j :: |p.ks| <= j < |rank| && i < |rank| ==> rank[i] > rank[j]
    ensures ReadSet(en, par, view, row, v, KSlot) != {}
    ensures BatchedPicks(en, par, topk, Stored(en.cfg, KSlot, view.pages), Stored(en.cfg, VSlot, view.pages), row,
                         v).0 == {}
  {
    hide Chooses, KScores, VScores, KCands, VCands, ReadBudgets, ReadSet, TakingK, TakingV, RoutedK, RoutedV,
      RouterChoice, NothingDropped, Comparable, MergedRank, Taking, MergedTop, ProblemOf, Posed, ViewOk, IsTopK,
      Columns, Merged, RowPicks;
    var p := ProblemOf(en, par, view.pages, row, v);
    var bv := Budgets(en, par, p).1;
    RouterSolves(en, par, view, row, v);
    Filtered(en, par, p, row, v);
    RouterMerged(en, par, p, row, v, bv);
    TakesTheBest(Scores(MergedRank(par, p)), bv, MergedTop(par, p, bv), |p.ks|, i);
    ColumnsEmpty(MergedTop(par, p, bv), 0, |p.ks|);
    BatchedLegal(en, par, topk, p, row, v);
    NoneSelected(RankScores(false, KScores(en, v, row, p.kes)), BatchedPicks(en, par, topk, p.kes, p.ves, row, v).0);
  }

  lemma TakesTheBest(s: Vec, n: nat, top: set<nat>, m: nat, i: nat)
    requires IsTopK(s, n, top) && n > 0 && i < m <= |s| && forall j :: m <= j < |s| ==> s[i] > s[j]
    ensures exists x :: x in top && x < m
  {
    if i !in top {
      var x :| x in top;
      Dominates(s, n, top, x, i);
      assert x < m;
    }
  }
}
