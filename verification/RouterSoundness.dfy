/** What the router's choice guarantees under every policy and threshold. */
module RouterSoundness {

  import opened Numbers
  import opened Sums
  import opened Config
  import opened Selection
  import opened Pages
  import opened Router

  ghost predicate AllOfKind(s: seq<Candidate>, k: Kind) { forall i :: 0 <= i < |s| ==> s[i].kind == k }

  ghost predicate NonNegative(s: seq<Candidate>) { forall i :: 0 <= i < |s| ==> s[i].score >= 0.0 }

  /** No two candidates name the same slot position. */
  ghost predicate DistinctRefs(s: seq<Candidate>)
  {
    forall i, j :: 0 <= i < j < |s| ==> s[i].page != s[j].page || s[i].group != s[j].group
  }

  // ---- prefixes of a ranking ----

  lemma {:induction false} AtLeastPrefix(s: seq<Candidate>, bar: real)
    requires Descending(s)
    ensures AtLeast(s, bar) <= s
    ensures s != [] && s[|s| - 1].score >= bar ==> AtLeast(s, bar) == s
  {
    if s == [] {
    } else {
      AtLeastPrefix(s[..|s| - 1], bar);
    }
  }

  lemma PassesDownward(c: Candidate, d: Candidate, top: real, rel: real, abs: real)
    requires Passes(d, top, rel, abs) && c.score >= d.score >= 0.0
    ensures Passes(c, top, rel, abs)
  {
  }

  lemma {:induction false} PassingPrefix(s: seq<Candidate>, top: real, rel: real, abs: real)
    requires Descending(s) && NonNegative(s)
    ensures Passing(s, top, rel, abs) <= s
    ensures s != [] && Passes(s[|s| - 1], top, rel, abs) ==> Passing(s, top, rel, abs) == s
  {
    hide Passes;
    if s == [] {
    } else {
      var init := s[..|s| - 1];
      PassingPrefix(init, top, rel, abs);
      if init != [] && Passes(s[|s| - 1], top, rel, abs) {
        PassesDownward(init[|init| - 1], s[|s| - 1], top, rel, abs);
      }
    }
  }

  /** Thresholding keeps a prefix of the ranking. */
  lemma ThresholdPrefix(s: seq<Candidate>, rel: real, abs: real, minKeep: int)
    requires Descending(s) && NonNegative(s)
    ensures Threshold(s, rel, abs, minKeep) <= s
  {
    if s == [] { assert s <= s; } else { PassingPrefix(s, Abs(s[0].score), rel, abs); }
  }

  /** A slot is among the passing ones exactly when it is ranked and passes. */
  lemma {:induction false} PassingMembers(s: seq<Candidate>, top: real, rel: real, abs: real, c: Candidate)
    ensures c in Passing(s, top, rel, abs) <==> c in s && Passes(c, top, rel, abs)
  {
    hide Passes;
    if s == [] {
    } else {
      PassingMembers(s[..|s| - 1], top, rel, abs, c);
      assert s == s[..|s| - 1] + [s[|s| - 1]];
    }
  }

  /** What thresholding keeps of a ranking: its first slots, as many as pass, but no fewer than the minimum while there
    * are any. */
  lemma ThresholdKeeps(s: seq<Candidate>, rel: real, abs: real, minKeep: int)
    requires Descending(s) && NonNegative(s) && s != []
    ensures Threshold(s, rel, abs, minKeep)
         == Take(s, Max(|Passing(s, Abs(s[0].score), rel, abs)|, Max(0, Min(minKeep, |s|))))
    ensures |Threshold(s, rel, abs, minKeep)| >= Max(0, Min(minKeep, |s|))
  {
    PassingPrefix(s, Abs(s[0].score), rel, abs);
  }

  lemma {:induction false} PassingShrinks(s: seq<Candidate>, top: real, rel: real, rel': real, abs: real, abs': real)
    requires top >= 0.0 && rel <= rel' && abs <= abs'
    ensures |Passing(s, top, rel', abs')| <= |Passing(s, top, rel, abs)|
  {
    if s == [] {
    } else {
      PassingShrinks(s[..|s| - 1], top, rel, rel', abs, abs');
      if Passes(s[|s| - 1], top, rel', abs') { PassesMonotone(s[|s| - 1], top, rel, rel', abs, abs'); }
    }
  }

  lemma PassesMonotone(c: Candidate, top: real, rel: real, rel': real, abs: real, abs': real)
    requires top >= 0.0 && rel <= rel' && abs <= abs' && Passes(c, top, rel', abs')
    ensures Passes(c, top, rel, abs)
  {
    MulMono(rel, rel', top);
    if rel > 0.0 { assert rel * top <= rel' * top <= Abs(c.score); }
  }

  /** Raising either threshold never adds a read, whatever floor is kept. */
  lemma ThresholdMonotone(s: seq<Candidate>, rel: real, rel': real, abs: real, abs': real, minKeep: int)
    requires Descending(s) && NonNegative(s) && rel <= rel' && abs <= abs'
    ensures Threshold(s, rel', abs', minKeep) <= Threshold(s, rel, abs, minKeep)
  {
    if s != [] {
      var top := Abs(s[0].score);
      PassingPrefix(s, top, rel, abs);
      PassingPrefix(s, top, rel', abs');
      PassingShrinks(s, top, rel, rel', abs, abs');
      ShorterPrefix(Threshold(s, rel', abs', minKeep), Threshold(s, rel, abs, minKeep), s);
    }
  }

  lemma ShorterPrefix<T>(a: seq<T>, b: seq<T>, s: seq<T>)
    requires a <= s && b <= s && |a| <= |b|
    ensures a <= b
  {
    assert a == s[..|a|] && b == s[..|b|];
  }

  lemma {:induction false} SortOfSorted(s: seq<Candidate>)
    requires Descending(s)
    ensures SortDesc(s) == s
  {
    if s == [] {
    } else {
      SortOfSorted(s[..|s| - 1]);
      assert s == s[..|s| - 1] + [s[|s| - 1]];
    }
  }

  // ---- two kinds side by side ----

  lemma KindsOfConcat(a: seq<Candidate>, b: seq<Candidate>)
    requires AllOfKind(a, KSlot) && AllOfKind(b, VSlot)
    ensures OfKind(a + b, KSlot) == a && OfKind(a + b, VSlot) == b
  {
    OfKindConcat(a, b, KSlot);
    OfKindConcat(a, b, VSlot);
    OfKindAll(a, KSlot);
    OfKindAll(b, VSlot);
    OfKindNone(a, VSlot);
    OfKindNone(b, KSlot);
    assert a + [] == a && [] + b == b;
  }

  lemma SortKind(s: seq<Candidate>, k: Kind)
    requires AllOfKind(s, k)
    ensures AllOfKind(SortDesc(s), k)
  {
    forall i | 0 <= i < |s| ensures SortDesc(s)[i].kind == k {
      SortMembers(s, SortDesc(s)[i]);
    }
  }

  lemma SortNonNegative(s: seq<Candidate>)
    requires NonNegative(s)
    ensures NonNegative(SortDesc(s))
  {
    forall i | 0 <= i < |s| ensures SortDesc(s)[i].score >= 0.0 {
      SortMembers(s, SortDesc(s)[i]);
    }
  }

  lemma {:induction false} NoDupFromKinds(s: seq<Candidate>)
    requires NoDup(OfKind(s, KSlot)) && NoDup(OfKind(s, VSlot))
    ensures NoDup(s)
  {
    if s == [] {
    } else {
      var init, last := s[..|s| - 1], s[|s| - 1];
      assert NoDup(OfKind(init, KSlot)) && NoDup(OfKind(init, VSlot)) by {
        assert OfKind(init, KSlot) <= OfKind(s, KSlot) && OfKind(init, VSlot) <= OfKind(s, VSlot);
      }
      NoDupFromKinds(init);
      NoDupLast(OfKind(init, last.kind), last);
      OfKindMembers(init, last.kind, last);
    }
  }

  lemma NoDupLast<T>(s: seq<T>, x: T)
    requires NoDup(s + [x])
    ensures x !in s
  {
    forall i | 0 <= i < |s| ensures s[i] != x { assert (s + [x])[i] != (s + [x])[|s|]; }
  }

  /** A choice is sound when it repeats nothing and takes a prefix of each kind's ranking. */
  ghost predicate SoundChoice(sel: seq<Candidate>, ks: seq<Candidate>, vs: seq<Candidate>, budget: nat)
  {
    && |sel| <= budget
    && OfKind(sel, KSlot) <= SortDesc(ks)
    && OfKind(sel, VSlot) <= SortDesc(vs)
  }

  /** Two prefixes side by side, K before V. */
  lemma PairSound(pk: seq<Candidate>, pv: seq<Candidate>, ks: seq<Candidate>, vs: seq<Candidate>, budget: nat)
    requires AllOfKind(ks, KSlot) && AllOfKind(vs, VSlot)
    requires pk <= SortDesc(ks) && pv <= SortDesc(vs) && |pk| + |pv| <= budget
    ensures SoundChoice(pk + pv, ks, vs, budget)
  {
    SortKind(ks, KSlot);
    SortKind(vs, VSlot);
    PrefixKind(pk, SortDesc(ks), KSlot);
    PrefixKind(pv, SortDesc(vs), VSlot);
    KindsOfConcat(pk, pv);
  }

  lemma JointSound(ks: seq<Candidate>, vs: seq<Candidate>, n: nat)
    requires AllOfKind(ks, KSlot) && AllOfKind(vs, VSlot)
    ensures SoundChoice(Take(SortDesc(ks + vs), n), ks, vs, n)
  {
    KindsOfConcat(ks, vs);
    OfKindSort(ks + vs, KSlot);
    OfKindSort(ks + vs, VSlot);
    OfKindPrefix(SortDesc(ks + vs), n, KSlot);
    OfKindPrefix(SortDesc(ks + vs), n, VSlot);
  }

  lemma AdaptiveSound(ks: seq<Candidate>, vs: seq<Candidate>, total: nat, share: real)
    requires 0.0 <= share <= 1.0 && AllOfKind(ks, KSlot) && AllOfKind(vs, VSlot)
    ensures var vAlloc := VShare(total, share);
      SoundChoice(Take(SortDesc(ks), Max(0, total - vAlloc)) + Take(SortDesc(vs), vAlloc), ks, vs, total)
  {
    hide VShare, SortDesc;
    ShareBound(total, share);
    var vAlloc := VShare(total, share);
    PairSound(Take(SortDesc(ks), Max(0, total - vAlloc)), Take(SortDesc(vs), vAlloc), ks, vs, total);
  }

  lemma PolicySound(policy: RoutePolicy, ks: seq<Candidate>, vs: seq<Candidate>, bk: nat, bv: nat, share: real)
    requires 0.0 <= share <= 1.0 && AllOfKind(ks, KSlot) && AllOfKind(vs, VSlot)
    ensures SoundChoice(ByPolicy(policy, ks, vs, bk, bv, share), ks, vs, bk + bv)
  {
    hide SortDesc, AtLeast, MeanScore, OfKind, VShare, SoundChoice;
    var sk, sv := SortDesc(ks), SortDesc(vs);
    match policy
    case Joint =>
      JointSound(ks, vs, MergedBudget(bk, bv));
    case KFirst =>
      SortSorted(vs);
      AtLeastPrefix(sv, MeanScore(vs));
      var left := Max(0, bk + bv - |Take(sk, bk)|);
      PairSound(Take(sk, bk), if vs != [] && left > 0 then Take(AtLeast(sv, MeanScore(vs)), left) else [],
                ks, vs, bk + bv);
    case Adaptive =>
      AdaptiveSound(ks, vs, bk + bv, share);
    case Separate =>
      PairSound(Take(sk, bk), Take(sv, bv), ks, vs, bk + bv);
  }

  lemma ShareBound(total: nat, share: real)
    requires 0.0 <= share <= 1.0
    ensures VShare(total, share) <= total
  {
    MulMono(share, 1.0, total as real);
    RoundMonotone(total as real * share, total as real);
    RoundOfInt(total);
  }

  lemma PrefixDescending(p: seq<Candidate>, s: seq<Candidate>)
    requires p <= s && Descending(s)
    ensures Descending(p)
  {
    forall i, j | 0 <= i < j < |p| ensures p[i].score >= p[j].score { assert p[i] == s[i] && p[j] == s[j]; }
  }

  /** One kind after thresholding: still a prefix, and never more than before. */
  lemma ThresholdKind(p: seq<Candidate>, s: seq<Candidate>, k: Kind, cfg: CacheConfig)
    requires p <= SortDesc(s) && AllOfKind(s, k) && NonNegative(s)
    ensures var t := Threshold(SortDesc(p), cfg.relThreshold, cfg.absThreshold, cfg.minKeep);
      t <= p && AllOfKind(t, k)
  {
    SortSorted(s);
    SortKind(s, k);
    SortNonNegative(s);
    PrefixDescending(p, SortDesc(s));
    SortOfSorted(p);
    forall i | 0 <= i < |p| ensures p[i].kind == k && p[i].score >= 0.0 { assert p[i] == SortDesc(s)[i]; }
    ThresholdPrefix(p, cfg.relThreshold, cfg.absThreshold, cfg.minKeep);
  }

  lemma PrefixKind(p: seq<Candidate>, s: seq<Candidate>, k: Kind)
    requires p <= s && AllOfKind(s, k)
    ensures AllOfKind(p, k)
  {
    forall i | 0 <= i < |p| ensures p[i].kind == k { assert p[i] == s[i]; }
  }

  lemma {:induction false} KindSizes(s: seq<Candidate>)
    ensures |s| == |OfKind(s, KSlot)| + |OfKind(s, VSlot)|
  {
    if s == [] {
    } else {
      KindSizes(s[..|s| - 1]);
    }
  }

  /** Under every policy, with or without thresholds, on rankings of slots with distinct positions:
    * the total stays within the two budgets, nothing is read twice, and each kind's reads are a
    * prefix of its own score order. Zero budgets read nothing. */
  lemma RouterSound(en: Engine, a: Vec, ks: seq<Candidate>, vs: seq<Candidate>, wanted: Wanted, normalize: bool)
    requires en.Valid() && AllOfKind(ks, KSlot) && AllOfKind(vs, VSlot)
    requires DistinctRefs(ks) && DistinctRefs(vs)
    requires en.cfg.read.mode == AdaptiveScore ==> NonNegative(ks) && NonNegative(vs)
    ensures var sel := Choose(en, a, ks, vs, wanted, normalize);
      var b := ReadBudgets(en, wanted, |ks|, |vs|);
      && SoundChoice(sel, Ranked(ks, wanted, normalize), Ranked(vs, wanted, normalize), b.0 + b.1)
      && NoDup(sel)
      && (b.0 == 0 && b.1 == 0 ==> sel == [])
  {
    hide ReadBudgets, ByPolicy, EntropyShare, Threshold, NoDup, Ranked, SortDesc, SoundChoice, ByThreshold;
    var rk, rv := Ranked(ks, wanted, normalize), Ranked(vs, wanted, normalize);
    RankKeepsShape(ks, wanted, normalize, KSlot);
    RankKeepsShape(vs, wanted, normalize, VSlot);
    var (bk, bv) := ReadBudgets(en, wanted, |ks|, |vs|);
    var base := ByPolicy(en.cfg.routePolicy, rk, rv, bk, bv, EntropyShare(en.ker, a));
    PolicySound(en.cfg.routePolicy, rk, rv, bk, bv, EntropyShare(en.ker, a));
    var sel := Choose(en, a, ks, vs, wanted, normalize);
    ThresholdedSound(en.cfg, base, rk, rv, bk + bv);
    NothingSound(rk, rv);
    SoundNoDup(sel, rk, rv, bk + bv);
  }

  lemma NothingSound(ks: seq<Candidate>, vs: seq<Candidate>)
    ensures SoundChoice([], ks, vs, 0)
  {
  }

  lemma ThresholdedSound(cfg: CacheConfig, base: seq<Candidate>, ks: seq<Candidate>, vs: seq<Candidate>, budget: nat)
    requires SoundChoice(base, ks, vs, budget) && AllOfKind(ks, KSlot) && AllOfKind(vs, VSlot)
    requires cfg.read.mode == AdaptiveScore ==> NonNegative(ks) && NonNegative(vs)
    ensures SoundChoice(ByThreshold(cfg, base), ks, vs, budget)
  {
    hide Threshold, SortDesc, OfKind;
    if cfg.read.mode == AdaptiveScore {
      ThresholdKind(OfKind(base, KSlot), ks, KSlot, cfg);
      ThresholdKind(OfKind(base, VSlot), vs, VSlot, cfg);
      KindsOfConcat(Threshold(SortDesc(OfKind(base, KSlot)), cfg.relThreshold, cfg.absThreshold, cfg.minKeep),
                    Threshold(SortDesc(OfKind(base, VSlot)), cfg.relThreshold, cfg.absThreshold, cfg.minKeep));
      KindSizes(base);
    }
  }

  lemma SoundNoDup(sel: seq<Candidate>, ks: seq<Candidate>, vs: seq<Candidate>, budget: nat)
    requires SoundChoice(sel, ks, vs, budget) && NoDup(ks) && NoDup(vs)
    ensures NoDup(sel)
  {
    hide NoDup, SortDesc, OfKind;
    SortNoDup(ks);
    SortNoDup(vs);
    PrefixNoDup(OfKind(sel, KSlot), SortDesc(ks));
    PrefixNoDup(OfKind(sel, VSlot), SortDesc(vs));
    NoDupFromKinds(sel);
  }

  /** The router's own candidate lists meet those conditions on any page table. */
  lemma CandidatesDistinct(en: Engine, v: seq<Vec>, query: Query, pages: seq<PageState>, wanted: Wanted)
    requires en.Valid() && MetaShaped(pages)
    ensures AllOfKind(RouterK(en, v, query, pages, wanted), KSlot) && DistinctRefs(RouterK(en, v, query, pages, wanted))
    ensures AllOfKind(RouterV(en, query, pages, wanted), VSlot) && DistinctRefs(RouterV(en, query, pages, wanted))
  {
    hide KScore, VScore;
    EntriesWellPlaced(en.cfg, KSlot, pages, |pages|, true);
    EntriesWellPlaced(en.cfg, VSlot, pages, |pages|, true);
  }

  // ---- the router's own scores ----

  /** What attention, norms and stored errors are: none of them negative. */
  ghost predicate NonNegativeInputs(en: Engine, query: Query, pages: seq<PageState>)
  {
    && (forall x: Vec :: en.ker.norm(x) >= 0.0)
    && (forall t :: 0 <= t < |query.a| ==> query.a[t] >= 0.0)
    && ErrorsNonNegative(pages)
  }

  predicate ErrorsNonNegative(pages: seq<PageState>)
  {
    forall p, g :: 0 <= p < |pages| && pages[p].meta.Some? && 0 <= g < |pages[p].meta.value.vErr| ==>
      pages[p].meta.value.vErr[g] >= 0.0
  }

  lemma MassNonNegative(a: Vec, start: nat, len: nat)
    requires forall t :: 0 <= t < |a| ==> a[t] >= 0.0
    ensures AttnMass(a, start, len) >= 0.0
  {
    SumNonNeg(start, start + len, t => At(a, t));
  }

  lemma RiskNonNegative(query: Query, start: nat, len: nat)
    requires forall t :: 0 <= t < |query.a| ==> query.a[t] >= 0.0
    ensures BoundaryRisk(query, start, len) >= 0.0
  {
    var top := if query.s == [] then 0.0 else MaxOf(query.s);
    hide MaxOf;
    forall t ensures At(query.a, t) * (1.0 / RMax(top - At(query.s, t), EPS)) >= 0.0 {
      QuotientPositive(1.0, RMax(top - At(query.s, t), EPS));
      MulNonNeg(At(query.a, t), 1.0 / RMax(top - At(query.s, t), EPS));
    }
    SumNonNeg(start, start + len, t => At(query.a, t) * (1.0 / RMax(top - At(query.s, t), EPS)));
  }

  lemma SpreadNonNegative(ker: Kernels, v: seq<Vec>, query: Query, start: nat, len: nat)
    requires forall x: Vec :: ker.norm(x) >= 0.0
    requires forall t :: 0 <= t < |query.a| ==> query.a[t] >= 0.0
    ensures ValueSpread(ker, v, query, start, len) >= 0.0
  {
    forall t ensures At(query.a, t) * ker.norm(Sub(Row(v, t), query.o)) >= 0.0 {
      MulNonNeg(At(query.a, t), ker.norm(Sub(Row(v, t), query.o)));
    }
    SumNonNeg(start, start + len, t => At(query.a, t) * ker.norm(Sub(Row(v, t), query.o)));
  }

  lemma FiveNonNegative(a: real, b: real, c: real, d: real, e: real)
    requires a >= 0.0 && b >= 0.0 && c >= 0.0 && d >= 0.0 && e >= 0.0
    ensures a * b * c * d * e >= 0.0 && a * b >= 0.0 && b * a >= 0.0
  {
    MulNonNeg(a, b);
    MulNonNeg(a * b, c);
    MulNonNeg(a * b * c, d);
    MulNonNeg(a * b * c * d, e);
  }

  lemma DotNonNegative(en: Engine, q: Vec, e: Entry)
    ensures SketchDot(en, q, e) >= 0.0
  {
    hide Sum, At2;
  }

  lemma KScoreNonNegative(en: Engine, v: seq<Vec>, query: Query, pages: seq<PageState>, e: Entry)
    requires en.Valid() && NonNegativeInputs(en, query, pages)
    ensures KScore(en, v, query, e) >= 0.0
  {
    hide AttnMass, SketchDot, BoundaryRisk, ValueSpread, ErrorsNonNegative;
    MassNonNegative(query.a, e.start, e.len);
    RiskNonNegative(query, e.start, e.len);
    SpreadNonNegative(en.ker, v, query, e.start, e.len);
    DotNonNegative(en, query.q, e);
    FiveNonNegative(AttnMass(query.a, e.start, e.len), SketchDot(en, query.q, e),
                    BoundaryRisk(query, e.start, e.len), ValueSpread(en.ker, v, query, e.start, e.len), en.Sens());
  }

  lemma VScoreNonNegative(en: Engine, query: Query, pages: seq<PageState>, e: Entry)
    requires en.Valid() && NonNegativeInputs(en, query, pages) && e.err >= 0.0
    ensures VScore(en, query, e) >= 0.0
  {
    MassNonNegative(query.a, e.start, e.len);
    hide AttnMass, NonNegativeInputs;
    FiveNonNegative(AttnMass(query.a, e.start, e.len), e.err, en.Sens(), 1.0, 1.0);
  }

  lemma {:induction false} PageErrors(cfg: CacheConfig, p: nat, at: nat, valid: nat, m: PageMeta, j: nat)
    requires Shaped(m) && j <= |m.vSlots| && forall g :: 0 <= g < |m.vErr| ==> m.vErr[g] >= 0.0
    ensures forall i :: 0 <= i < |PageEntries(cfg, VSlot, p, at, valid, m, j)| ==>
      PageEntries(cfg, VSlot, p, at, valid, m, j)[i].err >= 0.0
  {
    if j == 0 {
    } else {
      PageErrors(cfg, p, at, valid, m, j - 1);
    }
  }

  lemma {:induction false} EntryErrors(cfg: CacheConfig, pages: seq<PageState>, n: nat)
    requires n <= |pages| && MetaShaped(pages) && ErrorsNonNegative(pages)
    ensures forall i :: 0 <= i < |Entries(cfg, VSlot, pages, n, true)| ==>
      Entries(cfg, VSlot, pages, n, true)[i].err >= 0.0
  {
    hide PageEntries;
    if n == 0 {
    } else {
      EntryErrors(cfg, pages, n - 1);
      var page := pages[n - 1];
      if Active(page) {
        PageErrors(cfg, n - 1, Cursor(pages, n - 1, true), page.valid, page.meta.value, |page.meta.value.vSlots|);
      }
    }
  }

  /** The router's scores are non-negative. */
  lemma ScoresNonNegative(en: Engine, v: seq<Vec>, query: Query, pages: seq<PageState>, wanted: Wanted)
    requires en.Valid() && MetaShaped(pages) && NonNegativeInputs(en, query, pages)
    ensures NonNegative(RouterK(en, v, query, pages, wanted)) && NonNegative(RouterV(en, query, pages, wanted))
  {
    hide KScore, VScore;
    var kes, ves := Entries(en.cfg, KSlot, pages, |pages|, true), Entries(en.cfg, VSlot, pages, |pages|, true);
    EntryErrors(en.cfg, pages, |pages|);
    forall i | 0 <= i < |kes| ensures KScore(en, v, query, kes[i]) >= 0.0 {
      KScoreNonNegative(en, v, query, pages, kes[i]);
    }
    forall i | 0 <= i < |ves| ensures VScore(en, query, ves[i]) >= 0.0 {
      VScoreNonNegative(en, query, pages, ves[i]);
    }
  }

  /** The whole router, in every mode and under every policy: within the two budgets, no repeats, and a
    * prefix of each kind's ranking. */
  lemma RoutedSound(en: Engine, v: seq<Vec>, query: Query, pages: seq<PageState>, wanted: Wanted, normalize: bool)
    requires en.Valid() && MetaShaped(pages)
    requires en.cfg.read.mode == AdaptiveScore ==> NonNegativeInputs(en, query, pages)
    ensures var sel := Routed(en, v, query, pages, wanted, normalize);
      var ks, vs := RouterK(en, v, query, pages, wanted), RouterV(en, query, pages, wanted);
      var b := ReadBudgets(en, wanted, |ks|, |vs|);
      NoDup(sel) && SoundChoice(sel, Ranked(ks, wanted, normalize), Ranked(vs, wanted, normalize), b.0 + b.1)
  {
    hide Choose, RouterK, RouterV, Ranked, ReadBudgets, NonNegativeInputs;
    CandidatesDistinct(en, v, query, pages, wanted);
    if en.cfg.read.mode == AdaptiveScore { ScoresNonNegative(en, v, query, pages, wanted); }
    RouterSound(en, query.a, RouterK(en, v, query, pages, wanted), RouterV(en, query, pages, wanted), wanted,
                normalize);
  }

  // ---- stricter thresholds ----

  /** The same engine but for thresholds at least as high. */
  ghost predicate Stricter(en: Engine, strict: Engine)
  {
    && strict == en.(cfg := en.cfg.(relThreshold := strict.cfg.relThreshold, absThreshold := strict.cfg.absThreshold))
    && en.cfg.relThreshold <= strict.cfg.relThreshold && en.cfg.absThreshold <= strict.cfg.absThreshold
  }

  lemma StricterParts(en: Engine, strict: Engine)
    requires en.Valid() && Stricter(en, strict)
    ensures strict.Valid() && strict.ker == en.ker && strict.layer == en.layer && strict.Sens() == en.Sens()
    ensures strict.cfg.kChannelGroup == en.cfg.kChannelGroup && strict.cfg.vTokenBlock == en.cfg.vTokenBlock
    ensures strict.cfg.baseline == en.cfg.baseline && strict.cfg.routePolicy == en.cfg.routePolicy
    ensures strict.cfg.read == en.cfg.read && strict.cfg.minKeep == en.cfg.minKeep
    ensures strict.Lm() == en.Lm()
  {
  }

  lemma SameDot(en: Engine, strict: Engine, q: Vec, e: Entry)
    requires strict.ker == en.ker && strict.cfg.kChannelGroup == en.cfg.kChannelGroup
    ensures SketchDot(strict, q, e) == SketchDot(en, q, e)
  {
    var w := en.cfg.kChannelGroup;
    var f := j => Sum(0, w, c => At(q, e.group * w + c) * At2(strict.ker.proj, c, j)) * At(e.sketch, j);
    var g := j => Sum(0, w, c => At(q, e.group * w + c) * At2(en.ker.proj, c, j)) * At(e.sketch, j);
    forall j ensures f(j) == g(j) {
      SumExt(0, w, c => At(q, e.group * w + c) * At2(strict.ker.proj, c, j),
             c => At(q, e.group * w + c) * At2(en.ker.proj, c, j));
    }
    SumExt(0, |e.sketch|, f, g);
  }

  lemma {:induction false} SamePageEntries(cfg: CacheConfig, strict: CacheConfig, kind: Kind, p: nat, at: nat,
                                           valid: nat, m: PageMeta, j: nat)
    requires Shaped(m) && j <= |Slots(m, kind)| && strict.vTokenBlock == cfg.vTokenBlock
    ensures PageEntries(strict, kind, p, at, valid, m, j) == PageEntries(cfg, kind, p, at, valid, m, j)
  {
    if j == 0 {
    } else {
      SamePageEntries(cfg, strict, kind, p, at, valid, m, j - 1);
    }
  }

  lemma {:induction false} SameEntries(cfg: CacheConfig, strict: CacheConfig, kind: Kind, pages: seq<PageState>, n: nat)
    requires n <= |pages| && MetaShaped(pages) && strict.vTokenBlock == cfg.vTokenBlock
    ensures Entries(strict, kind, pages, n, true) == Entries(cfg, kind, pages, n, true)
  {
    hide PageEntries;
    if n == 0 {
    } else {
      SameEntries(cfg, strict, kind, pages, n - 1);
      var page := pages[n - 1];
      if Active(page) {
        SamePageEntries(cfg, strict, kind, n - 1, Cursor(pages, n - 1, true), page.valid, page.meta.value,
                        |Slots(page.meta.value, kind)|);
      }
    }
  }

  lemma SameCandidates(en: Engine, strict: Engine, v: seq<Vec>, query: Query, pages: seq<PageState>, wanted: Wanted)
    requires en.Valid() && strict.Valid() && MetaShaped(pages) && Stricter(en, strict)
    ensures RouterK(strict, v, query, pages, wanted) == RouterK(en, v, query, pages, wanted)
    ensures RouterV(strict, query, pages, wanted) == RouterV(en, query, pages, wanted)
  {
    hide Stricter, AttnMass, SketchDot, BoundaryRisk, ValueSpread, Entries, Engine.Valid, Engine.Sens;
    StricterParts(en, strict);
    SameEntries(en.cfg, strict.cfg, KSlot, pages, |pages|);
    SameEntries(en.cfg, strict.cfg, VSlot, pages, |pages|);
    forall e ensures KScore(strict, v, query, e) == KScore(en, v, query, e) { SameDot(en, strict, query.q, e); }
    forall e ensures VScore(strict, query, e) == VScore(en, query, e) {}
    hide KScore, VScore;
  }

  /** Thresholding a choice at two strictnesses, one kind of it. */
  lemma StricterKind(base: seq<Candidate>, ranked: seq<Candidate>, k: Kind, cfg: CacheConfig, strict: CacheConfig)
    requires OfKind(base, k) <= SortDesc(ranked) && AllOfKind(ranked, k) && NonNegative(ranked)
    requires cfg.relThreshold <= strict.relThreshold && cfg.absThreshold <= strict.absThreshold
    requires cfg.minKeep == strict.minKeep
    ensures var p := SortDesc(OfKind(base, k));
      var t, t' := Threshold(p, cfg.relThreshold, cfg.absThreshold, cfg.minKeep),
                   Threshold(p, strict.relThreshold, strict.absThreshold, strict.minKeep);
      t' <= t && AllOfKind(t, k) && AllOfKind(t', k)
  {
    hide Threshold, OfKind;
    ThresholdKind(OfKind(base, k), ranked, k, cfg);
    ThresholdKind(OfKind(base, k), ranked, k, strict);
    SortSorted(OfKind(base, k));
    forall i | 0 <= i < |OfKind(base, k)| ensures OfKind(base, k)[i].score >= 0.0 {
      SortMembers(ranked, SortDesc(ranked)[i]);
    }
    SortNonNegative(OfKind(base, k));
    ThresholdMonotone(SortDesc(OfKind(base, k)), cfg.relThreshold, strict.relThreshold, cfg.absThreshold,
                      strict.absThreshold, cfg.minKeep);
  }

  lemma StricterThreshold(base: seq<Candidate>, rk: seq<Candidate>, rv: seq<Candidate>, cfg: CacheConfig,
                          strict: CacheConfig, k: Kind)
    requires OfKind(base, KSlot) <= SortDesc(rk) && OfKind(base, VSlot) <= SortDesc(rv)
    requires AllOfKind(rk, KSlot) && AllOfKind(rv, VSlot)
    requires cfg.read.mode == AdaptiveScore ==> NonNegative(rk) && NonNegative(rv)
    requires cfg.relThreshold <= strict.relThreshold && cfg.absThreshold <= strict.absThreshold
    requires cfg.minKeep == strict.minKeep && cfg.read == strict.read
    ensures OfKind(ByThreshold(strict, base), k) <= OfKind(ByThreshold(cfg, base), k)
  {
    hide Threshold, SortDesc, OfKind;
    if cfg.read.mode == AdaptiveScore {
      StricterKind(base, rk, KSlot, cfg, strict);
      StricterKind(base, rv, VSlot, cfg, strict);
      var pk, pv := SortDesc(OfKind(base, KSlot)), SortDesc(OfKind(base, VSlot));
      KindsOfConcat(Threshold(pk, cfg.relThreshold, cfg.absThreshold, cfg.minKeep),
                    Threshold(pv, cfg.relThreshold, cfg.absThreshold, cfg.minKeep));
      KindsOfConcat(Threshold(pk, strict.relThreshold, strict.absThreshold, strict.minKeep),
                    Threshold(pv, strict.relThreshold, strict.absThreshold, strict.minKeep));
    }
  }

  lemma SameBudgets(en: Engine, strict: Engine, wanted: Wanted, nk: nat, nv: nat)
    requires en.Valid() && strict.Valid() && Stricter(en, strict)
    ensures ReadBudgets(strict, wanted, nk, nv) == ReadBudgets(en, wanted, nk, nv)
  {
    hide KindBudget, Multiplier;
    StricterParts(en, strict);
  }

  /** Raising either threshold never adds a read: of each kind, the stricter router's reads are the first
    * few of the laxer one's, under every policy. */
  lemma RoutedMonotone(en: Engine, strict: Engine, v: seq<Vec>, query: Query, pages: seq<PageState>, wanted: Wanted,
                       normalize: bool, k: Kind)
    requires en.Valid() && strict.Valid() && MetaShaped(pages) && Stricter(en, strict)
    requires en.cfg.read.mode == AdaptiveScore ==> NonNegativeInputs(en, query, pages)
    ensures OfKind(Routed(strict, v, query, pages, wanted, normalize), k)
         <= OfKind(Routed(en, v, query, pages, wanted, normalize), k)
  {
    hide RouterK, RouterV, Ranked, ReadBudgets, NonNegativeInputs, ByPolicy, ByThreshold, EntropyShare, OfKind,
      Engine.Valid;
    SameCandidates(en, strict, v, query, pages, wanted);
    StricterParts(en, strict);
    var ks, vs := RouterK(en, v, query, pages, wanted), RouterV(en, query, pages, wanted);
    SameBudgets(en, strict, wanted, |ks|, |vs|);
    CandidatesDistinct(en, v, query, pages, wanted);
    if en.cfg.read.mode == AdaptiveScore { ScoresNonNegative(en, v, query, pages, wanted); }
    RankKeepsShape(ks, wanted, normalize, KSlot);
    RankKeepsShape(vs, wanted, normalize, VSlot);
    var rk, rv := Ranked(ks, wanted, normalize), Ranked(vs, wanted, normalize);
    var (bk, bv) := ReadBudgets(en, wanted, |ks|, |vs|);
    PolicySound(en.cfg.routePolicy, rk, rv, bk, bv, EntropyShare(en.ker, query.a));
    StricterThreshold(ByPolicy(en.cfg.routePolicy, rk, rv, bk, bv, EntropyShare(en.ker, query.a)), rk, rv, en.cfg,
                      strict.cfg, k);
  }

  // ---- every mode, signed scores included ----

  /** Nothing repeats, and everything chosen was ranked. */
  ghost predicate Subselection(sel: seq<Candidate>, s: seq<Candidate>)
  {
    NoDup(sel) && forall c :: c in sel ==> c in s
  }

  lemma {:induction false} PassingSub(s: seq<Candidate>, top: real, rel: real, abs: real)
    requires NoDup(s)
    ensures Subselection(Passing(s, top, rel, abs), s)
  {
    if s == [] {
    } else {
      var init := s[..|s| - 1];
      PassingSub(init, top, rel, abs);
      assert s[|s| - 1] !in init;
    }
  }

  lemma ThresholdSub(p: seq<Candidate>, cfg: CacheConfig)
    requires NoDup(p)
    ensures Subselection(Threshold(SortDesc(p), cfg.relThreshold, cfg.absThreshold, cfg.minKeep), p)
  {
    var s := SortDesc(p);
    SortNoDup(p);
    forall c | c in s ensures c in p { SortMembers(p, c); }
    if s != [] { PassingSub(s, Abs(s[0].score), cfg.relThreshold, cfg.absThreshold); }
  }

  lemma ThresholdKindSub(p: seq<Candidate>, k: Kind, cfg: CacheConfig)
    requires NoDup(p) && AllOfKind(p, k)
    ensures var t := Threshold(SortDesc(p), cfg.relThreshold, cfg.absThreshold, cfg.minKeep);
      Subselection(t, p) && AllOfKind(t, k)
  {
    ThresholdSub(p, cfg);
    var t := Threshold(SortDesc(p), cfg.relThreshold, cfg.absThreshold, cfg.minKeep);
    forall i | 0 <= i < |t| ensures t[i].kind == k { assert t[i] in t; }
  }

  lemma OfKindShape(s: seq<Candidate>, k: Kind)
    ensures AllOfKind(OfKind(s, k), k)
  {
    forall i | 0 <= i < |OfKind(s, k)| ensures OfKind(s, k)[i].kind == k {
      OfKindMembers(s, k, OfKind(s, k)[i]);
    }
  }

  /** In every mode, the reads of one kind are distinct candidates of that kind's ranking. */
  lemma ChoiceSub(en: Engine, a: Vec, ks: seq<Candidate>, vs: seq<Candidate>, wanted: Wanted, normalize: bool)
    requires en.Valid() && AllOfKind(ks, KSlot) && AllOfKind(vs, VSlot)
    requires DistinctRefs(ks) && DistinctRefs(vs)
    ensures var sel := Choose(en, a, ks, vs, wanted, normalize);
      Subselection(OfKind(sel, KSlot), Ranked(ks, wanted, normalize))
      && Subselection(OfKind(sel, VSlot), Ranked(vs, wanted, normalize))
  {
    hide ReadBudgets, ByPolicy, EntropyShare, Threshold;
    var rk, rv := Ranked(ks, wanted, normalize), Ranked(vs, wanted, normalize);
    RankKeepsShape(ks, wanted, normalize, KSlot);
    RankKeepsShape(vs, wanted, normalize, VSlot);
    var (bk, bv) := ReadBudgets(en, wanted, |ks|, |vs|);
    var base := ByPolicy(en.cfg.routePolicy, rk, rv, bk, bv, EntropyShare(en.ker, a));
    PolicySound(en.cfg.routePolicy, rk, rv, bk, bv, EntropyShare(en.ker, a));
    var pk, pv := OfKind(base, KSlot), OfKind(base, VSlot);
    PrefixSub(pk, rk);
    PrefixSub(pv, rv);
    if en.cfg.read.mode == AdaptiveScore && (bk > 0 || bv > 0) {
      OfKindShape(base, KSlot);
      OfKindShape(base, VSlot);
      ThresholdKindSub(pk, KSlot, en.cfg);
      ThresholdKindSub(pv, VSlot, en.cfg);
      KindsOfConcat(Threshold(SortDesc(pk), en.cfg.relThreshold, en.cfg.absThreshold, en.cfg.minKeep),
                    Threshold(SortDesc(pv), en.cfg.relThreshold, en.cfg.absThreshold, en.cfg.minKeep));
    }
  }

  lemma PrefixSub(p: seq<Candidate>, s: seq<Candidate>)
    requires p <= SortDesc(s) && NoDup(s)
    ensures Subselection(p, s)
  {
    SortNoDup(s);
    PrefixNoDup(p, SortDesc(s));
    forall c | c in p ensures c in s {
      var i :| 0 <= i < |p| && p[i] == c;
      assert SortDesc(s)[i] == c;
      SortMembers(s, c);
    }
  }

  lemma PrefixNoDup(p: seq<Candidate>, s: seq<Candidate>)
    requires p <= s && NoDup(s)
    ensures NoDup(p)
  {
    forall i, j | 0 <= i < j < |p| ensures p[i] != p[j] { assert p[i] == s[i] && p[j] == s[j]; }
  }

  lemma RankKeepsShape(s: seq<Candidate>, wanted: Wanted, normalize: bool, k: Kind)
    requires AllOfKind(s, k) && DistinctRefs(s)
    ensures var r := Ranked(s, wanted, normalize);
      |r| == |s| && AllOfKind(r, k) && NoDup(r) && (NonNegative(s) ==> NonNegative(r))
      && forall i :: 0 <= i < |s| ==> r[i].page == s[i].page && r[i].group == s[i].group && r[i].slot == s[i].slot
  {
    var r := Ranked(s, wanted, normalize);
    var mean := MeanAbs(s);
    var scale := if mean > EPS then mean else EPS;
    if NonNegative(s) {
      forall i | 0 <= i < |s| ensures r[i].score >= 0.0 {
        if s[i].score > 0.0 { QuotientPositive(s[i].score, scale); }
      }
    }
  }

  ghost predicate NoReadBudget(r: Budget)
  {
    if r.mode == Ratio then ResolvedRatio(r.ratioK, r.ratio) <= 0.0 && ResolvedRatio(r.ratioV, r.ratio) <= 0.0
    else r.absK <= 0 && r.absV <= 0
  }

  lemma NoBudgets(en: Engine, wanted: Wanted, totalK: nat, totalV: nat)
    requires en.Valid() && NoReadBudget(en.cfg.read)
    ensures ReadBudgets(en, wanted, totalK, totalV) == (0, 0)
  {
    hide Multiplier, Round;
    var r, lm := en.cfg.read, en.Lm();
    MultiplierNonNegative(en.cfg.budgetPolicy, en.cfg.layerSensitivity, en.cfg.numLayers, en.layer);
    if r.mode == Ratio {
      MulNonNeg(-ResolvedRatio(r.ratioK, r.ratio), lm);
      MulNonNeg(-ResolvedRatio(r.ratioV, r.ratio), lm);
    } else {
      assert 0.0 * lm == 0.0;
      RoundOfInt(0);
    }
  }

  /** No positive budget anywhere means no read. */
  lemma ZeroBudgetReadsNothing(en: Engine, v: seq<Vec>, query: Query, pages: seq<PageState>,
                               wanted: Wanted, normalize: bool)
    requires en.Valid() && MetaShaped(pages) && NoReadBudget(en.cfg.read)
    ensures Routed(en, v, query, pages, wanted, normalize) == []
  {
    hide ReadBudgets, NoReadBudget;
    NoBudgets(en, wanted, |RouterK(en, v, query, pages, wanted)|, |RouterV(en, query, pages, wanted)|);
  }
}
