/** Inputs on which the batched path and the per-query loop part, one for each guard of their agreement.
  *
  * One head of one page: two tokens of equal weight with values 1 and -1, one stored K slot and two stored V
  * slots, whose scores the query and the stored errors set freely. */
module Divergence {

  import opened Numbers
  import opened Sums
  import opened Config
  import opened ResidualPack
  import opened Selection
  import opened Pages
  import opened Router
  import opened Correction
  import opened SlotLoop
  import opened ExactSoftmax
  import opened Batched
  import opened Vectorized
  import opened Choices
  import opened Selections
  import opened Policies
  import opened Agreement

  /** A joint policy with absolute budgets, at sensitivity `sens`. */
  function SmallEngine(sens: real, absK: int, absV: int): (en: Engine)
    requires sens > 0.0
    ensures en.Valid() && Comparable(en) && en.Sens() == sens
  {
    var budget := Budget(Absolute, 0.0, None, None, absK, absV);
    var cfg := CacheConfig(1, 1, 1, 2, 1, 4, 8, 1, false, 1, 1, budget, PerKind, budget, Both, 0.0, 0.0, 0,
                           Joint, CareKv, Uniform, [sens]);
    Engine(cfg, 0, Kernels(LineNorm, [[1.0]], _ => 0.0))
  }

  /** The Euclidean norm in one dimension. */
  function LineNorm(v: Vec): real { Abs(At(v, 0)) }

  function SmallMeta(e0: real, e1: real): PageMeta
  {
    PageMeta(0, 0, 0, 0, 2, [0], [0, 1], [0.000001], [e0, e1], [[0.000001]], 0.0)
  }

  /** The stored V residuals are twice `y0` and twice `y1`, both K residuals a millionth; the metadata holds their
    * norms and their mean. */
  function SmallView(y0: real, y1: real): HeadView
  {
    HeadView([PageState([], 2, Some(SmallMeta(2.0 * y0, 2.0 * y1)))],
             [PackBlock([[0.000001], [0.000001]], 1, 8)],
             [PackBlock([[2.0 * y0]], 1, 8), PackBlock([[2.0 * y1]], 1, 8)])
  }

  function SmallRow(x: real, o: real): Query { Query([x], [0.0, 0.0], [0.5, 0.5], [o]) }

  const VALUES: seq<Vec> := [[1.0], [-1.0]]

  function SmallParams(exact: bool, exp: real -> real): Params { Params(Both, 1.0, false, exact, exp, 1.0) }

  lemma SmallViewOk(sens: real, absK: int, absV: int, y0: real, y1: real)
    requires sens > 0.0
    ensures var en, view := SmallEngine(sens, absK, absV), SmallView(y0, y1);
      && ViewOk(en.cfg, view) && MetaShaped(view.pages) && PagesInOrder(view.pages) && TokenCount(view.pages) == 2
  {
    var view := SmallView(y0, y1);
    assert Cursor(view.pages, 1, false) == Cursor(view.pages, 0, false) + 2;
  }

  // ---- the slots ----

  const KENTRY := Entry(0, 0, 0, 0, 2, 0.000001, [0.000001])

  function VEntry(g: nat, y: real): Entry { Entry(0, g, g, g, 1, 2.0 * y, []) }

  lemma SmallEntries(sens: real, absK: int, absV: int, y0: real, y1: real)
    requires sens > 0.0
    ensures var en, view := SmallEngine(sens, absK, absV), SmallView(y0, y1);
      && MetaShaped(view.pages)
      && Stored(en.cfg, KSlot, view.pages) == [KENTRY]
      && Stored(en.cfg, VSlot, view.pages) == [VEntry(0, y0), VEntry(1, y1)]
  {
    var cfg, pages, m := SmallEngine(sens, absK, absV).cfg, SmallView(y0, y1).pages, SmallMeta(2.0 * y0, 2.0 * y1);
    assert PageEntries(cfg, KSlot, 0, 0, 2, m, 0) == [];
    assert PageEntries(cfg, KSlot, 0, 0, 2, m, 1) == [KENTRY];
    assert PageEntries(cfg, VSlot, 0, 0, 2, m, 0) == [];
    assert PageEntries(cfg, VSlot, 0, 0, 2, m, 1) == [VEntry(0, y0)];
    assert PageEntries(cfg, VSlot, 0, 0, 2, m, 2) == [VEntry(0, y0), VEntry(1, y1)];
    assert Entries(cfg, KSlot, pages, 0, false) == [] && Entries(cfg, VSlot, pages, 0, false) == [];
    assert Cursor(pages, 0, false) == 0;
  }

  // ---- their scores ----

  lemma SumOne(lo: int, f: int -> real)
    ensures Sum(lo, lo + 1, f) == f(lo)
  {
    assert Sum(lo, lo, f) == 0.0;
  }

  lemma SumTwo(f: int -> real)
    ensures Sum(0, 2, f) == f(0) + f(1)
  {
    SumOne(0, f);
  }

  lemma SmallDot(en: Engine, x: real)
    requires en.ker.proj == [[1.0]] && en.cfg.kChannelGroup == 1 && x >= 0.0
    ensures SketchDot(en, [x], KENTRY) == x * 0.000001
  {
    var e, q, w := KENTRY, [x], en.cfg.kChannelGroup;
    var f := j => Sum(0, w, c => At(q, e.group * w + c) * At2(en.ker.proj, c, j)) * At(e.sketch, j);
    forall j ensures Sum(0, w, c => At(q, e.group * w + c) * At2(en.ker.proj, c, j)) == x * At2(en.ker.proj, 0, j) {
      SumOne(0, c => At(q, e.group * w + c) * At2(en.ker.proj, c, j));
    }
    SumOne(0, f);
    assert f(0) == x * 1.0 * 0.000001;
  }

  lemma SmallRisk(x: real, o: real)
    ensures BoundaryRisk(SmallRow(x, o), 0, 2) == 1000000.0
  {
    var query := SmallRow(x, o);
    var top := if query.s == [] then 0.0 else MaxOf(query.s);
    assert top == 0.0;
    hide MaxOf;
    var f := t => At(query.a, t) * (1.0 / RMax(top - At(query.s, t), EPS));
    assert 1.0 / EPS == 1000000.0;
    assert f(0) == 500000.0 && f(1) == 500000.0;
    SumTwo(f);
  }

  lemma SmallSpread(ker: Kernels, x: real, o: real)
    requires ker.norm == LineNorm && -1.0 <= o <= 1.0
    ensures ValueSpread(ker, VALUES, SmallRow(x, o), 0, 2) == 1.0
  {
    var query := SmallRow(x, o);
    var f := t => At(query.a, t) * ker.norm(Sub(Row(VALUES, t), query.o));
    assert Sub(Row(VALUES, 0), query.o) == [1.0 - o] && Sub(Row(VALUES, 1), query.o) == [-1.0 - o];
    assert f(0) == 0.5 * (1.0 - o) && f(1) == 0.5 * (1.0 + o);
    SumTwo(f);
  }

  /** The K slot scores `x` times the sensitivity. */
  lemma SmallKScore(sens: real, absK: int, absV: int, x: real, o: real)
    requires sens > 0.0 && x >= 0.0 && -1.0 <= o <= 1.0
    ensures KScore(SmallEngine(sens, absK, absV), VALUES, SmallRow(x, o), KENTRY) == x * sens
  {
    var en, query := SmallEngine(sens, absK, absV), SmallRow(x, o);
    SumTwo(t => At(query.a, t));
    assert AttnMass(query.a, 0, 2) == 1.0;
    SmallDot(en, x);
    SmallRisk(x, o);
    SmallSpread(en.ker, x, o);
    hide AttnMass, SketchDot, BoundaryRisk, ValueSpread;
    assert KScore(en, VALUES, query, KENTRY) == 1.0 * (x * 0.000001) * 1000000.0 * 1.0 * sens;
  }

  /** A V slot scores its half error times the sensitivity. */
  lemma SmallVScore(sens: real, absK: int, absV: int, x: real, o: real, g: nat, y: real)
    requires sens > 0.0 && g < 2
    ensures VScore(SmallEngine(sens, absK, absV), SmallRow(x, o), VEntry(g, y)) == y * sens
  {
    var query := SmallRow(x, o);
    SumOne(g, t => At(query.a, t));
    assert AttnMass(query.a, g, 1) == 0.5;
  }

  /** The problem as both paths see it. */
  lemma SmallProblem(sens: real, absK: int, absV: int, x: real, o: real, y0: real, y1: real, exact: bool,
                     exp: real -> real)
    requires sens > 0.0 && x >= 0.0 && -1.0 <= o <= 1.0
    ensures MetaShaped(SmallView(y0, y1).pages)
    ensures var en := SmallEngine(sens, absK, absV);
      var p := ProblemOf(en, SmallParams(exact, exp), SmallView(y0, y1).pages, SmallRow(x, o), VALUES);
      && p.kes == [KENTRY] && p.ves == [VEntry(0, y0), VEntry(1, y1)]
      && |p.ks| == 1 && |p.vs| == 2
      && p.ks[0].score == x * sens && p.vs[0].score == y0 * sens && p.vs[1].score == y1 * sens
      && Scores(MergedRank(SmallParams(exact, exp), p)) == [x * sens, y0 * sens, y1 * sens]
  {
    SmallEntries(sens, absK, absV, y0, y1);
    SmallKScore(sens, absK, absV, x, o);
    SmallVScore(sens, absK, absV, x, o, 0, y0);
    SmallVScore(sens, absK, absV, x, o, 1, y1);
    hide KScore, VScore, Entries, SmallEngine, Comparable, MergedRank;
    var en, par := SmallEngine(sens, absK, absV), SmallParams(exact, exp);
    PlainRank(par, ProblemOf(en, par, SmallView(y0, y1).pages, SmallRow(x, o), VALUES));
  }

  lemma PlainRank(par: Params, p: Problem)
    requires !par.normalize && |p.ks| == 1 && |p.vs| == 2
    ensures Scores(MergedRank(par, p)) == [p.ks[0].score, p.vs[0].score, p.vs[1].score]
  {
    assert MergedRank(par, p) == [p.ks[0], p.vs[0], p.vs[1]];
  }

  lemma SmallBudgets(sens: real, absK: int, absV: int)
    requires sens > 0.0 && 0 <= absK && 0 <= absV
    ensures ReadBudgets(SmallEngine(sens, absK, absV), Both, 1, 2) == (Min(absK, 1), Min(absV, 2))
  {
    RoundOfInt(absK);
    RoundOfInt(absV);
  }

  lemma TwiceWeighted(y: real, sens: real, once: real, twice: real)
    requires once == y * sens && twice == once * sens
    ensures twice == y * sens * sens
  {
  }

  lemma BatchedOf(en: Engine, par: Params, p: Problem, row: Query, sens: real, x: real, y0: real, y1: real)
    requires en.Valid() && en.cfg.baseline == CareKv && en.Sens() == sens && !par.normalize
    requires p.ks == KCands(en, VALUES, row, p.kes) && p.vs == VCands(en, row, p.ves) && |p.kes| == 1 && |p.ves| == 2
    requires p.ks[0].score == x && p.vs[0].score == y0 * sens && p.vs[1].score == y1 * sens
    requires forall i :: 0 <= i < |p.ves| ==> p.ves[i].start + p.ves[i].len <= |row.a|
    ensures KScores(en, VALUES, row, p.kes) == [x]
    ensures VScores(en, row, p.ves) == [y0 * sens * sens, y1 * sens * sens]
    ensures BatchedRank(en, par, p, row, VALUES) == [x, y0 * sens * sens, y1 * sens * sens]
  {
    hide KScores, VScores, KCands, VCands, Engine.Sens;
    ScoresRelate(en, VALUES, row, p.kes, p.ves);
    var ks, vs := KScores(en, VALUES, row, p.kes), VScores(en, row, p.ves);
    assert ks[0] == Scores(p.ks)[0];
    assert ks == [x];
    TwiceWeighted(y0, sens, p.vs[0].score, vs[0]);
    TwiceWeighted(y1, sens, p.vs[1].score, vs[1]);
    var z0, z1 := y0 * sens * sens, y1 * sens * sens;
    assert vs == [z0, z1];
  }

  /** The batched path's scores: V carries the sensitivity twice. */
  lemma SmallBatched(sens: real, absK: int, absV: int, x: real, o: real, y0: real, y1: real, exact: bool,
                     exp: real -> real)
    requires sens > 0.0 && x >= 0.0 && -1.0 <= o <= 1.0 && MetaShaped(SmallView(y0, y1).pages)
    ensures var en, par, row := SmallEngine(sens, absK, absV), SmallParams(exact, exp), SmallRow(x, o);
      var p := ProblemOf(en, par, SmallView(y0, y1).pages, row, VALUES);
      && KScores(en, VALUES, row, p.kes) == [x * sens]
      && VScores(en, row, p.ves) == [y0 * sens * sens, y1 * sens * sens]
      && BatchedRank(en, par, p, row, VALUES) == [x * sens, y0 * sens * sens, y1 * sens * sens]
  {
    hide KScores, VScores, KCands, VCands, Entries, SmallEngine, Comparable, BatchedRank, SmallView, Scores;
    SmallProblem(sens, absK, absV, x, o, y0, y1, exact, exp);
    SmallComparable(sens, absK, absV);
    var en, par, row := SmallEngine(sens, absK, absV), SmallParams(exact, exp), SmallRow(x, o);
    BatchedOf(en, par, ProblemOf(en, par, SmallView(y0, y1).pages, row, VALUES), row, sens, x * sens, y0, y1);
  }

  lemma SmallComparable(sens: real, absK: int, absV: int)
    requires sens > 0.0
    ensures SmallEngine(sens, absK, absV).cfg.baseline == CareKv && SmallEngine(sens, absK, absV).Sens() == sens
    ensures SmallEngine(sens, absK, absV).cfg.routePolicy == Joint && SmallEngine(sens, absK, absV).cfg.headDim == 1
    ensures SmallEngine(sens, absK, absV).cfg.read.mode == Absolute
  {
  }

  // ---- the second weighting ----

  lemma TopTwo(s: Vec, top: set<nat>, a: nat, b: nat, c: nat)
    requires |s| == 3 && IsTopK(s, 2, top) && {a, b, c} == {0, 1, 2} && a != b && b != c && a != c
    requires s[a] > s[c] && s[b] > s[c]
    ensures a in top && b in top && c !in top
  {
    assert forall i :: i in top ==> i == a || i == b || i == c;
    if c in top {
      if a in top && b in top { SubsetSize({a, b, c}, top); }
    } else {
      SubsetSize(top, {a, b});
      if a !in top { SubsetSize(top, {b}); }
      if b !in top { SubsetSize(top, {a}); }
    }
  }

  lemma Inverse(sens: real, r: real)
    requires sens > 0.0 && r == 1.0 / sens
    ensures r * sens == 1.0 && r > 0.0 && 0.5 / sens == 0.5 * r
    ensures sens > 1.0 ==> r < 1.0
    ensures sens < 1.0 ==> r > 1.0
  {
    QuotientPositive(1.0, sens);
    DivAsMul(0.5, sens);
    ScaleIff(r, 1.0, sens);
    ScaleIff(1.0, r, sens);
  }

  lemma HalfWay(sens: real, r: real, y: real)
    requires r * sens == 1.0 && y == 0.5 + 0.5 * r
    ensures y * sens == 0.5 * sens + 0.5
  {
    assert y * sens == 0.5 * sens + 0.5 * (r * sens);
  }

  /** A factor that brings all scores of the input below the floor of the normaliser. */
  function Faint(sens: real): real
    requires sens > 0.0
  {
    MulPositive(1.0 + sens, 1.0 + 2.0 * sens);
    EPS / ((1.0 + sens) * (1.0 + 2.0 * sens))
  }

  /** The halved V errors of the two slots: the first is far ahead of everything, the second half-way between one
    * and the inverse of the sensitivity, so that the two weightings put it on different sides of the K slot. */
  function FaintFirst(sens: real): real
    requires sens > 0.0
  {
    Faint(sens) * (2.0 + 1.0 / sens)
  }

  function FaintSecond(sens: real): real
    requires sens > 0.0
  {
    Faint(sens) * (0.5 + 0.5 / sens)
  }

  lemma FaintSmall(sens: real, d: real)
    requires sens > 0.0 && d == Faint(sens)
    ensures d > 0.0 && 0.0 < d * sens <= EPS && 0.0 < d * (2.0 * sens + 1.0) <= EPS
    ensures d * (2.0 * sens + 1.0) * sens <= EPS
  {
    var a, b := 1.0 + sens, 1.0 + 2.0 * sens;
    MulPositive(a, b);
    QuotientPositive(EPS, a * b);
    assert d * (a * b) == EPS;
    MulPositive(d, b);
    MulPositive(d, sens);
    MulMono(1.0, a, d * b);
    MulMono(sens, a, d * b);
    MulMono(sens, b, d);
    assert a * (d * b) == EPS;
  }

  /** Scores as a floored normaliser leaves them. */
  function Lifted(on: bool, s: Vec): (r: Vec)
    ensures |r| == |s|
  {
    seq(|s|, i requires 0 <= i < |s| => if on then s[i] / EPS else s[i])
  }

  lemma LiftedOne(on: bool, x: real)
    requires 0.0 <= x <= EPS
    ensures RankScores(on, [x]) == Lifted(on, [x])
  {
    SumOne(0, AbsValues([x]));
    hide Sum;
    assert Mean(1, AbsValues([x])) == x;
  }

  lemma LiftedTwo(on: bool, x: real, y: real)
    requires 0.0 <= x <= EPS && 0.0 <= y <= EPS
    ensures RankScores(on, [x, y]) == Lifted(on, [x, y])
  {
    SumTwo(AbsValues([x, y]));
    hide Sum;
    assert Mean(2, AbsValues([x, y])) <= EPS;
  }

  /** The merged rankings of both paths, with normalisation below its floor or without. */
  lemma FaintRanks(en: Engine, par: Params, p: Problem, row: Query, k: real, a0: real, a1: real, b0: real, b1: real)
    requires en.Valid() && par.wanted == Both && |p.ks| == 1 && |p.vs| == 2
    requires p.ks[0].score == k && p.vs[0].score == a0 && p.vs[1].score == a1
    requires KScores(en, VALUES, row, p.kes) == [k] && VScores(en, row, p.ves) == [b0, b1]
    requires 0.0 <= k <= EPS && 0.0 <= a0 <= EPS && 0.0 <= a1 <= EPS && 0.0 <= b0 <= EPS && 0.0 <= b1 <= EPS
    ensures Scores(MergedRank(par, p)) == Lifted(par.normalize, [k, a0, a1])
    ensures BatchedRank(en, par, p, row, VALUES) == Lifted(par.normalize, [k, b0, b1])
  {
    hide KScores, VScores, NormScores, Normalise;
    LiftedOne(par.normalize, k);
    LiftedTwo(par.normalize, a0, a1);
    LiftedTwo(par.normalize, b0, b1);
    NormAgrees(p.ks);
    NormAgrees(p.vs);
    assert Scores(p.ks) == [k] && Scores(p.vs) == [a0, a1];
    ScoresConcat(Ranked(p.ks, par.wanted, par.normalize), Ranked(p.vs, par.wanted, par.normalize));
    assert Lifted(par.normalize, [k]) + Lifted(par.normalize, [a0, a1]) == Lifted(par.normalize, [k, a0, a1]);
    assert Lifted(par.normalize, [k]) + Lifted(par.normalize, [b0, b1]) == Lifted(par.normalize, [k, b0, b1]);
  }

  lemma LiftedCrosses(on: bool, s: Vec, w: Vec)
    requires Crosses(s, w)
    ensures Crosses(Lifted(on, s), Lifted(on, w))
  {
  }

  lemma SameProblem(en: Engine, par: Params, on: bool, pages: seq<PageState>, row: Query)
    requires en.Valid() && MetaShaped(pages)
    ensures ProblemOf(en, par.(normalize := on), pages, row, VALUES) == ProblemOf(en, par, pages, row, VALUES)
  {
    hide KCands, VCands;
  }

  lemma FaintScores(sens: real, d: real, y0: real, y1: real, a0: real, a1: real, b0: real, b1: real)
    requires sens > 0.0 && sens != 1.0 && d == Faint(sens) && y0 == FaintFirst(sens) && y1 == FaintSecond(sens)
    requires a0 == y0 * sens && a1 == y1 * sens && b0 == a0 * sens && b1 == a1 * sens
    ensures 0.0 <= d * sens <= EPS && 0.0 <= a0 <= EPS && 0.0 <= a1 <= EPS && 0.0 <= b0 <= EPS && 0.0 <= b1 <= EPS
    ensures Crosses([d * sens, a0, a1], [d * sens, b0, b1])
  {
    var r := 1.0 / sens;
    Inverse(sens, r);
    FaintSmall(sens, d);
    var x0, x1 := 2.0 + r, 0.5 + 0.5 * r;
    var c0, c1 := x0 * sens, x1 * sens;
    FirstLeads(sens, r, x0, c0);
    HalfWay(sens, r, x1);
    assert c0 == 2.0 * sens + 1.0 && c1 == 0.5 * sens + 0.5;
    Spread(sens, r, x0, x1, c0, c1, c0 * sens, c1 * sens);
    Reorder(d, x0, sens, y0, c0);
    Reorder(d, x1, sens, y1, c1);
    assert a0 == d * c0 && a1 == d * c1;
    Reorder(d, c0, sens, a0, c0 * sens);
    Reorder(d, c1, sens, a1, c1 * sens);
    FaintOrder(d, sens, c0, c1, c0 * sens, c1 * sens, a0, a1, b0, b1);
  }

  lemma Reorder(d: real, x: real, s: real, dx: real, xs: real)
    requires dx == d * x && xs == x * s
    ensures dx * s == d * xs
  {
  }

  lemma FaintOrder(d: real, s: real, c0: real, c1: real, e0: real, e1: real, a0: real, a1: real, b0: real, b1: real)
    requires d > 0.0 && s > 0.0 && s != 1.0 && a0 == d * c0 && a1 == d * c1 && b0 == d * e0 && b1 == d * e1
    requires c0 > s && c0 > c1 > 0.0 && e0 > s && e0 > e1 > 0.0 && a0 <= EPS && b0 <= EPS && d * s <= EPS
    requires (s > c1 && e1 > s) || (c1 > s && s > e1)
    ensures 0.0 <= d * s && 0.0 <= a0 && 0.0 <= a1 <= EPS && 0.0 <= b0 && 0.0 <= b1 <= EPS
    ensures Crosses([d * s, a0, a1], [d * s, b0, b1])
  {
    Scaled3(d, s, c0, c1, a0, a1);
    Scaled3(d, s, e0, e1, b0, b1);
  }

  /** A positive factor keeps the order of three scores. */
  lemma Scaled3(d: real, s: real, c0: real, c1: real, a0: real, a1: real)
    requires d > 0.0 && s > 0.0 && c0 > 0.0 && c1 > 0.0 && a0 == d * c0 && a1 == d * c1
    ensures d * s > 0.0 && a0 > 0.0 && a1 > 0.0
    ensures (c0 > s <==> a0 > d * s) && (c0 > c1 <==> a0 > a1) && (c1 > s <==> a1 > d * s) && (c1 < s <==> a1 < d * s)
  {
    MulPositive(d, s);
    MulPositive(d, c0);
    MulPositive(d, c1);
    ScaleIff(c0, s, d);
    ScaleIff(c0, c1, d);
    ScaleIff(c1, s, d);
    ScaleIff(s, c1, d);
  }

  /** A query without ties on which the two paths read different slots. */
  ghost predicate Diverges(en: Engine, par: Params, topk: TopK, view: HeadView, row: Query)
  {
    && en.Valid() && ViewOk(en.cfg, view) && MetaShaped(view.pages) && PagesInOrder(view.pages)
    && |row.a| == TokenCount(view.pages)
    && TieFree(en, par, ProblemOf(en, par, view.pages, row, VALUES), row, VALUES)
    && BatchedPicks(en, par, topk, Stored(en.cfg, KSlot, view.pages), Stored(en.cfg, VSlot, view.pages), row, VALUES)
       != (ReadSet(en, par, view, row, VALUES, KSlot), ReadSet(en, par, view, row, VALUES, VSlot))
  }

  lemma SmallDiverges(en: Engine, par: Params, topk: TopK, view: HeadView, row: Query, p: Problem)
    requires en.Valid() && ViewOk(en.cfg, view) && MetaShaped(view.pages) && PagesInOrder(view.pages)
    requires |row.a| == TokenCount(view.pages) && Chooses(topk) && Comparable(en)
    requires p == ProblemOf(en, par, view.pages, row, VALUES) && |p.ks| == 1 && |p.vs| == 2
    requires Posed(en, par, p, row, VALUES) && Budgets(en, par, p) == (1, 1)
    requires en.cfg.routePolicy == Joint && par.wanted == Both
    requires |KScores(en, VALUES, row, p.kes)| == 1 && |VScores(en, row, p.ves)| == 2
    requires Crosses(Scores(MergedRank(par, p)), BatchedRank(en, par, p, row, VALUES))
    ensures Diverges(en, par, topk, view, row)
  {
    hide Chooses, KScores, VScores, BatchedPicks, ReadSet, ReadBudgets, BatchedRank, MergedRank, MergedTop, ProblemOf,
      IsTopK, TakingK, TakingV, RoutedK, RoutedV, Taking, ViewOk, Crosses, Scores, KeepsSplit, DistinctScores,
      WellPosed, KCands, VCands, NothingDropped, TieFree;
    RouterMerged(en, par, p, row, VALUES, 2);
    SplitBroken(Scores(MergedRank(par, p)), BatchedRank(en, par, p, row, VALUES), MergedTop(par, p, 2));
    SmallTieFree(en, par, p, row);
    SelectionsAgree(en, par, topk, view, row, VALUES);
  }

  /** Both paths' scores, named. */
  lemma SmallScores(sens: real, x: real, y0: real, y1: real, k: real, a0: real, a1: real, b0: real, b1: real, on: bool,
                    exp: real -> real)
    requires sens > 0.0 && x >= 0.0
    requires k == x * sens && a0 == y0 * sens && a1 == y1 * sens && b0 == a0 * sens && b1 == a1 * sens
    ensures MetaShaped(SmallView(y0, y1).pages)
    ensures var en, par, row := SmallEngine(sens, 1, 1), SmallParams(false, exp).(normalize := on), SmallRow(x, 0.0);
      var p := ProblemOf(en, par, SmallView(y0, y1).pages, row, VALUES);
      && |p.kes| == 1 && |p.ves| == 2 && |p.ks| == 1 && |p.vs| == 2
      && p.ks[0].score == k && p.vs[0].score == a0 && p.vs[1].score == a1
      && KScores(en, VALUES, row, p.kes) == [k] && VScores(en, row, p.ves) == [b0, b1]
  {
    hide SmallEngine, SmallView, KScores, VScores, BatchedRank, MergedRank, ProblemOf, Scores, Comparable;
    SmallProblem(sens, 1, 1, x, 0.0, y0, y1, false, exp);
    SmallBatched(sens, 1, 1, x, 0.0, y0, y1, false, exp);
    SmallComparable(sens, 1, 1);
    SameProblem(SmallEngine(sens, 1, 1), SmallParams(false, exp), on, SmallView(y0, y1).pages, SmallRow(x, 0.0));
    assert [k] == [x * sens] && y0 * sens * sens == b0 && y1 * sens * sens == b1;
  }

  lemma SmallCrossed(sens: real, x: real, y0: real, y1: real, k: real, a0: real, a1: real, b0: real, b1: real, on: bool,
                     topk: TopK, exp: real -> real)
    requires sens > 0.0 && x >= 0.0 && Chooses(topk)
    requires k == x * sens && a0 == y0 * sens && a1 == y1 * sens && b0 == a0 * sens && b1 == a1 * sens
    requires 0.0 <= k <= EPS && 0.0 <= a0 <= EPS && 0.0 <= a1 <= EPS && 0.0 <= b0 <= EPS && 0.0 <= b1 <= EPS
    requires Crosses([k, a0, a1], [k, b0, b1])
    ensures Diverges(SmallEngine(sens, 1, 1), SmallParams(false, exp).(normalize := on), topk, SmallView(y0, y1),
                     SmallRow(x, 0.0))
  {
    hide Chooses, SmallEngine, SmallView, KScores, VScores, ReadBudgets, BatchedRank, MergedRank, ReadSet, RoutedK,
      RoutedV, ProblemOf, Posed, ViewOk, Lifted, Crosses, Scores, Diverges, Comparable;
    SmallScores(sens, x, y0, y1, k, a0, a1, b0, b1, on, exp);
    SmallViewOk(sens, 1, 1, y0, y1);
    SmallBudgets(sens, 1, 1);
    SmallComparable(sens, 1, 1);
    var en, par, view, row := SmallEngine(sens, 1, 1), SmallParams(false, exp).(normalize := on), SmallView(y0, y1),
                              SmallRow(x, 0.0);
    var p := ProblemOf(en, par, view.pages, row, VALUES);
    FaintRanks(en, par, p, row, k, a0, a1, b0, b1);
    LiftedCrosses(on, [k, a0, a1], [k, b0, b1]);
    RouterSolves(en, par, view, row, VALUES);
    SmallDiverges(en, par, topk, view, row, p);
  }

  /** At every positive sensitivity other than one there is an input without ties on which the two paths read
    * different slots, with both budgets positive: one K and two V slots compete for two reads. Scores are taken as
    * they come, or normalised by means below the floor. */
  lemma EverySensitivityDiverges(sens: real, on: bool, topk: TopK, exp: real -> real)
    requires sens > 0.0 && sens != 1.0 && Chooses(topk)
    ensures Diverges(SmallEngine(sens, 1, 1), SmallParams(false, exp).(normalize := on), topk,
                     SmallView(FaintFirst(sens), FaintSecond(sens)), SmallRow(Faint(sens), 0.0))
  {
    hide Diverges, SmallEngine, SmallView, Faint, FaintFirst, FaintSecond, Chooses, Crosses;
    var d, y0, y1 := Faint(sens), FaintFirst(sens), FaintSecond(sens);
    var a0, a1 := y0 * sens, y1 * sens;
    FaintSmall(sens, d);
    FaintScores(sens, d, y0, y1, a0, a1, a0 * sens, a1 * sens);
    SmallCrossed(sens, d, y0, y1, d * sens, a0, a1, a0 * sens, a1 * sens, on, topk, exp);
  }

  /** Column 0 and column 2 stand in different orders in the two rankings, both behind column 1. */
  predicate Crosses(s: Vec, w: Vec)
  {
    && |s| == |w| == 3 && s[1] > s[0] && s[1] > s[2] && w[1] > w[0] && w[1] > w[2]
    && ((s[0] > s[2] && w[0] < w[2]) || (s[0] < s[2] && w[0] > w[2]))
  }

  lemma SplitBroken(s: Vec, w: Vec, top: set<nat>)
    requires Crosses(s, w) && IsTopK(s, 2, top)
    ensures !KeepsSplit(w, top, 1) && DistinctScores(w)
  {
    if s[0] > s[2] { TopTwo(s, top, 0, 1, 2); } else { TopTwo(s, top, 1, 2, 0); }
  }

  /** The orders of the scores: `sens` for K, `a0` and `a1` for V, `b0` and `b1` for V weighted again. */
  lemma Spread(sens: real, r: real, y0: real, y1: real, a0: real, a1: real, b0: real, b1: real)
    requires sens > 0.0 && sens != 1.0 && r == 1.0 / sens && y0 == 2.0 + r && y1 == 0.5 + 0.5 * r
    requires a0 == y0 * sens && a1 == y1 * sens && b0 == a0 * sens && b1 == a1 * sens
    ensures a1 > 0.0 && b1 > 0.0 && a0 > sens && a0 > a1 && b0 > sens && b0 > b1
    ensures sens > 1.0 ==> sens > a1 && b1 > sens
    ensures sens < 1.0 ==> a1 > sens && sens > b1
  {
    Inverse(sens, r);
    FirstLeads(sens, r, y0, a0);
    HalfWay(sens, r, y1);
    MulPositive(a1, sens);
    StrictlyScaled(y1, y0, sens, a1, a0);
    StrictlyScaled(1.0, a0, sens, sens, b0);
    StrictlyScaled(a1, a0, sens, b1, b0);
    if sens > 1.0 {
      StrictlyScaled(y1, 1.0, sens, a1, sens);
      StrictlyScaled(1.0, a1, sens, sens, b1);
    } else {
      StrictlyScaled(1.0, y1, sens, sens, a1);
      StrictlyScaled(a1, 1.0, sens, b1, sens);
    }
  }

  lemma FirstLeads(sens: real, r: real, y0: real, a0: real)
    requires sens > 0.0 && r * sens == 1.0 && y0 == 2.0 + r && a0 == y0 * sens
    ensures a0 == 2.0 * sens + 1.0
  {
    assert a0 == 2.0 * sens + 1.0;
  }

  lemma StrictlyScaled(a: real, b: real, c: real, ca: real, cb: real)
    requires a < b && c > 0.0 && ca == a * c && cb == b * c
    ensures ca < cb
  {
    ScaleIff(b, a, c);
  }

  lemma SmallTieFree(en: Engine, par: Params, p: Problem, row: Query)
    requires en.Valid() && Budgets(en, par, p) == (1, 1) && par.wanted == Both
    requires en.cfg.routePolicy == Joint
    requires |KScores(en, VALUES, row, p.kes)| == 1 && |VScores(en, row, p.ves)| == 2
    requires DistinctScores(BatchedRank(en, par, p, row, VALUES))
    ensures TieFree(en, par, p, row, VALUES)
  {
    hide KScores, VScores, ReadBudgets, MergedRank;
  }

  // ---- one kind without a budget ----

  lemma VLeads(s: Vec)
    requires |s| == 3
    ensures |Leaders(s, 1, 3)| >= 1 <==> s[1] > s[0] || s[2] > s[0]
  {
    var ahead := Leaders(s, 1, 3);
    forall i: nat ensures i in ahead <==> 1 <= i < 3 && s[i] > s[0] {}
    hide Leaders;
    if s[1] > s[0] { assert 1 in ahead; }
    if s[2] > s[0] { assert 2 in ahead; }
    if ahead != {} { var i :| i in ahead; }
  }

  lemma KLeads(s: Vec)
    requires |s| == 3
    ensures |Leaders(s, 0, 1)| >= 1 <==> s[0] > s[1] && s[0] > s[2]
  {
    var ahead := Leaders(s, 0, 1);
    forall i: nat ensures i in ahead <==> i == 0 && s[0] > s[1] && s[0] > s[2] {}
    hide Leaders;
    if s[0] > s[1] && s[0] > s[2] { assert 0 in ahead; }
    if ahead != {} { var i :| i in ahead; }
  }

  lemma OneSidedTieFree(en: Engine, par: Params, p: Problem, row: Query)
    requires en.Valid() && en.cfg.routePolicy == Joint && !par.normalize
    requires Budgets(en, par, p) == (0, 1) || Budgets(en, par, p) == (1, 0)
    requires |KScores(en, VALUES, row, p.kes)| == 1 && |VScores(en, row, p.ves)| == 2
    requires DistinctScores(VScores(en, row, p.ves)) && DistinctScores(Scores(MergedRank(par, p)))
    requires |p.ks| == 1
    ensures TieFree(en, par, p, row, VALUES)
  {
    hide KScores, VScores, ReadBudgets, MergedRank;
  }

  /** One read for one kind and none for the other, among one K and two V slots of any distinct scores: a lone V
    * read is the same on both paths exactly when some V slot outscores the K slot, and a lone K read exactly when
    * the K slot outscores both V slots. So both guards fail on some inputs and hold on others. */
  lemma OneSidedInputs(lone: Kind, x: real, y0: real, y1: real, topk: TopK, exp: real -> real)
    requires x >= 0.0 && y0 > 0.0 && y1 > 0.0 && x != y0 && x != y1 && y0 != y1 && Chooses(topk)
    ensures var en, par, view, row := SmallEngine(1.0, if lone == KSlot then 1 else 0, if lone == KSlot then 0 else 1),
                                      SmallParams(false, exp), SmallView(y0, y1), SmallRow(x, 0.0);
      && ViewOk(en.cfg, view) && MetaShaped(view.pages) && PagesInOrder(view.pages)
      && (BatchedPicks(en, par, topk, Stored(en.cfg, KSlot, view.pages), Stored(en.cfg, VSlot, view.pages), row, VALUES)
          == (ReadSet(en, par, view, row, VALUES, KSlot), ReadSet(en, par, view, row, VALUES, VSlot))
          <==> if lone == KSlot then x > y0 && x > y1 else y0 > x || y1 > x)
  {
    hide Chooses, SmallEngine, SmallView, KScores, VScores, BatchedPicks, ReadSet, ReadBudgets, BatchedRank, MergedRank,
      MergedTop, ProblemOf, IsTopK, TakingK, TakingV, RoutedK, RoutedV, Taking, ViewOk, Leaders;
    var absK, absV := if lone == KSlot then 1 else 0, if lone == KSlot then 0 else 1;
    var en, par := SmallEngine(1.0, absK, absV), SmallParams(false, exp);
    var view, row := SmallView(y0, y1), SmallRow(x, 0.0);
    SmallViewOk(1.0, absK, absV, y0, y1);
    SmallProblem(1.0, absK, absV, x, 0.0, y0, y1, false, exp);
    SmallBatched(1.0, absK, absV, x, 0.0, y0, y1, false, exp);
    SmallBudgets(1.0, absK, absV);
    SmallComparable(1.0, absK, absV);
    var p := ProblemOf(en, par, view.pages, row, VALUES);
    assert Scores(MergedRank(par, p)) == [x, y0, y1];
    assert VScores(en, row, p.ves) == [y0, y1];
    OneSidedTieFree(en, par, p, row);
    OneSidedChoice(en, par, p, row, lone);
    hide Scores, TieFree, SameChoice, Comparable;
    SelectionsAgree(en, par, topk, view, row, VALUES);
  }

  lemma OneSidedChoice(en: Engine, par: Params, p: Problem, row: Query, lone: Kind)
    requires en.Valid() && en.cfg.routePolicy == Joint && par.wanted == Both
    requires en.cfg.read.mode == Absolute && Budgets(en, par, p) == if lone == KSlot then (1, 0) else (0, 1)
    requires |p.ks| == 1 && |p.vs| == 2 && |MergedRank(par, p)| == 3
    ensures var s := Scores(MergedRank(par, p));
      SameChoice(en, par, p, row, VALUES) <==>
      if lone == KSlot then s[0] > s[1] && s[0] > s[2] else s[1] > s[0] || s[2] > s[0]
  {
    hide MergedRank, ReadBudgets, Leaders, BatchedRank, Taking;
    VLeads(Scores(MergedRank(par, p)));
    KLeads(Scores(MergedRank(par, p)));
  }

  // ---- chunks ----

  lemma SmallWeights(x: real, o: real)
    ensures Weights(SmallRow(x, o).a) && Sum(0, 2, Times(Values(SmallRow(x, o).a), Column(VALUES, 0))) == 0.0
  {
    SumTwo(Values(SmallRow(x, o).a));
    SumTwo(Times(Values(SmallRow(x, o).a), Column(VALUES, 0)));
  }

  /** At sensitivity one, with two reads among one K and two V slots: the K slot is read unless both V slots
    * outscore it. */
  lemma SmallReads(topk: TopK, exp: real -> real, x: real, o: real, y0: real, y1: real)
    requires Chooses(topk) && x >= 0.0 && -1.0 <= o <= 1.0 && y0 > y1 && y0 > x && x != y1
    ensures ViewOk(SmallEngine(1.0, 1, 1).cfg, SmallView(y0, y1))
    ensures var en, par := SmallEngine(1.0, 1, 1), SmallParams(true, exp);
      RowReads(en, par, topk, SmallView(y0, y1), SmallRow(x, o), VALUES).0 == {} <==> y1 > x
  {
    hide Chooses, SmallEngine, SmallView, KScores, VScores, BatchedPicks, ReadBudgets, MergedRank, ProblemOf, IsTopK,
      ViewOk, Merged, SlotBlock, Entries;
    var en, par, view, row := SmallEngine(1.0, 1, 1), SmallParams(true, exp), SmallView(y0, y1), SmallRow(x, o);
    SmallViewOk(1.0, 1, 1, y0, y1);
    SmallProblem(1.0, 1, 1, x, o, y0, y1, true, exp);
    SmallBatched(1.0, 1, 1, x, o, y0, y1, true, exp);
    SmallBudgets(1.0, 1, 1);
    SmallComparable(1.0, 1, 1);
    var p := ProblemOf(en, par, view.pages, row, VALUES);
    SmallEntries(1.0, 1, 1, y0, y1);
    var r := BatchedPicks(en, par, topk, p.kes, p.ves, row, VALUES);
    BatchedLegal(en, par, topk, p, row, VALUES);
    KIsColumnZero(BatchedRank(en, par, p, row, VALUES), r.0, r.1);
  }

  lemma KIsColumnZero(s: Vec, x: set<nat>, y: set<nat>)
    requires |s| == 3 && s[1] > s[2] && s[1] > s[0] && s[0] != s[2]
    requires Below2(x, 1, y, 2) && IsTopK(s, 2, Merged(x, 1, y, 2))
    ensures x == {} <==> s[2] > s[0]
  {
    var top := Merged(x, 1, y, 2);
    if s[2] > s[0] { TopTwo(s, top, 1, 2, 0); } else { TopTwo(s, top, 0, 1, 2); }
    assert 0 in top <==> InMerged(x, 1, y, 0);
  }

  /** Two queries, the first reading the K slot and the second not: computed together or apart, the second one's
    * exact correction differs, because its base output is not what its weights give. No layer passes such an
    * output: each hands over the base attention it has just computed, for which ChunkingInvisible holds. */
  lemma ChunkedApart(topk: TopK, exp: real -> real)
    requires Chooses(topk) && Exponential(exp)
    ensures ViewOk(SmallEngine(1.0, 1, 1).cfg, SmallView(3.0, 1.0))
    ensures var en, par, view, rows := SmallEngine(1.0, 1, 1), SmallParams(true, exp), SmallView(3.0, 1.0),
                                       [SmallRow(2.0, 1.0), SmallRow(0.0, 1.0)];
      ChunkedRows(en, par, topk, view, rows, VALUES, 1) != ChunkedRows(en, par, topk, view, rows, VALUES, 0)
  {
    hide Chooses, SmallEngine, SmallView, RowReads, ChunkedRows, ViewOk, Exponential, Weights;
    var en, par, view := SmallEngine(1.0, 1, 1), SmallParams(true, exp), SmallView(3.0, 1.0);
    var rows := [SmallRow(2.0, 1.0), SmallRow(0.0, 1.0)];
    SmallViewOk(1.0, 1, 1, 3.0, 1.0);
    SmallComparable(1.0, 1, 1);
    SmallWeights(0.0, 1.0);
    SmallReads(topk, exp, 2.0, 1.0, 3.0, 1.0);
    SmallReads(topk, exp, 0.0, 1.0, 3.0, 1.0);
    assert ChunkOf(rows, 1, 1) == [rows[1]];
    AnyReads(en, par, topk, view, rows, VALUES, rows[0]);
    assert !AnyK(en, par, topk, view, [rows[1]], VALUES);
    ChunkingShows(en, par, topk, view, rows, VALUES, 1, 1, 0);
  }
}
