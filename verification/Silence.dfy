/** Slots on tokens that a query gives no weight, such as those of later pages under a causal mask: reading
  * them, or not, makes no difference. */
module Silence {

  import opened Numbers
  import opened Sums
  import opened Config
  import opened Pages
  import opened Router
  import opened ExactSoftmax
  import opened Correction
  import opened Batched

  /** Every token the slot covers has weight zero. */
  ghost predicate Silent(a: Vec, e: Entry) { forall t :: Covers(e, t) ==> At(a, t) == 0.0 }

  ghost function SilentSet(a: Vec, es: seq<Entry>): (r: set<nat>)
    ensures forall i: nat :: i in r <==> i < |es| && Silent(a, es[i])
  {
    set i: nat | i < |es| && Silent(a, es[i])
  }

  lemma SilentMass(a: Vec, e: Entry)
    requires Silent(a, e)
    ensures AttnMass(a, e.start, e.len) == 0.0
  {
    SumZero(e.start, e.start + e.len, t => At(a, t));
  }

  /** No weight is negative, so the silent slots are those without attention mass. */
  lemma SilentIffMassless(a: Vec, e: Entry)
    requires forall t :: 0 <= t < |a| ==> a[t] >= 0.0
    ensures Silent(a, e) <==> AttnMass(a, e.start, e.len) == 0.0
  {
    if Silent(a, e) {
      SilentMass(a, e);
    } else if AttnMass(a, e.start, e.len) == 0.0 {
      forall t | Covers(e, t) ensures At(a, t) == 0.0 {
        SumAtLeastOne(e.start, e.start + e.len, t => At(a, t), t);
      }
    }
  }

  /** Under the default formula a slot without mass scores zero: all such slots tie. */
  lemma SilentScoresZero(en: Engine, v: seq<Vec>, query: Query, e: Entry)
    requires en.Valid() && en.cfg.baseline == CareKv && Silent(query.a, e)
    ensures KScore(en, v, query, e) == 0.0 && VScore(en, query, e) == 0.0
  {
    SilentMass(query.a, e);
    var dot, risk := SketchDot(en, query.q, e), BoundaryRisk(query, e.start, e.len);
    var spread := ValueSpread(en.ker, v, query, e.start, e.len);
    hide SketchDot, BoundaryRisk, ValueSpread;
    assert AttnMass(query.a, e.start, e.len) == 0.0;
    assert 0.0 * dot * risk * spread * en.Sens() == 0.0;
  }

  /** Two selections that read the same slots, silent ones aside. */
  ghost predicate SameLive(a: Vec, es: seq<Entry>, x: set<nat>, y: set<nat>)
  {
    x - SilentSet(a, es) == y - SilentSet(a, es)
  }

  lemma LiveMember(a: Vec, es: seq<Entry>, x: set<nat>, y: set<nat>, i: nat)
    requires SameLive(a, es, x, y) && i < |es| && !Silent(a, es[i])
    ensures i in x <==> i in y
  {
    assert i in x - SilentSet(a, es) <==> i in y - SilentSet(a, es);
  }

  // ---- token by token ----

  lemma SameRho(a: Vec, slab: Slab, x: set<nat>, y: set<nat>, t: int, d: int)
    requires SameLive(a, slab.es, x, y) && At(a, t) != 0.0
    ensures Rho(slab, x, t, d) == Rho(slab, y, t, d)
  {
    hide SameLive;
    forall i | 0 <= i < |slab.es| ensures VPart(slab, x, t, d)(i) == VPart(slab, y, t, d)(i) {
      if Covers(slab.es[i], t) { LiveMember(a, slab.es, x, y, i); }
    }
    SumExt(0, |slab.es|, VPart(slab, x, t, d), VPart(slab, y, t, d));
  }

  lemma SameShift(w: nat, a: Vec, slab: Slab, x: set<nat>, y: set<nat>, q: Vec, t: int)
    requires SameLive(a, slab.es, x, y) && At(a, t) != 0.0
    ensures Shift(w, slab, x, q, t) == Shift(w, slab, y, q, t)
  {
    hide SameLive, KDot;
    forall i | 0 <= i < |slab.es| ensures KPart(w, slab, x, q, t)(i) == KPart(w, slab, y, q, t)(i) {
      if Covers(slab.es[i], t) { LiveMember(a, slab.es, x, y, i); }
    }
    SumExt(0, |slab.es|, KPart(w, slab, x, q, t), KPart(w, slab, y, q, t));
  }

  // ---- linear mode ----

  lemma SameVTerm(a: Vec, slab: Slab, x: set<nat>, y: set<nat>, d: int, t: int)
    requires SameLive(a, slab.es, x, y)
    ensures VTermAt(a, slab, x, d, t) == VTermAt(a, slab, y, d, t)
  {
    hide SameLive, Rho;
    if At(a, t) == 0.0 {
      ProdZero(Rho(slab, x, t, d));
      ProdZero(Rho(slab, y, t, d));
    } else {
      SameRho(a, slab, x, y, t, d);
    }
  }

  lemma SameKTerm(w: nat, row: Query, v: seq<Vec>, slab: Slab, x: set<nat>, y: set<nat>, d: int, t: int)
    requires SameLive(row.a, slab.es, x, y)
    ensures KTermAt(w, row, v, slab, x, d, t) == KTermAt(w, row, v, slab, y, d, t)
  {
    hide SameLive, Shift;
    if At(row.a, t) == 0.0 {
      ProdZero(Shift(w, slab, x, row.q, t));
      ProdZero(Shift(w, slab, y, row.q, t));
    } else {
      SameShift(w, row.a, slab, x, y, row.q, t);
    }
  }

  /** The linear correction of one coordinate. */
  function LinearAt(par: Params, w: nat, row: Query, v: seq<Vec>, kslab: Slab, vslab: Slab,
                    sk: set<nat>, sv: set<nat>, d: int): real
  {
    Sum(0, |row.a|, VTerm(row.a, vslab, sv, d)) + Prod(par.scale, Sum(0, |row.a|, KTerm(w, row, v, kslab, sk, d)))
  }

  lemma SameLinear(par: Params, w: nat, row: Query, v: seq<Vec>, kslab: Slab, vslab: Slab,
                   sk: set<nat>, sv: set<nat>, sk': set<nat>, sv': set<nat>, d: int)
    requires SameLive(row.a, kslab.es, sk, sk') && SameLive(row.a, vslab.es, sv, sv')
    ensures LinearAt(par, w, row, v, kslab, vslab, sk, sv, d) == LinearAt(par, w, row, v, kslab, vslab, sk', sv', d)
  {
    hide SameLive, VTermAt, KTermAt;
    forall t | 0 <= t < |row.a|
      ensures VTerm(row.a, vslab, sv, d)(t) == VTerm(row.a, vslab, sv', d)(t)
           && KTerm(w, row, v, kslab, sk, d)(t) == KTerm(w, row, v, kslab, sk', d)(t)
    {
      SameVTerm(row.a, vslab, sv, sv', d, t);
      SameKTerm(w, row, v, kslab, sk, sk', d, t);
    }
    SumExt(0, |row.a|, VTerm(row.a, vslab, sv, d), VTerm(row.a, vslab, sv', d));
    SumExt(0, |row.a|, KTerm(w, row, v, kslab, sk, d), KTerm(w, row, v, kslab, sk', d));
  }

  // ---- exact mode ----

  /** The clamp under the renormalising sum does not act on this selection. */
  ghost predicate Unclamped(par: Params, w: nat, row: Query, slab: Slab, sk: set<nat>)
  {
    par.rootD > 0.0 && Mass(par.exp, row.a, Shifts(w, row, slab, sk, par.rootD)) >= FLOOR
  }

  /** The exact correction of one coordinate, whether or not a K slot is read. */
  function ExactAt(par: Params, w: nat, row: Query, v: seq<Vec>, kslab: Slab, vslab: Slab,
                   sk: set<nat>, sv: set<nat>, d: int): real
    requires par.rootD > 0.0
  {
    ExactDelta(par.exp, row.a, Shifts(w, row, kslab, sk, par.rootD), CorrectedValue(v, vslab, sv, d), At(row.o, d))
  }

  lemma SameShifts(par: Params, w: nat, row: Query, slab: Slab, sk: set<nat>, sk': set<nat>)
    requires par.rootD > 0.0 && SameLive(row.a, slab.es, sk, sk')
    ensures forall t :: 0 <= t < |row.a| ==>
      row.a[t] == 0.0
      || Shifts(w, row, slab, sk, par.rootD)[t] == Shifts(w, row, slab, sk', par.rootD)[t]
  {
    hide SameLive, Shift;
    forall t | 0 <= t < |row.a| && row.a[t] != 0.0
      ensures Shift(w, slab, sk, row.q, t) == Shift(w, slab, sk', row.q, t)
    {
      SameShift(w, row.a, slab, sk, sk', row.q, t);
    }
  }

  lemma SameExact(par: Params, w: nat, row: Query, v: seq<Vec>, kslab: Slab, vslab: Slab,
                  sk: set<nat>, sv: set<nat>, sk': set<nat>, sv': set<nat>, d: int)
    requires Exponential(par.exp)
    requires SameLive(row.a, kslab.es, sk, sk') && SameLive(row.a, vslab.es, sv, sv')
    requires Unclamped(par, w, row, kslab, sk) && Unclamped(par, w, row, kslab, sk')
    ensures ExactAt(par, w, row, v, kslab, vslab, sk, sv, d) == ExactAt(par, w, row, v, kslab, vslab, sk', sv', d)
  {
    hide Exponential, SameLive, NewWeight, Mass, Rho, Shifts;
    var ds, ds' := Shifts(w, row, kslab, sk, par.rootD), Shifts(w, row, kslab, sk', par.rootD);
    var x, x' := CorrectedValue(v, vslab, sv, d), CorrectedValue(v, vslab, sv', d);
    var nw, nw' := NewWeight(par.exp, row.a, ds), NewWeight(par.exp, row.a, ds');
    SameShifts(par, w, row, kslab, sk, sk');
    forall t | 0 <= t < |row.a| ensures Times(nw, x)(t) == Times(nw', x')(t) {
      UnweightedShifts(par.exp, row.a, ds, ds', t);
      if row.a[t] == 0.0 {
        ProdZero(x(t));
        ProdZero(x'(t));
      } else {
        SameRho(row.a, vslab, sv, sv', t, d);
      }
    }
    SumExt(0, |row.a|, Times(nw, x), Times(nw', x'));
  }

  lemma NoShifts(par: Params, w: nat, row: Query, v: seq<Vec>, kslab: Slab, vslab: Slab)
    requires par.rootD > 0.0
    ensures forall t :: 0 <= t < |row.a| ==> Shifts(w, row, kslab, {}, par.rootD)[t] == 0.0
  {
    hide Shift;
    EmptySelection(par, w, row, v, kslab, vslab, 0);
  }

  /** In exact mode every coordinate is the exact form, even when no K slot is read. */
  lemma AlwaysExact(par: Params, cfg: CacheConfig, row: Query, v: seq<Vec>, kslab: Slab, vslab: Slab,
                    sk: set<nat>, sv: set<nat>, d: nat)
    requires par.exact && par.rootD > 0.0 && d < cfg.headDim
    requires Exponential(par.exp) && BaseAttention(row, v, cfg.headDim)
    ensures CorrectedAt(par, cfg.kChannelGroup, row, v, kslab, vslab, sk, sv, d)
         == ExactAt(par, cfg.kChannelGroup, row, v, kslab, vslab, sk, sv, d)
    ensures Unclamped(par, cfg.kChannelGroup, row, kslab, {})
  {
    hide Exponential, BaseAttention, ExactDelta, Shifts, Mass;
    NoShifts(par, cfg.kChannelGroup, row, v, kslab, vslab);
    var ds := Shifts(cfg.kChannelGroup, row, kslab, {}, par.rootD);
    assert Weights(row.a) by { BaseWeights(row, v, cfg.headDim); }
    NoShiftMass(par.exp, row.a, ds);
    if sk == {} { ExactWithoutKReads(par, cfg, row, v, kslab, vslab, sv, ds, d); }
  }

  lemma BaseWeights(row: Query, v: seq<Vec>, dim: nat)
    requires BaseAttention(row, v, dim)
    ensures Weights(row.a)
  {
  }

  // ---- the whole correction ----

  /** Reading a silent slot, or leaving it out, changes nothing: in linear mode always, and in exact mode for
    * base attention where the clamp does not act. */
  lemma SilentSlotsDoNothing(par: Params, cfg: CacheConfig, row: Query, v: seq<Vec>, kslab: Slab, vslab: Slab,
                             sk: set<nat>, sv: set<nat>, sk': set<nat>, sv': set<nat>)
    requires par.rootD > 0.0 && SameLive(row.a, kslab.es, sk, sk') && SameLive(row.a, vslab.es, sv, sv')
    requires par.exact ==>
      && Exponential(par.exp) && BaseAttention(row, v, cfg.headDim)
      && (sk == {} || Unclamped(par, cfg.kChannelGroup, row, kslab, sk))
      && (sk' == {} || Unclamped(par, cfg.kChannelGroup, row, kslab, sk'))
    ensures Corrected(par, cfg, row, v, kslab, vslab, sk, sv) == Corrected(par, cfg, row, v, kslab, vslab, sk', sv')
  {
    hide Exponential, BaseAttention, SameLive, Unclamped, ExactDelta, VTermAt, KTermAt, Sum;
    var w := cfg.kChannelGroup;
    forall d | 0 <= d < cfg.headDim
      ensures CorrectedAt(par, w, row, v, kslab, vslab, sk, sv, d)
           == CorrectedAt(par, w, row, v, kslab, vslab, sk', sv', d)
    {
      if par.exact {
        AlwaysExact(par, cfg, row, v, kslab, vslab, sk, sv, d);
        AlwaysExact(par, cfg, row, v, kslab, vslab, sk', sv', d);
        SameExact(par, w, row, v, kslab, vslab, sk, sv, sk', sv', d);
      } else {
        SameLinear(par, w, row, v, kslab, vslab, sk, sv, sk', sv', d);
      }
    }
  }
}
