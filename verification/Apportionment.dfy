/** Splitting an integer budget over units in proportion to their impact. */
module Apportionment {

  import opened Numbers
  import opened Selection
  import opened Sums

  // ---- integer totals ----

  function Total(s: seq<int>): int { if s == [] then 0 else Total(s[..|s| - 1]) + s[|s| - 1] }

  function AsReals(s: seq<int>): int -> real { t => if 0 <= t < |s| then s[t] as real else 0.0 }

  lemma {:induction false} TotalIsSum(s: seq<int>, n: nat)
    requires n <= |s|
    ensures Total(s[..n]) as real == Sum(0, n, AsReals(s))
  {
    if n == 0 {
    } else {
      TotalIsSum(s, n - 1);
      assert s[..n][..n - 1] == s[..n - 1];
    }
  }

  lemma {:induction false} TotalBump(s: seq<int>, i: nat)
    requires i < |s|
    ensures Total(s[i := s[i] + 1]) == Total(s) + 1
  {
    var n, t := |s| - 1, s[i := s[i] + 1];
    if i < n {
      TotalBump(s[..n], i);
      assert t[..n] == s[..n][i := s[..n][i] + 1];
    } else {
      assert t[..n] == s[..n];
    }
  }

  // ---- shares ----

  /** Negative impacts count as zero. */
  function Clamped(impact: Vec): (r: Vec)
    ensures |r| == |impact| && forall i :: 0 <= i < |r| ==> r[i] == RMax(impact[i], 0.0) >= 0.0
  {
    seq(|impact|, i requires 0 <= i < |impact| => RMax(impact[i], 0.0))
  }

  function Portion(a: real, s: real, t: real): real
    requires s != 0.0
  {
    a / s * t
  }

  lemma Rate(s: real, t: real) returns (c: real)
    requires s != 0.0
    ensures s * c == t && forall a :: Portion(a, s, t) == c * a
  {
    c := t / s;
    forall a ensures Portion(a, s, t) == c * a { Rescale(a, s, t); }
  }

  lemma Rescale(a: real, s: real, t: real)
    requires s != 0.0
    ensures Portion(a, s, t) == t / s * a
  {
  }

  /** Proportional shares; equal ones when nothing has impact. */
  function Shares(w: Vec, total: nat): (r: Vec)
    ensures |r| == |w|
  {
    var s := Sum(0, |w|, Values(w));
    seq(|w|, i requires 0 <= i < |w| =>
      if s > 0.0 then Portion(w[i], s, total as real) else total as real / |w| as real)
  }

  function Floors(x: Vec): (r: seq<int>)
    ensures |r| == |x| && forall i :: 0 <= i < |x| ==> r[i] == x[i].Floor
  {
    seq(|x|, i requires 0 <= i < |x| => x[i].Floor)
  }

  const TIE := 0.000000001

  /** The sort key: fractional part, plus a little of the impact. */
  function Keys(w: Vec, x: Vec): (r: Vec)
    requires |w| == |x|
    ensures |r| == |x|
  {
    seq(|x|, i requires 0 <= i < |x| => x[i] - x[i].Floor as real + w[i] * TIE)
  }

  /** Some order of the units, largest key first. Ties may fall either way. */
  ghost predicate IsOrder(keys: Vec, order: seq<nat>)
  {
    && |order| == |keys|
    && (forall i :: 0 <= i < |order| ==> order[i] < |keys|) && NoDup(order)
    && (forall i, j :: 0 <= i < j < |order| ==> keys[order[i]] >= keys[order[j]])
  }

  ghost predicate Sorts(argsort: Vec -> seq<nat>) { forall keys :: IsOrder(keys, argsort(keys)) }

  lemma {:induction false} SumOfConstant(n: nat, c: real, f: int -> real)
    requires forall t :: 0 <= t < n ==> f(t) == c
    ensures Sum(0, n, f) == n as real * c
  {
    if n == 0 {
    } else {
      SumOfConstant(n - 1, c, f);
    }
  }

  lemma EvenSplit(n: nat, t: real, f: int -> real)
    requires n > 0 && forall i :: 0 <= i < n ==> f(i) == t / n as real
    ensures Sum(0, n, f) == t
  {
    SumOfConstant(n, t / n as real, f);
  }

  lemma ScaledSplit(w: Vec, x: Vec, s: real, t: real)
    requires |x| == |w| && s != 0.0 && s == Sum(0, |w|, Values(w))
    requires forall i :: 0 <= i < |w| ==> x[i] == Portion(w[i], s, t)
    ensures Sum(0, |w|, Values(x)) == t
  {
    hide Portion, Sum;
    var c := Rate(s, t);
    forall i | 0 <= i < |w| ensures Values(x)(i) == c * Values(w)(i) { assert x[i] == Portion(w[i], s, t); }
    SumScale(0, |w|, c, Values(w), Values(x));
  }

  /** The shares add up to the budget, whatever the impacts. */
  lemma SharesAddUp(w: Vec, total: nat)
    requires w != []
    ensures Sum(0, |w|, Values(Shares(w, total))) == total as real
  {
    hide Portion, Sum;
    var s, x := Sum(0, |w|, Values(w)), Shares(w, total);
    if s > 0.0 { ScaledSplit(w, x, s, total as real); } else { EvenSplit(|w|, total as real, Values(x)); }
  }

  lemma ShareNonNegative(w: Vec, total: nat, i: nat)
    requires i < |w| && forall k :: 0 <= k < |w| ==> w[k] >= 0.0
    ensures Shares(w, total)[i] >= 0.0
  {
    var s := Sum(0, |w|, Values(w));
    if s > 0.0 {
      var q := w[i] / s;
      assert w[i] == q * s;
      ScaleIff(0.0, q, s);
      MulNonNeg(q, total as real);
    }
  }

  /** Larger impact, larger share. */
  lemma ShareMonotone(w: Vec, total: nat, i: nat, j: nat)
    requires i < |w| && j < |w| && w[j] <= w[i] && forall k :: 0 <= k < |w| ==> w[k] >= 0.0
    ensures Shares(w, total)[j] <= Shares(w, total)[i]
  {
    var s := Sum(0, |w|, Values(w));
    if s > 0.0 { ShareOrder(w[j], w[i], s, total as real); }
  }

  lemma ShareOrder(x: real, y: real, s: real, n: real)
    requires x <= y && s > 0.0 && n >= 0.0
    ensures x / s * n <= y / s * n
  {
    var a, b := x / s, y / s;
    assert x == a * s && y == b * s;
    ScaleIff(a, b, s);
    MulMono(a, b, n);
  }

  function Fractions(x: Vec): int -> real { t => if 0 <= t < |x| then x[t] - x[t].Floor as real else 0.0 }

  lemma {:induction false} FractionsBelow(x: Vec, n: nat)
    requires n <= |x|
    ensures 0.0 <= Sum(0, n, Fractions(x)) <= n as real && (n > 0 ==> Sum(0, n, Fractions(x)) < n as real)
  {
    if n == 0 {
    } else {
      FractionsBelow(x, n - 1);
    }
  }

  /** What the floors leave over is less than one slot a unit: the hand-out never wraps around. */
  lemma RemainderSmall(w: Vec, total: nat)
    requires w != [] && forall i :: 0 <= i < |w| ==> w[i] >= 0.0
    ensures 0 <= total - Total(Floors(Shares(w, total))) < |w|
  {
    var x, n := Shares(w, total), |w|;
    var f := Floors(x);
    SharesAddUp(w, total);
    TotalIsSum(f, n);
    assert f[..n] == f;
    SumAdd(0, n, AsReals(f), Fractions(x), Values(x));
    FractionsBelow(x, n);
  }

  // ---- the allocation ----

  /** Floors, with one more for the units at the front of the order. */
  ghost predicate Allocated(impact: Vec, total: int, argsort: Vec -> seq<nat>, alloc: seq<int>)
  {
    var w := Clamped(impact);
    if total <= 0 || impact == [] then alloc == seq(|impact|, _ => 0)
    else
      var x := Shares(w, total);
      var rem, order := total - Total(Floors(x)), argsort(Keys(w, x));
      && |alloc| == |impact| && 0 <= rem <= |order|
      && forall i :: 0 <= i < |alloc| ==> alloc[i] == x[i].Floor + if i in order[..rem] then 1 else 0
  }

  /** The hand-out loop: one more for each of the first `rem` units of the order. */
  method HandOut(x: Vec, order: seq<nat>, rem: nat) returns (alloc: seq<int>)
    requires |order| == |x| && NoDup(order) && (forall i :: 0 <= i < |order| ==> order[i] < |x|) && rem <= |x|
    ensures |alloc| == |x| && Total(alloc) == Total(Floors(x)) + rem
    ensures forall u :: 0 <= u < |x| ==> alloc[u] == x[u].Floor + if u in order[..rem] then 1 else 0
  {
    hide Total, NoDup;
    var n := |x|;
    var floor := new int[n](i requires 0 <= i < n => x[i].Floor);
    assert floor[..] == Floors(x);
    var i := 0;
    while i < rem
      invariant 0 <= i <= rem
      invariant Total(floor[..]) == Total(Floors(x)) + i
      invariant forall u :: 0 <= u < n ==> floor[u] == x[u].Floor + if u in order[..i] then 1 else 0
    {
      ghost var before := floor[..];
      SmallMod(i, n);
      var u := order[i % n];
      NextIsNew(order, i);
      assert order[..i + 1] == order[..i] + [u];
      TotalBump(before, u);
      floor[u] := floor[u] + 1;
      assert floor[..] == before[u := before[u] + 1];
      i := i + 1;
    }
    alloc := floor[..];
  }

  lemma SmallMod(i: nat, n: nat)
    requires i < n
    ensures i % n == i
  {
  }

  /** `allocate_impact_budget`: the total is conserved and nothing is negative. */
  method AllocateImpactBudget(impact: Vec, total: int, argsort: Vec -> seq<nat>) returns (alloc: seq<int>)
    requires Sorts(argsort)
    ensures |alloc| == |impact| && forall i :: 0 <= i < |alloc| ==> alloc[i] >= 0
    ensures impact != [] ==> Total(alloc) == Max(total, 0)
    ensures Allocated(impact, total, argsort, alloc)
  {
    hide Shares, Total;
    var n, w := |impact|, Clamped(impact);
    if total <= 0 || n == 0 {
      alloc := seq(n, _ => 0);
      TotalOfZeros(alloc);
      return;
    }
    var x := Shares(w, total);
    RemainderSmall(w, total);
    var rem := total - Total(Floors(x));
    var order := argsort(Keys(w, x));
    assert IsOrder(Keys(w, x), order);
    if rem > 0 {
      alloc := HandOut(x, order, rem);
    } else {
      alloc := Floors(x);
    }
    forall u | 0 <= u < n ensures alloc[u] >= 0 { ShareNonNegative(w, total, u); }
  }

  lemma NextIsNew(order: seq<nat>, i: nat)
    requires NoDup(order) && i < |order|
    ensures order[i] !in order[..i]
  {
  }

  lemma {:induction false} TotalOfZeros(s: seq<int>)
    requires forall i :: 0 <= i < |s| ==> s[i] == 0
    ensures Total(s) == 0
  {
    if s == [] {
    } else {
      TotalOfZeros(s[..|s| - 1]);
    }
  }

  /** Every unit gets its floored share or one more, and a unit with more impact never gets less; so the
    * largest allocation is a dominant unit's. */
  lemma ImpactOrder(impact: Vec, total: int, argsort: Vec -> seq<nat>, alloc: seq<int>, i: nat, j: nat)
    requires Sorts(argsort) && Allocated(impact, total, argsort, alloc) && total > 0
    requires i < |impact| && j < |impact|
    ensures |alloc| == |impact|
    ensures var x := Shares(Clamped(impact), total); x[i].Floor <= alloc[i] <= x[i].Floor + 1
    ensures Clamped(impact)[i] > Clamped(impact)[j] ==> alloc[i] >= alloc[j]
  {
    hide Shares;
    var w := Clamped(impact);
    var x := Shares(w, total);
    var rem, order := total - Total(Floors(x)), argsort(Keys(w, x));
    assert IsOrder(Keys(w, x), order);
    if w[i] > w[j] {
      ShareMonotone(w, total, i, j);
      if j in order[..rem] && x[i].Floor == x[j].Floor {
        assert Keys(w, x)[i] > Keys(w, x)[j];
        AheadOf(Keys(w, x), order, rem, i, j);
      }
    }
  }

  /** A strictly larger key stands earlier in the order. */
  lemma AheadOf(keys: Vec, order: seq<nat>, k: nat, i: nat, j: nat)
    requires IsOrder(keys, order) && k <= |order| && i < |keys| && j < |keys| && keys[i] > keys[j] && j in order[..k]
    ensures i in order[..k]
  {
    var q :| 0 <= q < k && order[..k][q] == j;
    Everyone(order, i);
    var p :| 0 <= p < |order| && order[p] == i;
    assert order[p] < |keys| && order[q] < |keys|;
    assert !(q < p);
    assert order[..k][p] == i;
  }

  // ---- largest remainder ----

  /** Fractional parts of the shares. */
  function Fracs(x: Vec): (f: Vec)
    ensures |f| == |x| && forall i :: 0 <= i < |x| ==> f[i] == x[i] - x[i].Floor as real
  {
    seq(|x|, i requires 0 <= i < |x| => x[i] - x[i].Floor as real)
  }

  /** The slots the floors leave over. */
  function LeftOver(x: Vec, total: int): int { total - Total(Floors(x)) }

  /** The units that got a left-over slot. */
  ghost function Favoured(x: Vec, alloc: seq<int>): (r: set<nat>)
    ensures forall i: nat :: i in r <==> i < |x| && i < |alloc| && alloc[i] > x[i].Floor
  {
    set i: nat | i < |x| && i < |alloc| && alloc[i] > x[i].Floor
  }

  /** The left-over slots went to the largest fractional parts, ties either way. */
  ghost predicate LargestRemainder(x: Vec, rem: nat, alloc: seq<int>) { IsTopK(Fracs(x), rem, Favoured(x, alloc)) }

  /** What the code does instead: the left-over slots go to the largest keys. */
  lemma FavouredByKey(impact: Vec, total: int, argsort: Vec -> seq<nat>, alloc: seq<int>)
    requires Sorts(argsort) && Allocated(impact, total, argsort, alloc) && total > 0 && impact != []
    ensures var w := Clamped(impact);
      var x := Shares(w, total);
      LeftOver(x, total) >= 0 && IsTopK(Keys(w, x), LeftOver(x, total), Favoured(x, alloc))
  {
    hide Shares, Total;
    var w := Clamped(impact);
    var x := Shares(w, total);
    var rem, order := LeftOver(x, total), argsort(Keys(w, x));
    assert IsOrder(Keys(w, x), order);
    var front := order[..rem];
    forall i: nat ensures i in Favoured(x, alloc) <==> i in front {
      if i in front { var p :| 0 <= p < rem && front[p] == i; assert order[p] == i; }
    }
    NoDupSize(front, Favoured(x, alloc));
    forall q: nat | q < rem ensures order[q] in front { assert front[q] == order[q]; }
    forall i, j | i in front && 0 <= j < |x| && j !in front ensures Keys(w, x)[i] >= Keys(w, x)[j] {
      var p :| 0 <= p < rem && front[p] == i;
      Everyone(order, j);
      var q :| 0 <= q < |order| && order[q] == j;
      assert order[p] == i && p < q;
    }
  }

  /** The impact term of the sort key does not turn the order of two fractional parts around. */
  predicate Undisturbed(w: Vec, x: Vec, i: nat, j: nat)
    requires i < |w| && j < |w| && |x| == |w|
  {
    (w[j] - w[i]) * TIE <= Fracs(x)[i] - Fracs(x)[j]
  }

  lemma KeyOrder(w: Vec, x: Vec, i: nat, j: nat)
    requires i < |w| && j < |w| && |x| == |w|
    ensures Keys(w, x)[i] >= Keys(w, x)[j] <==> Undisturbed(w, x, i, j)
  {
  }

  /** When the impact term turns no pair of fractional parts around, the allocation is the
    * largest-remainder one, for every budget. */
  lemma SmallImpacts(impact: Vec, total: int, argsort: Vec -> seq<nat>, alloc: seq<int>)
    requires Sorts(argsort) && Allocated(impact, total, argsort, alloc) && total > 0 && impact != []
    requires var w := Clamped(impact);
      var x := Shares(w, total);
      forall i, j :: 0 <= i < |x| && 0 <= j < |x| && Fracs(x)[i] < Fracs(x)[j] ==>
        (w[i] - w[j]) * TIE < Fracs(x)[j] - Fracs(x)[i]
    ensures var x := Shares(Clamped(impact), total);
      LeftOver(x, total) >= 0 && LargestRemainder(x, LeftOver(x, total), alloc)
  {
    hide Shares, Total, Allocated, Sorts, Keys;
    var w := Clamped(impact);
    var x := Shares(w, total);
    FavouredByKey(impact, total, argsort, alloc);
    var s := Favoured(x, alloc);
    forall i, j | i in s && 0 <= j < |x| && j !in s ensures Fracs(x)[i] >= Fracs(x)[j] { KeyOrder(w, x, i, j); }
  }

  /** Exactly: with no ties, let `best` be the units with the largest fractional parts. The allocation is
    * the largest-remainder one if and only if the impact term lets no unit outside `best` past one in it. */
  lemma LargestRemainderIff(impact: Vec, total: int, argsort: Vec -> seq<nat>, alloc: seq<int>, best: set<nat>)
    requires Sorts(argsort) && Allocated(impact, total, argsort, alloc) && total > 0 && impact != []
    requires var w := Clamped(impact);
      var x := Shares(w, total);
      && LeftOver(x, total) >= 0 && IsTopK(Fracs(x), LeftOver(x, total), best)
      && DistinctScores(Fracs(x)) && DistinctScores(Keys(w, x))
    ensures var w := Clamped(impact);
      var x := Shares(w, total);
      LargestRemainder(x, LeftOver(x, total), alloc) <==>
        forall i, j :: i in best && 0 <= j < |x| && j !in best ==> Undisturbed(w, x, i, j)
  {
    hide Shares, Total, Allocated, Sorts, Keys, Undisturbed, DistinctScores;
    var w := Clamped(impact);
    var x := Shares(w, total);
    var rem, s := LeftOver(x, total), Favoured(x, alloc);
    FavouredByKey(impact, total, argsort, alloc);
    forall i, j | i in best && 0 <= j < |x| ensures Keys(w, x)[i] >= Keys(w, x)[j] <==> Undisturbed(w, x, i, j) {
      KeyOrder(w, x, i, j);
    }
    if LargestRemainder(x, rem, alloc) {
      TopKUnique(Fracs(x), rem, s, best);
    } else if forall i, j :: i in best && 0 <= j < |x| && j !in best ==> Undisturbed(w, x, i, j) {
      TopKUnique(Keys(w, x), rem, s, best);
      assert false;
    }
  }

  /** Such inputs exist: with impacts this large, unit 1 has a larger fractional share than unit 0, and
    * unit 0 gets the left-over slot. */
  lemma NotLargestRemainder(argsort: Vec -> seq<nat>, alloc: seq<int>)
    requires Sorts(argsort)
    requires Allocated([15000000000.0, 6000000000.0, 9000000000.0], 3, argsort, alloc)
    ensures alloc == [2, 0, 1]
    ensures !LargestRemainder(Shares([15000000000.0, 6000000000.0, 9000000000.0], 3), 2, alloc)
  {
    hide Shares, Sum;
    var w := [15000000000.0, 6000000000.0, 9000000000.0];
    assert Clamped(w) == w;
    LargeShares(w);
    var x := Shares(w, 3);
    LargeKeys(w, x);
    hide Keys, Floors, Total, Clamped;
    var order := argsort(Keys(w, x));
    assert IsOrder(Keys(w, x), order);
    Everyone(order, 0);
    Everyone(order, 2);
    assert order[0] == 0 && order[1] == 2;
    assert 0 in Favoured(x, alloc) && 1 !in Favoured(x, alloc) && Fracs(x)[0] < Fracs(x)[1];
  }

  lemma LargeKeys(w: Vec, x: Vec)
    requires w == [15000000000.0, 6000000000.0, 9000000000.0] && x == [1.5, 0.6, 0.9]
    ensures Keys(w, x) == [15.5, 6.6, 9.9] && Total(Floors(x)) == 1
  {
    assert Floors(x) == [1, 0, 0];
    assert [1, 0, 0][..2] == [1, 0] && [1, 0][..1] == [1] && [1][..0] == [];
  }

  lemma LargeShares(w: Vec)
    requires w == [15000000000.0, 6000000000.0, 9000000000.0]
    ensures Shares(w, 3) == [1.5, 0.6, 0.9]
  {
    assert Sum(0, 1, Values(w)) == 15000000000.0;
    assert Sum(0, 2, Values(w)) == 21000000000.0;
    assert Sum(0, 3, Values(w)) == 30000000000.0;
  }
}
