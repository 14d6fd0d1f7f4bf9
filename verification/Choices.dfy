/** Which selections are legal answers of the batched top-k, when there is only one, and which rankings of
  * two kinds together survive another weighting of one of them. */
module Choices {

  import opened Numbers
  import opened Config
  import opened Selection
  import opened Batched

  // ---- one mask for two kinds ----

  predicate InMerged(x: set<nat>, off: nat, y: set<nat>, i: nat) { if i < off then i in x else i - off in y }

  /** A mask over `off` columns of one kind and `n` of the other, side by side. */
  function Merged(x: set<nat>, off: nat, y: set<nat>, n: nat): set<nat>
  {
    set i: nat | i < off + n && InMerged(x, off, y, i)
  }

  lemma MergedColumns(top: set<nat>, off: nat, n: nat)
    requires forall i :: i in top ==> i < off + n
    ensures Merged(Columns(top, 0, off), off, Columns(top, off, n), n) == top
  {
    forall i: nat | i < off + n
      ensures InMerged(Columns(top, 0, off), off, Columns(top, off, n), i) <==> i in top
    {
      if i < off {
        assert InColumn(top, 0, i) <==> i in top;
      } else {
        assert InColumn(top, off, i - off) <==> i in top;
      }
    }
  }

  /** Columns of a mask that has no others number as many as the mask. */
  lemma {:induction false} ColumnsSize(top: set<nat>, off: nat, n: nat)
    requires forall i :: i in top ==> off <= i < off + n
    ensures |Columns(top, off, n)| == |top|
  {
    if n == 0 {
      assert top == {} && Columns(top, off, n) == {};
    } else {
      hide Columns;
      var rest := top - {off + n - 1};
      ColumnsSize(rest, off, n - 1);
      LastColumn(top, off, n - 1);
      if off + n - 1 in top {
        assert |Columns(rest, off, n - 1) + {n - 1}| == |Columns(rest, off, n - 1)| + 1;
      } else {
        assert rest == top && Columns(rest, off, n - 1) + {} == Columns(rest, off, n - 1);
      }
    }
  }

  lemma LastColumn(top: set<nat>, off: nat, n: nat)
    ensures var before := Columns(top - {off + n}, off, n);
      n !in before && Columns(top, off, n + 1) == before + if off + n in top then {n} else {}
  {
    var rest := top - {off + n};
    forall j: nat ensures j in Columns(top, off, n + 1) <==> j in Columns(rest, off, n) || (j == n && off + n in top) {
      assert InColumn(rest, off, j) <==> off + j in rest;
      assert InColumn(top, off, j) <==> off + j in top;
    }
  }

  // ---- legal selections ----

  predicate Below2(x: set<nat>, m: nat, y: set<nat>, n: nat)
  {
    (forall i :: i in x ==> i < m) && (forall j :: j in y ==> j < n)
  }

  /** What the batched path may read for one row, whichever way its top-k breaks ties. */
  ghost predicate LegalPicks(cfg: CacheConfig, wanted: Wanted, normalize: bool, sk: Vec, sv: Vec, bk: nat, bv: nat,
                             x: set<nat>, y: set<nat>)
  {
    var on := Rescaled(wanted, normalize, bk, bv);
    var rk, rv := RankScores(on, sk), RankScores(on, sv);
    if Merging(cfg, wanted, bk, bv) then
      Below2(x, |rk|, y, |rv|) && IsTopK(rk + rv, Min(bk + bv, |rk + rv|), Merged(x, |rk|, y, |rv|))
    else
      IsTopK(rk, Min(bk, |rk|), x) && IsTopK(rv, Min(bv, |rv|), y)
  }

  lemma RowPicksLegal(cfg: CacheConfig, topk: TopK, wanted: Wanted, normalize: bool, sk: Vec, sv: Vec, bk: nat, bv: nat)
    requires Chooses(topk)
    ensures var r := RowPicks(cfg, topk, wanted, normalize, sk, sv, bk, bv);
      LegalPicks(cfg, wanted, normalize, sk, sv, bk, bv, r.0, r.1)
  {
    hide RankScores, Columns, Merged;
    var on := Rescaled(wanted, normalize, bk, bv);
    var rk, rv := RankScores(on, sk), RankScores(on, sv);
    if Merging(cfg, wanted, bk, bv) {
      var top := topk(rk + rv, Min(bk + bv, |rk + rv|));
      assert IsTopK(rk + rv, Min(bk + bv, |rk + rv|), top);
      MergedColumns(top, |rk|, |rv|);
      ColumnsBelow(top, |rk|, |rv|);
    } else {
      NothingIsTop(rk);
      NothingIsTop(rv);
    }
  }

  lemma ColumnsBelow(top: set<nat>, m: nat, n: nat)
    ensures Below2(Columns(top, 0, m), m, Columns(top, m, n), n)
  {
  }

  lemma NothingIsTop(s: Vec)
    ensures IsTopK(s, 0, {})
  {
  }

  /** Scores that the row's selection compares are equal only among the quiet slots. */
  ghost predicate TiesQuiet(cfg: CacheConfig, wanted: Wanted, normalize: bool, sk: Vec, sv: Vec, bk: nat, bv: nat,
                            qk: set<nat>, qv: set<nat>)
  {
    var on := Rescaled(wanted, normalize, bk, bv);
    var rk, rv := RankScores(on, sk), RankScores(on, sv);
    if Merging(cfg, wanted, bk, bv) then TiesWithin(rk + rv, Merged(qk, |rk|, qv, |rv|))
    else (bk > 0 ==> TiesWithin(rk, qk)) && (bv > 0 ==> TiesWithin(rv, qv))
  }

  lemma NoneSelected(s: Vec, x: set<nat>)
    requires IsTopK(s, 0, x)
    ensures x == {}
  {
  }

  lemma OneKindUnique(s: Vec, b: nat, x: set<nat>, x': set<nat>, quiet: set<nat>)
    requires IsTopK(s, Min(b, |s|), x) && IsTopK(s, Min(b, |s|), x') && (b > 0 ==> TiesWithin(s, quiet))
    ensures x - quiet == x' - quiet
  {
    if b == 0 {
      NoneSelected(s, x);
      NoneSelected(s, x');
    } else {
      TopKUniqueUpTo(s, Min(b, |s|), x, x', quiet);
    }
  }

  /** When only quiet slots tie, all legal selections read the same slots besides. */
  lemma LegalUnique(cfg: CacheConfig, wanted: Wanted, normalize: bool, sk: Vec, sv: Vec, bk: nat, bv: nat,
                    x: set<nat>, y: set<nat>, x': set<nat>, y': set<nat>, qk: set<nat>, qv: set<nat>)
    requires LegalPicks(cfg, wanted, normalize, sk, sv, bk, bv, x, y)
    requires LegalPicks(cfg, wanted, normalize, sk, sv, bk, bv, x', y')
    requires TiesQuiet(cfg, wanted, normalize, sk, sv, bk, bv, qk, qv)
    ensures x - qk == x' - qk && y - qv == y' - qv
  {
    hide RankScores, IsTopK, TiesWithin, Merged;
    var on := Rescaled(wanted, normalize, bk, bv);
    var rk, rv := RankScores(on, sk), RankScores(on, sv);
    if Merging(cfg, wanted, bk, bv) {
      var m, n := |rk|, |rv|;
      TopKUniqueUpTo(rk + rv, Min(bk + bv, |rk + rv|), Merged(x, m, y, n), Merged(x', m, y', n), Merged(qk, m, qv, n));
      MergedMinus(x, y, x', y', qk, qv, m, n);
    } else {
      OneKindUnique(rk, bk, x, x', qk);
      OneKindUnique(rv, bv, y, y', qv);
    }
  }

  lemma MergedMinus(x: set<nat>, y: set<nat>, x': set<nat>, y': set<nat>, qk: set<nat>, qv: set<nat>, m: nat, n: nat)
    requires Below2(x, m, y, n) && Below2(x', m, y', n)
    requires Merged(x, m, y, n) - Merged(qk, m, qv, n) == Merged(x', m, y', n) - Merged(qk, m, qv, n)
    ensures x - qk == x' - qk && y - qv == y' - qv
  {
    forall i: nat | i < m && i !in qk ensures i in x <==> i in x' {
      assert InMerged(x, m, y, i) <==> i in x;
      assert InMerged(x', m, y', i) <==> i in x';
      assert !InMerged(qk, m, qv, i);
      assert i in Merged(x, m, y, n) - Merged(qk, m, qv, n) <==> i in Merged(x', m, y', n) - Merged(qk, m, qv, n);
    }
    forall j: nat | j < n && j !in qv ensures j in y <==> j in y' {
      var i := m + j;
      assert InMerged(x, m, y, i) <==> j in y;
      assert InMerged(x', m, y', i) <==> j in y';
      assert !InMerged(qk, m, qv, i);
      assert i in Merged(x, m, y, n) - Merged(qk, m, qv, n) <==> i in Merged(x', m, y', n) - Merged(qk, m, qv, n);
    }
  }

  // ---- one kind has no budget ----

  /** The columns from `lo` to `hi` that outscore every column outside them. */
  ghost function Leaders(s: Vec, lo: nat, hi: nat): (r: set<nat>)
    requires hi <= |s|
    ensures forall i: nat :: i in r <==> lo <= i < hi && forall j :: 0 <= j < |s| && !(lo <= j < hi) ==> s[i] > s[j]
  {
    set i: nat | i < hi && lo <= i && forall j :: 0 <= j < |s| && !(lo <= j < hi) ==> s[i] > s[j]
  }

  lemma SubsetSize<T>(a: set<T>, b: set<T>)
    requires a <= b
    ensures |a| <= |b|
  {
    assert |b - a| == |b| - |a|;
  }

  /** No column of `lo..hi` ties with one outside. */
  ghost predicate Apart(s: Vec, lo: nat, hi: nat)
  {
    forall i, j :: lo <= i < hi && i < |s| && 0 <= j < |s| && !(lo <= j < hi) ==> s[i] != s[j]
  }

  /** A top-`n` stays within one kind if and only if at least `n` slots of that kind outscore all of the
    * other. */
  lemma WithinIff(s: Vec, n: nat, top: set<nat>, lo: nat, hi: nat)
    requires IsTopK(s, n, top) && hi <= |s| && Apart(s, lo, hi)
    ensures (forall i :: i in top ==> lo <= i < hi) <==> |Leaders(s, lo, hi)| >= n
  {
    var ahead := Leaders(s, lo, hi);
    if forall i :: i in top ==> lo <= i < hi {
      forall i | i in top ensures i in ahead {
        forall j | 0 <= j < |s| && !(lo <= j < hi) ensures s[i] > s[j] { Dominates(s, n, top, i, j); }
      }
      SubsetSize(top, ahead);
    } else if |ahead| >= n {
      var x :| x in top && !(lo <= x < hi);
      LeadersFirst(s, n, top, lo, hi, x);
      assert false;
    }
  }

  lemma LeadersFirst(s: Vec, n: nat, top: set<nat>, lo: nat, hi: nat, x: nat)
    requires IsTopK(s, n, top) && hi <= |s| && x in top && !(lo <= x < hi)
    ensures |Leaders(s, lo, hi)| < n
  {
    var ahead := Leaders(s, lo, hi);
    forall y | y in ahead ensures y in top - {x} {
      if y !in top { Dominates(s, n, top, x, y); assert false; }
    }
    SubsetSize(ahead, top - {x});
  }

  /** A top-`n` that lies within some columns is a top-`n` of those columns, also when they are rescaled. */
  lemma SliceTopK(s: Vec, w: Vec, lo: nat, c: real, n: nat, top: set<nat>)
    requires IsTopK(s, n, top) && lo + |w| <= |s| && c > 0.0 && forall i :: i in top ==> lo <= i < lo + |w|
    requires forall j :: 0 <= j < |w| ==> w[j] == s[lo + j] * c
    ensures IsTopK(w, n, Columns(top, lo, |w|))
  {
    var x := Columns(top, lo, |w|);
    ColumnsSize(top, lo, |w|);
    forall i, j | i in x && 0 <= j < |w| && j !in x ensures w[i] >= w[j] {
      assert InColumn(top, lo, i) && !InColumn(top, lo, j);
      Dominates(s, n, top, lo + i, lo + j);
      ScaleIff(s[lo + j], s[lo + i], c);
    }
  }

  // ---- one kind is weighted again ----

  /** No column left out has overtaken a column of the other kind that was taken. */
  ghost predicate KeepsSplit(s: Vec, top: set<nat>, m: nat)
  {
    forall i, j :: i in top && 0 <= j < |s| && j !in top && i < |s| && (i < m) != (j < m) ==> s[i] >= s[j]
  }

  lemma TopKeepsSplit(s: Vec, n: nat, top: set<nat>, m: nat)
    requires IsTopK(s, n, top)
    ensures KeepsSplit(s, top, m)
  {
    forall i, j | i in top && 0 <= j < |s| && j !in top ensures s[i] >= s[j] { Dominates(s, n, top, i, j); }
  }

  lemma StillAhead(a: real, b: real, ca: real, cb: real, c: real)
    requires a >= b && c > 0.0 && ca == a * c && cb == b * c
    ensures ca >= cb
  {
    MulMono(b, a, c);
  }

  /** Weighting the columns from `m` on by a factor leaves a top-k one exactly when it keeps the split. */
  lemma ReweightedIff(s: Vec, w: Vec, m: nat, c: real, n: nat, top: set<nat>)
    requires IsTopK(s, n, top) && |w| == |s| && m <= |s| && c > 0.0
    requires (forall i :: 0 <= i < m ==> w[i] == s[i]) && (forall i :: m <= i < |s| ==> w[i] == s[i] * c)
    ensures IsTopK(w, n, top) <==> KeepsSplit(w, top, m)
  {
    if KeepsSplit(w, top, m) {
      forall i, j | i in top && 0 <= j < |w| && j !in top ensures w[i] >= w[j] {
        Dominates(s, n, top, i, j);
        if i < m && j < m {
        } else if i >= m && j >= m {
          StillAhead(s[i], s[j], w[i], w[j], c);
        } else {
          assert (i < m) != (j < m);
        }
      }
    }
  }
}
