/** Token eviction: which keys survive, and attention over the survivors. */
module Eviction {

  import opened Numbers
  import opened Sums
  import opened Selection
  import opened ExactSoftmax

  datatype EvictPolicy = HeavyHitter | RecentOnly

  /** One query's base logits and weights. */
  datatype AttnRow = AttnRow(s: Vec, a: Vec)

  predicate RowsShaped(rows: seq<AttnRow>, n: nat)
  {
    forall r :: 0 <= r < |rows| ==> |rows[r].s| == |rows[r].a| == n
  }

  // ---- scores ----

  function Received(rows: seq<AttnRow>, t: int): int -> real { r => if 0 <= r < |rows| then At(rows[r].a, t) else 0.0 }

  /** Total attention a key receives, or its position. */
  function Score(policy: EvictPolicy, rows: seq<AttnRow>, t: int): real
  {
    if policy == RecentOnly then t as real else Sum(0, |rows|, Received(rows, t))
  }

  function KeyScores(policy: EvictPolicy, rows: seq<AttnRow>, n: nat): (v: Vec)
    ensures |v| == n && forall t :: 0 <= t < n ==> v[t] == Score(policy, rows, t)
  {
    seq(n, t requires 0 <= t < n => Score(policy, rows, t))
  }

  /** What a row's weights put on each key. */
  function RowWeights(rows: seq<AttnRow>, r: int): int -> real
  {
    t => if 0 <= r < |rows| then At(rows[r].a, t) else 0.0
  }

  /** Attention is conserved: when every row's weights sum to one, the heavy-hitter scores of all keys sum to the number
    * of rows. */
  lemma ScoresConserve(rows: seq<AttnRow>, n: nat)
    requires RowsShaped(rows, n) && forall r :: 0 <= r < |rows| ==> Sum(0, n, RowWeights(rows, r)) == 1.0
    ensures Sum(0, n, Values(KeyScores(HeavyHitter, rows, n))) == |rows| as real
  {
    hide Sum;
    var cell := (r: int, t: int) => RowWeights(rows, r)(t);
    var perRow := (r: int) => Sum(0, n, AlongRow(cell, r));
    forall r | 0 <= r < |rows| ensures perRow(r) == 1.0 { SumExt(0, n, AlongRow(cell, r), RowWeights(rows, r)); }
    forall t | 0 <= t < n ensures Values(KeyScores(HeavyHitter, rows, n))(t) == Sum(0, |rows|, AlongColumn(cell, t)) {
      SumExt(0, |rows|, Received(rows, t), AlongColumn(cell, t));
    }
    SumSwap(|rows|, n, cell, perRow, Values(KeyScores(HeavyHitter, rows, n)));
    OnesAddUp(|rows|, perRow);
  }

  lemma {:induction false} OnesAddUp(n: nat, f: int -> real)
    requires forall t :: 0 <= t < n ==> f(t) == 1.0
    ensures Sum(0, n, f) == n as real
  {
    if n == 0 {
    } else {
      OnesAddUp(n - 1, f);
    }
  }

  /** A key that no row gives less than another, and some row more, is the heavier one; and of two keys the later one
    * is the more recent. */
  lemma HeavierScoresMore(rows: seq<AttnRow>, i: nat, j: nat, r: nat)
    requires r < |rows| && At(rows[r].a, i) > At(rows[r].a, j)
    requires forall q :: 0 <= q < |rows| ==> At(rows[q].a, i) >= At(rows[q].a, j)
    ensures Score(HeavyHitter, rows, i) > Score(HeavyHitter, rows, j)
    ensures Score(RecentOnly, rows, i) > Score(RecentOnly, rows, j) <==> i > j
  {
    hide Sum, At;
    var more := (q: int) => Received(rows, i)(q) - Received(rows, j)(q);
    forall q | 0 <= q < |rows| ensures more(q) >= 0.0 {
      assert Received(rows, i)(q) == At(rows[q].a, i) && Received(rows, j)(q) == At(rows[q].a, j);
    }
    SumAtLeastOne(0, |rows|, more, r);
    SumAdd(0, |rows|, Received(rows, j), more, Received(rows, i));
  }

  // ---- the kept set ----

  function Kept(keep: seq<bool>): (r: set<nat>)
    ensures forall t: nat :: t in r <==> t < |keep| && keep[t]
  {
    set t: nat | t < |keep| && keep[t]
  }

  /** The first `sink` keys and, when there is a window, the last `recent`. */
  predicate Protected(n: nat, sink: nat, recent: int, t: nat)
  {
    t < n && (t < sink || (recent > 0 && t >= n - recent))
  }

  ghost function ProtectedSet(n: nat, sink: nat, recent: int): (r: set<nat>)
    ensures forall t: nat :: t in r <==> Protected(n, sink, recent, t)
  {
    set t: nat | t < n && Protected(n, sink, recent, t)
  }

  /** `sel` is a top-k among the keys that are still available. */
  ghost predicate TopAmong(scores: Vec, taken: set<nat>, k: nat, sel: set<nat>)
  {
    && |sel| == k && (forall i :: i in sel ==> i < |scores| && i !in taken)
    && (forall i, j: nat :: i in sel && j < |scores| && j !in taken && j !in sel ==> scores[i] >= scores[j])
  }

  /** `torch.topk` with the kept keys masked out; ties may fall either way. */
  ghost predicate PicksTop(topk: (Vec, set<nat>, nat) -> set<nat>)
  {
    forall scores: Vec, taken: set<nat>, k: nat ::
      taken <= Below(|scores|) && k + |taken| <= |scores| ==> TopAmong(scores, taken, k, topk(scores, taken, k))
  }

  function KeepCount(ratio: real, n: nat): int { Max(1, Round(ratio * n as real)) }

  /** A fraction of `n` keys, rounded to the nearest number but to no less than one, is at most `n`. */
  lemma KeepCountFits(ratio: real, n: nat)
    requires 0.0 < ratio < 1.0 && n > 0
    ensures 1 <= KeepCount(ratio, n) <= n
    ensures KeepCount(ratio, n) == 1 || Within(KeepCount(ratio, n) as real, ratio * n as real, 0.5)
  {
    hide Round;
    FractionBelow(ratio, n as real);
    RoundWithin(ratio * n as real, n);
  }

  lemma FractionBelow(ratio: real, m: real)
    requires ratio < 1.0 && m >= 0.0
    ensures ratio * m <= m
  {
    MulNonNeg(1.0 - ratio, m);
  }

  lemma RoundWithin(x: real, n: nat)
    requires x <= n as real
    ensures Round(x) <= n
  {
    RoundMonotone(x, n as real);
    RoundOfInt(n);
  }

  lemma SubsetBound(a: set<nat>, b: set<nat>)
    requires a <= b
    ensures |a| <= |b|
  {
    assert |b - a| == |b| - |a|;
  }

  /** The sink and the recent window, marked in place. */
  method MarkProtected(keep: array<bool>, sink: nat, recent: int)
    requires forall t :: 0 <= t < keep.Length ==> !keep[t]
    modifies keep
    ensures Kept(keep[..]) == ProtectedSet(keep.Length, sink, recent)
  {
    var n := keep.Length;
    forall t | 0 <= t < n && t < sink { keep[t] := true; }
    if recent > 0 {
      forall t | 0 <= t < n && t >= n - recent { keep[t] := true; }
    }
  }

  method MarkAll(keep: array<bool>, top: set<nat>)
    requires forall t :: t in top ==> t < keep.Length
    modifies keep
    ensures Kept(keep[..]) == old(Kept(keep[..])) + top
  {
    forall t | 0 <= t < keep.Length && t in top { keep[t] := true; }
  }

  lemma TopAdded(scores: Vec, taken: set<nat>, k: nat, top: set<nat>)
    requires TopAmong(scores, taken, k, top)
    ensures |taken + top| == |taken| + k && forall i :: i in top ==> i < |scores| && i !in taken
    ensures forall i, j: nat :: i in top && j < |scores| && j !in taken + top ==> scores[i] >= scores[j]
  {
    assert taken !! top;
  }

  lemma KeptBelow(keep: seq<bool>)
    ensures Kept(keep) <= Below(|keep|) && |Kept(keep)| <= |keep|
  {
    RangeSize(|keep|, Below(|keep|));
    SubsetBound(Kept(keep), Below(|keep|));
  }

  lemma PickedTop(topk: (Vec, set<nat>, nat) -> set<nat>, scores: Vec, taken: set<nat>, k: nat)
    requires PicksTop(topk) && taken <= Below(|scores|) && k + |taken| <= |scores|
    ensures TopAmong(scores, taken, k, topk(scores, taken, k))
  {
    hide TopAmong;
  }

  /** Then the best of the rest, up to `keepN` keys in all. */
  method MarkKept(n: nat, sink: nat, recent: int, keepN: nat, scores: Vec, topk: (Vec, set<nat>, nat) -> set<nat>)
    returns (keep: seq<bool>)
    requires PicksTop(topk) && |scores| == n && keepN <= n
    ensures |keep| == n && ProtectedSet(n, sink, recent) <= Kept(keep)
    ensures |Kept(keep)| == Max(keepN, |ProtectedSet(n, sink, recent)|)
    ensures forall i, j: nat :: i in Kept(keep) && !Protected(n, sink, recent, i) && j < n && j !in Kept(keep) ==>
      scores[i] >= scores[j]
  {
    hide Protected, PicksTop, TopAmong, Kept;
    var buf := new bool[n](_ => false);
    MarkProtected(buf, sink, recent);
    var taken := Kept(buf[..]);
    KeptBelow(buf[..]);
    var rem := keepN - |taken|;
    if rem > 0 {
      var top := topk(scores, taken, Min(rem, n - |taken|));
      PickedTop(topk, scores, taken, Min(rem, n - |taken|));
      TopAdded(scores, taken, Min(rem, n - |taken|), top);
      MarkAll(buf, top);
    }
    keep := buf[..];
  }

  // ---- attention over the survivors ----

  /** Masking with minus infinity removes a key from the softmax. */
  function Masked(keep: seq<bool>, f: int -> real): int -> real
  {
    t => if 0 <= t < |keep| && keep[t] then f(t) else 0.0
  }

  function Quot(x: real, z: real): real { if z == 0.0 then 0.0 else x / z }

  function NewEntry(exp: real -> real, s: Vec, keep: seq<bool>, t: int): real
  {
    Quot(Masked(keep, Exps(exp, s))(t), Sum(0, |s|, Masked(keep, Exps(exp, s))))
  }

  function NewRow(exp: real -> real, s: Vec, keep: seq<bool>): (a: Vec)
    ensures |a| == |s| && forall t :: 0 <= t < |s| ==> a[t] == NewEntry(exp, s, keep, t)
  {
    seq(|s|, t requires 0 <= t < |s| => NewEntry(exp, s, keep, t))
  }

  /** The whole mask: every key kept. */
  predicate KeepsAll(keep: seq<bool>) { forall t :: 0 <= t < |keep| ==> keep[t] }

  /** `_apply_token_eviction`: nothing happens unless the keep ratio lies strictly between 0 and 1. */
  method ApplyTokenEviction(exp: real -> real, rows: seq<AttnRow>, n: nat, ratio: real, policy: EvictPolicy,
                            recent: int, sink: nat, topk: (Vec, set<nat>, nat) -> set<nat>)
    returns (out: seq<Vec>, keep: seq<bool>)
    requires PicksTop(topk) && n > 0 && RowsShaped(rows, n)
    ensures |out| == |rows| && |keep| == n
    ensures !(0.0 < ratio < 1.0) ==> KeepsAll(keep)
    ensures 0.0 < ratio < 1.0 ==>
      && ProtectedSet(n, sink, recent) <= Kept(keep)
      && |Kept(keep)| == Max(KeepCount(ratio, n), |ProtectedSet(n, sink, recent)|)
      && (forall i, j: nat :: i in Kept(keep) && !Protected(n, sink, recent, i) && j < n && j !in Kept(keep) ==>
            Score(policy, rows, i) >= Score(policy, rows, j))
    ensures forall r :: 0 <= r < |rows| ==>
      out[r] == if KeepsAll(keep) then rows[r].a else NewRow(exp, rows[r].s, keep)
  {
    hide Score, PicksTop, ProtectedSet, Kept, NewRow;
    if !(0.0 < ratio < 1.0) {
      keep := seq(n, _ => true);
      out := seq(|rows|, r requires 0 <= r < |rows| => rows[r].a);
      return;
    }
    KeepCountFits(ratio, n);
    keep := MarkKept(n, sink, recent, KeepCount(ratio, n), KeyScores(policy, rows, n), topk);
    if forall t :: 0 <= t < n ==> keep[t] {
      out := seq(|rows|, r requires 0 <= r < |rows| => rows[r].a);
    } else {
      out := seq(|rows|, r requires 0 <= r < |rows| => NewRow(exp, rows[r].s, keep));
    }
  }

  lemma MaskedSum(keep: seq<bool>, n: nat, c: real, f: int -> real, g: int -> real)
    requires forall t :: 0 <= t < n ==> f(t) == c * g(t)
    ensures Sum(0, n, Masked(keep, f)) == c * Sum(0, n, Masked(keep, g))
  {
    SumScale(0, n, c, Masked(keep, g), Masked(keep, f));
  }

  lemma QuotScaled(c: real, x: real, z: real, cx: real, cz: real)
    requires c > 0.0 && z > 0.0 && cx == c * x && cz == c * z
    ensures cz > 0.0 && Quot(cx, cz) == Quot(x, z)
  {
    var q := x / z;
    assert x == q * z;
    MulPositive(c, z);
    assert cx == q * cz;
  }

  lemma QuotAsMul(z: real) returns (c: real)
    requires z > 0.0
    ensures c > 0.0 && forall x :: Quot(x, z) == c * x
  {
    c := 1.0 / z;
    assert c * z == 1.0;
    if c <= 0.0 { MulNonNeg(-c, z); }
    forall x ensures Quot(x, z) == c * x { DivAsMul(x, z); }
  }

  lemma QuotientsAddToOne(n: nat, un: int -> real, w: int -> real, z: real)
    requires z == Sum(0, n, un) && z > 0.0 && forall t :: 0 <= t < n ==> w(t) == un(t) / z
    ensures Sum(0, n, w) == 1.0
  {
    QuotientSum(n, un, w, z);
    UnitFactor(Sum(0, n, un), z, Sum(0, n, w));
  }

  lemma QuotsAddToOne(n: nat, un: int -> real, w: int -> real)
    requires Sum(0, n, un) > 0.0 && forall t :: 0 <= t < n ==> w(t) == Quot(un(t), Sum(0, n, un))
    ensures Sum(0, n, w) == 1.0
  {
    QuotientsAddToOne(n, un, w, Sum(0, n, un));
  }

  lemma KeptMassPositive(exp: real -> real, s: Vec, keep: seq<bool>, k: nat)
    requires Exponential(exp) && |keep| == |s| && k < |s| && keep[k]
    ensures Sum(0, |s|, Masked(keep, Exps(exp, s))) > 0.0
  {
    forall t | 0 <= t < |s| ensures Masked(keep, Exps(exp, s))(t) >= 0.0 { ExpPositive(exp, At(s, t)); }
    ExpPositive(exp, At(s, k));
    hide Exponential;
    SumAtLeastOne(0, |s|, Masked(keep, Exps(exp, s)), k);
  }

  lemma ConditionedEntry(keep: seq<bool>, n: nat, e: int -> real, a: int -> real, z: real, t: nat)
    requires z > 0.0 && t < n && Sum(0, n, Masked(keep, e)) > 0.0 && forall u :: 0 <= u < n ==> a(u) == Quot(e(u), z)
    ensures Sum(0, n, Masked(keep, a)) > 0.0
    ensures Quot(a(t), Sum(0, n, Masked(keep, a))) == Quot(e(t), Sum(0, n, Masked(keep, e)))
  {
    hide Quot, Sum, Masked;
    var c := QuotAsMul(z);
    forall u | 0 <= u < n ensures a(u) == c * e(u) { assert a(u) == Quot(e(u), z); }
    MaskedSum(keep, n, c, a, e);
    QuotScaled(c, e(t), Sum(0, n, Masked(keep, e)), a(t), Sum(0, n, Masked(keep, a)));
  }

  /** Each new row is the old row conditioned on the kept set: evicted keys get nothing, and the kept ones
    * keep their proportions. */
  lemma EvictionConditions(exp: real -> real, s: Vec, a: Vec, keep: seq<bool>, k: nat, t: nat)
    requires Exponential(exp) && |keep| == |s| == |a| && k < |s| && keep[k] && t < |s|
    requires forall u :: 0 <= u < |s| ==> a[u] == Softmax(exp, s, u)
    ensures var mass := Sum(0, |s|, Masked(keep, Values(a)));
      mass > 0.0 && NewEntry(exp, s, keep, t) == if keep[t] then a[t] / mass else 0.0
  {
    hide Exponential, Sum, Exps;
    ExpSumPositive(exp, s);
    KeptMassPositive(exp, s, keep, k);
    var e, z := Exps(exp, s), Sum(0, |s|, Exps(exp, s));
    forall u | 0 <= u < |s| ensures Values(a)(u) == Quot(e(u), z) {}
    ConditionedEntry(keep, |s|, e, Values(a), z, t);
    ZeroQuot(Sum(0, |s|, Masked(keep, e)));
  }

  lemma ZeroQuot(z: real)
    ensures Quot(0.0, z) == 0.0
  {
  }

  /** So the new row is again a distribution. */
  lemma EvictedRowNormalised(exp: real -> real, s: Vec, keep: seq<bool>, k: nat)
    requires Exponential(exp) && |keep| == |s| && k < |s| && keep[k]
    ensures Sum(0, |s|, Values(NewRow(exp, s, keep))) == 1.0
  {
    hide Exponential, Exps, Masked, Quot, Sum;
    KeptMassPositive(exp, s, keep, k);
    QuotsAddToOne(|s|, Masked(keep, Exps(exp, s)), Values(NewRow(exp, s, keep)));
  }
}
