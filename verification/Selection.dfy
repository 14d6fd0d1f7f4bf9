/** Ranked selection: the stable descending sort the router uses, and its agreement with
  * batched top-k. */
module Selection {

  import opened Numbers

  datatype Kind = KSlot | VSlot

  /** A stored slot that may be read, with its score. */
  datatype Candidate = Candidate(kind: Kind, score: real, page: nat, group: nat, slot: int)

  ghost predicate NoDup<T>(s: seq<T>) { forall i, j :: 0 <= i < j < |s| ==> s[i] != s[j] }

  ghost predicate Descending(s: seq<Candidate>)
  {
    forall i, j :: 0 <= i < j < |s| ==> s[i].score >= s[j].score
  }

  function Take<T>(s: seq<T>, n: nat): seq<T> { if n <= |s| then s[..n] else s }

  // ---- sort(key=score, reverse=True) ----

  /** Insert after every candidate that scores at least as much. */
  function InsertDesc(s: seq<Candidate>, x: Candidate): (r: seq<Candidate>)
    ensures |r| == |s| + 1
  {
    if s == [] || s[|s| - 1].score >= x.score then s + [x]
    else InsertDesc(s[..|s| - 1], x) + [s[|s| - 1]]
  }

  function SortDesc(s: seq<Candidate>): (r: seq<Candidate>)
    ensures |r| == |s|
  {
    if s == [] then [] else InsertDesc(SortDesc(s[..|s| - 1]), s[|s| - 1])
  }

  lemma {:induction false} InsertPermutes(s: seq<Candidate>, x: Candidate)
    ensures multiset(InsertDesc(s, x)) == multiset(s) + multiset{x}
  {
    if s == [] || s[|s| - 1].score >= x.score {
    } else {
      InsertPermutes(s[..|s| - 1], x);
      assert s == s[..|s| - 1] + [s[|s| - 1]];
    }
  }

  lemma {:induction false} SortPermutes(s: seq<Candidate>)
    ensures multiset(SortDesc(s)) == multiset(s)
  {
    if s == [] {
    } else {
      SortPermutes(s[..|s| - 1]);
      InsertPermutes(SortDesc(s[..|s| - 1]), s[|s| - 1]);
      assert s == s[..|s| - 1] + [s[|s| - 1]];
    }
  }

  lemma {:induction false} InsertMembers(s: seq<Candidate>, x: Candidate, i: nat)
    requires i <= |s|
    ensures InsertDesc(s, x)[i] == x || InsertDesc(s, x)[i] in s
  {
    if s == [] || s[|s| - 1].score >= x.score || i == |s| {
    } else {
      InsertMembers(s[..|s| - 1], x, i);
    }
  }

  lemma {:induction false} InsertSorted(s: seq<Candidate>, x: Candidate)
    requires Descending(s)
    ensures Descending(InsertDesc(s, x))
  {
    if s == [] || s[|s| - 1].score >= x.score {
    } else {
      var init := s[..|s| - 1];
      InsertSorted(init, x);
      var r := InsertDesc(s, x);
      forall i | 0 <= i < |r| - 1 ensures r[i].score >= r[|r| - 1].score {
        InsertMembers(init, x, i);
      }
    }
  }

  lemma {:induction false} SortSorted(s: seq<Candidate>)
    ensures Descending(SortDesc(s))
  {
    if s == [] {
    } else {
      SortSorted(s[..|s| - 1]);
      InsertSorted(SortDesc(s[..|s| - 1]), s[|s| - 1]);
    }
  }

  lemma SortMembers(s: seq<Candidate>, c: Candidate)
    ensures c in SortDesc(s) <==> c in s
  {
    SortPermutes(s);
    assert c in multiset(SortDesc(s)) <==> c in multiset(s);
  }

  lemma {:induction false} NoDupCount<T>(s: seq<T>, x: T)
    requires NoDup(s)
    ensures multiset(s)[x] <= 1
  {
    if s == [] {
    } else {
      var init := s[..|s| - 1];
      assert s == init + [s[|s| - 1]];
      NoDupCount(init, x);
      if x == s[|s| - 1] { assert x !in init; assert multiset(init)[x] == 0; }
    }
  }

  lemma CountNoDup<T>(s: seq<T>)
    requires forall x :: multiset(s)[x] <= 1
    ensures NoDup(s)
  {
    forall i, j | 0 <= i < j < |s| ensures s[i] != s[j] {
      var a, b := s[..j], s[j..];
      assert s == a + b;
      assert a[i] == s[i] && b[0] == s[j];
      assert multiset(s)[s[j]] == multiset(a)[s[j]] + multiset(b)[s[j]];
    }
  }

  lemma SortNoDup(s: seq<Candidate>)
    requires NoDup(s)
    ensures NoDup(SortDesc(s))
  {
    SortPermutes(s);
    forall x ensures multiset(SortDesc(s))[x] <= 1 { NoDupCount(s, x); }
    CountNoDup(SortDesc(s));
  }

  lemma {:induction false} NoDupSize(s: seq<nat>, members: set<nat>)
    requires NoDup(s) && forall x :: x in members <==> x in s
    ensures |members| == |s|
  {
    if s == [] {
      assert members == {};
    } else {
      var n := |s| - 1;
      assert s[n] in members;
      NoDupSize(s[..n], members - {s[n]});
    }
  }

  lemma {:induction false} RangeSize(n: nat, all: set<nat>)
    requires forall x: nat :: x in all <==> x < n
    ensures |all| == n
  {
    if n == 0 {
      assert all == {};
    } else {
      assert n - 1 in all;
      RangeSize(n - 1, all - {n - 1});
    }
  }

  /** The numbers below `n`. */
  function Below(n: nat): (r: set<nat>)
    ensures forall x: nat :: x in r <==> x < n
  {
    if n == 0 then {} else Below(n - 1) + {n - 1}
  }

  /** `n` distinct numbers below `n` are all of them. */
  lemma Everyone(s: seq<nat>, i: nat)
    requires NoDup(s) && (forall x :: x in s ==> x < |s|) && i < |s|
    ensures i in s
  {
    var seen := set x | x in s;
    NoDupSize(s, seen);
    RangeSize(|s|, Below(|s|));
    assert seen <= Below(|s|);
    SubsetSameSize(seen, Below(|s|));
  }

  // ---- one kind out of a mixed ranking ----

  function OfKind(s: seq<Candidate>, k: Kind): (r: seq<Candidate>)
    ensures |r| <= |s|
  {
    if s == [] then []
    else
      var init, last := OfKind(s[..|s| - 1], k), s[|s| - 1];
      if last.kind == k then init + [last] else init
  }

  lemma {:induction false} OfKindMembers(s: seq<Candidate>, k: Kind, c: Candidate)
    ensures c in OfKind(s, k) <==> c in s && c.kind == k
  {
    if s == [] {
    } else {
      OfKindMembers(s[..|s| - 1], k, c);
      assert s == s[..|s| - 1] + [s[|s| - 1]];
    }
  }

  lemma {:induction false} OfKindNoDup(s: seq<Candidate>, k: Kind)
    requires NoDup(s)
    ensures NoDup(OfKind(s, k))
  {
    if s == [] {
    } else {
      OfKindNoDup(s[..|s| - 1], k);
      OfKindMembers(s[..|s| - 1], k, s[|s| - 1]);
    }
  }

  lemma OfKindAppend(s: seq<Candidate>, x: Candidate, k: Kind)
    ensures OfKind(s + [x], k) == if x.kind == k then OfKind(s, k) + [x] else OfKind(s, k)
  {
    assert (s + [x])[..|s|] == s;
  }

  lemma ConcatAppend<T>(a: seq<T>, b: seq<T>)
    requires b != []
    ensures a + b == (a + b[..|b| - 1]) + [b[|b| - 1]] && b == b[..|b| - 1] + [b[|b| - 1]]
  {
  }

  lemma ConcatAssoc<T>(a: seq<T>, b: seq<T>, x: T)
    ensures (a + b) + [x] == a + (b + [x])
  {
  }

  lemma {:induction false} OfKindConcat(a: seq<Candidate>, b: seq<Candidate>, k: Kind)
    ensures OfKind(a + b, k) == OfKind(a, k) + OfKind(b, k)
    decreases |b|
  {
    if b == [] {
      assert a + b == a;
      assert OfKind(a, k) + [] == OfKind(a, k);
    } else {
      var init, last := b[..|b| - 1], b[|b| - 1];
      OfKindConcat(a, init, k);
      OfKindAppend(a + init, last, k);
      OfKindAppend(init, last, k);
      ConcatAppend(a, b);
      ConcatAssoc(OfKind(a, k), OfKind(init, k), last);
    }
  }

  lemma {:induction false} OfKindAll(s: seq<Candidate>, k: Kind)
    requires forall i :: 0 <= i < |s| ==> s[i].kind == k
    ensures OfKind(s, k) == s
  {
    if s == [] {
    } else {
      OfKindAll(s[..|s| - 1], k);
    }
  }

  lemma {:induction false} OfKindNone(s: seq<Candidate>, k: Kind)
    requires forall i :: 0 <= i < |s| ==> s[i].kind != k
    ensures OfKind(s, k) == []
  {
    if s == [] {
    } else {
      OfKindNone(s[..|s| - 1], k);
    }
  }

  /** The last of one kind scores at least as much as the last of all. */
  lemma {:induction false} OfKindLast(s: seq<Candidate>, k: Kind)
    requires Descending(s) && OfKind(s, k) != []
    ensures s != [] && OfKind(s, k)[|OfKind(s, k)| - 1].score >= s[|s| - 1].score
  {
    if s[|s| - 1].kind == k {
    } else {
      OfKindLast(s[..|s| - 1], k);
    }
  }

  lemma InsertAppend(s: seq<Candidate>, last: Candidate, x: Candidate)
    ensures InsertDesc(s + [last], x) == if last.score >= x.score then (s + [last]) + [x] else InsertDesc(s, x) + [last]
  {
    assert (s + [last])[..|s|] == s;
  }

  lemma InsertLast(s: seq<Candidate>, x: Candidate)
    requires s == [] || s[|s| - 1].score >= x.score
    ensures InsertDesc(s, x) == s + [x]
  {
  }

  lemma {:induction false} OfKindInsert(s: seq<Candidate>, x: Candidate, k: Kind)
    requires Descending(s)
    ensures OfKind(InsertDesc(s, x), k) == if x.kind == k then InsertDesc(OfKind(s, k), x) else OfKind(s, k)
    decreases |s|
  {
    if s == [] || s[|s| - 1].score >= x.score {
      InsertLast(s, x);
      OfKindAppend(s, x, k);
      if OfKind(s, k) != [] { OfKindLast(s, k); }
      InsertLast(OfKind(s, k), x);
    } else {
      var init, last := s[..|s| - 1], s[|s| - 1];
      ConcatAppend([], s);
      OfKindInsert(init, x, k);
      InsertAppend(init, last, x);
      OfKindAppend(InsertDesc(init, x), last, k);
      OfKindAppend(init, last, k);
      InsertAppend(OfKind(init, k), last, x);
    }
  }

  /** Stability: ranking everything and keeping one kind is ranking that kind alone. */
  lemma {:induction false} OfKindSort(s: seq<Candidate>, k: Kind)
    ensures OfKind(SortDesc(s), k) == SortDesc(OfKind(s, k))
  {
    if s == [] {
    } else {
      var init, x := s[..|s| - 1], s[|s| - 1];
      OfKindSort(init, k);
      SortSorted(init);
      OfKindInsert(SortDesc(init), x, k);
      if x.kind == k {
        var f := OfKind(s, k);
        assert f[..|f| - 1] == OfKind(init, k);
      }
    }
  }

  lemma OfKindPrefix(s: seq<Candidate>, n: nat, k: Kind)
    ensures OfKind(Take(s, n), k) <= OfKind(s, k)
  {
    var t := Take(s, n);
    OfKindConcat(t, s[|t|..], k);
    assert s == t + s[|t|..];
  }

  // ---- top-k ----

  function Scores(s: seq<Candidate>): (v: Vec)
    ensures |v| == |s|
  {
    seq(|s|, i requires 0 <= i < |s| => s[i].score)
  }

  /** `sel` is a legal answer of `torch.topk(scores, k)`, however ties are broken. */
  ghost predicate IsTopK(scores: Vec, k: nat, sel: set<nat>)
  {
    && |sel| == k
    && (forall i :: i in sel ==> i < |scores|)
    && (forall i, j :: i in sel && 0 <= j < |scores| && j !in sel ==> scores[i] >= scores[j])
  }

  ghost predicate DistinctScores(scores: Vec)
  {
    forall i, j :: 0 <= i < j < |scores| ==> scores[i] != scores[j]
  }

  /** Equal scores occur among the positions in `quiet` only. */
  ghost predicate TiesWithin(scores: Vec, quiet: set<nat>)
  {
    forall i, j :: 0 <= i < j < |scores| && scores[i] == scores[j] ==> i in quiet && j in quiet
  }

  lemma TopKInside(scores: Vec, k: nat, a: set<nat>, b: set<nat>, quiet: set<nat>, i: nat)
    requires TiesWithin(scores, quiet) && IsTopK(scores, k, a) && IsTopK(scores, k, b) && i in a && i !in quiet
    ensures i in b
  {
    if i !in b {
      var j := Extra(b, a);
      Dominates(scores, k, a, i, j);
      Dominates(scores, k, b, j, i);
      assert false;
    }
  }

  /** Two answers differ among tied positions only. */
  lemma TopKUniqueUpTo(scores: Vec, k: nat, a: set<nat>, b: set<nat>, quiet: set<nat>)
    requires TiesWithin(scores, quiet) && IsTopK(scores, k, a) && IsTopK(scores, k, b)
    ensures a - quiet == b - quiet
  {
    forall i | i in a && i !in quiet ensures i in b { TopKInside(scores, k, a, b, quiet, i); }
    forall i | i in b && i !in quiet ensures i in a { TopKInside(scores, k, b, a, quiet, i); }
  }

  /** With distinct scores there is only one answer. */
  lemma TopKUnique(scores: Vec, k: nat, a: set<nat>, b: set<nat>)
    requires DistinctScores(scores) && IsTopK(scores, k, a) && IsTopK(scores, k, b)
    ensures a == b
  {
    TopKUniqueUpTo(scores, k, a, b, {});
    assert a == a - {} && b == b - {};
  }

  lemma Dominates(scores: Vec, k: nat, sel: set<nat>, i: nat, j: nat)
    requires IsTopK(scores, k, sel) && i in sel && j !in sel && j < |scores|
    ensures i < |scores| && scores[i] >= scores[j]
  {
  }

  lemma SubsetSameSize<T>(a: set<T>, b: set<T>)
    requires a <= b && |a| == |b|
    ensures a == b
  {
    assert |b - a| == |b| - |a|;
    assert b - a == {};
  }

  lemma Extra<T>(a: set<T>, b: set<T>) returns (x: T)
    requires a != b && |a| == |b|
    ensures x in a && x !in b
  {
    if a <= b { SubsetSameSize(a, b); assert false; }
    x :| x in a && x !in b;
  }

  /** The positions in `s` of the candidates in `chosen`. */
  ghost function Picks(s: seq<Candidate>, chosen: seq<Candidate>): (r: set<nat>)
    ensures forall i :: i in r <==> 0 <= i < |s| && s[i] in chosen
  {
    set i: nat | i < |s| && s[i] in chosen
  }

  lemma {:induction false} PicksSize(s: seq<Candidate>, chosen: seq<Candidate>)
    requires NoDup(s) && NoDup(chosen) && forall c :: c in chosen ==> c in s
    ensures |Picks(s, chosen)| == |chosen|
    decreases |chosen|
  {
    if chosen == [] {
      assert Picks(s, chosen) == {};
    } else {
      var init, c := chosen[..|chosen| - 1], chosen[|chosen| - 1];
      PicksSize(s, init);
      assert c in chosen;
      var i :| 0 <= i < |s| && s[i] == c;
      assert c !in init;
      assert Picks(s, chosen) == Picks(s, init) + {i};
    }
  }

  /** Sorting and taking the first `k` is a top-k answer. */
  lemma TakeIsTopK(s: seq<Candidate>, k: nat)
    requires NoDup(s)
    ensures IsTopK(Scores(s), Min(k, |s|), Picks(s, Take(SortDesc(s), k)))
  {
    var sorted := SortDesc(s);
    var chosen := Take(sorted, k);
    SortSorted(s);
    SortNoDup(s);
    forall c | c in chosen ensures c in s { SortMembers(s, c); }
    PicksSize(s, chosen);
    forall i, j | i in Picks(s, chosen) && 0 <= j < |s| && j !in Picks(s, chosen)
      ensures s[i].score >= s[j].score
    {
      SortMembers(s, s[j]);
      ChosenBeatsRest(sorted, k, s[i], s[j]);
    }
  }

  lemma ChosenBeatsRest(sorted: seq<Candidate>, k: nat, c: Candidate, d: Candidate)
    requires Descending(sorted) && c in Take(sorted, k) && d in sorted && d !in Take(sorted, k)
    ensures c.score >= d.score
  {
    var p :| 0 <= p < |Take(sorted, k)| && sorted[p] == c;
    var q :| 0 <= q < |sorted| && sorted[q] == d;
    if q < |Take(sorted, k)| { assert Take(sorted, k)[q] == d; }
  }

  /** Scaling every score by one positive factor leaves the top-k answers as they are. */
  lemma ScaledTopK(scores: Vec, scaled: Vec, c: real, k: nat, sel: set<nat>)
    requires c > 0.0 && |scaled| == |scores|
    requires forall i :: 0 <= i < |scores| ==> scaled[i] == scores[i] * c
    ensures IsTopK(scaled, k, sel) <==> IsTopK(scores, k, sel)
  {
    forall i, j | 0 <= i < |scores| && 0 <= j < |scores|
      ensures scaled[i] >= scaled[j] <==> scores[i] >= scores[j]
    {
      ScaleIff(scores[j], scores[i], c);
    }
  }
}
