/** The store manager at work: one page's residuals computed, ranked, and written into slots. */
module ResidualStore {

  import opened Numbers
  import opened Sums
  import opened Config
  import opened Selection
  import opened Pages
  import opened SlotArena
  import opened CacheState
  import opened StorePlan
  import opened StoreStep
  import opened Cache

  /** Subtract, then zero the padded rows in place. */
  method ComputeResidual(orig: seq<Vec>, hat: seq<Vec>, valid: nat, n: nat, w: nat) returns (r: seq<Vec>)
    requires Rect(orig, n, w) && Rect(hat, n, w)
    ensures r == Residual(orig, hat, valid, n, w)
  {
    var buf := new Vec[n](i requires 0 <= i < n => Diff(orig[i], hat[i]));
    var i := valid;
    while i < n
      invariant valid <= i
      invariant forall j :: 0 <= j < n ==>
        buf[j] == if valid <= j < i then ZeroRow(w) else Diff(orig[j], hat[j])
    {
      buf[i] := ZeroRow(w);
      i := i + 1;
    }
    r := buf[..];
  }

  /** The candidates of one kind with their error norms, group by group. */
  method Enumerate(m: Manager, kind: Kind, x: PageInput, p: nat, r: seq<Vec>)
    returns (cands: seq<Candidate>, errs: Vec)
    requires m.en.Valid() && InputOk(m.en.cfg, x) && r == ResidualOf(m.en.cfg, kind, x)
    ensures cands == Offers(m, kind, x, p) && errs == Errors(m, kind, x)
  {
    hide Prior, Mean, Norms, BlockOf, ResidualOf, Live;
    cands, errs := [], [];
    var g := 0;
    while g < NumGroups(m.en.cfg, kind)
      invariant 0 <= g <= NumGroups(m.en.cfg, kind)
      invariant |cands| == |errs| == g
      invariant forall i :: 0 <= i < g ==>
        cands[i] == Candidate(kind, Prior(m, kind, x, i), p, i, -1) && errs[i] == GroupError(m, kind, x, i)
    {
      var err := Mean(Live(m.en.cfg, kind, g, x.valid), Norms(m.en.ker, BlockOf(m.en.cfg, kind, r, g)));
      PriorOf(m, kind, x, g);
      cands := cands + [Candidate(kind, err * m.en.Sens() * StructPrior(x), p, g, -1)];
      errs := errs + [err];
      g := g + 1;
    }
  }

  lemma PriorOf(m: Manager, kind: Kind, x: PageInput, g: nat)
    requires m.en.Valid() && InputOk(m.en.cfg, x) && g < NumGroups(m.en.cfg, kind)
    ensures Prior(m, kind, x, g) == GroupError(m, kind, x, g) * m.en.Sens() * StructPrior(x)
  {
    hide GroupError;
  }

  // ---- writing the selected blocks ----

  /** One arena and slot list after the blocks of `picks` were written. */
  ghost predicate Written(m: Manager, kind: Kind, x: PageInput, h: nat, p: nat, a0: Arena, a: Arena,
                          picks: seq<Candidate>, slots: seq<int>)
    requires m.en.Valid() && InputOk(m.en.cfg, x)
  {
    && GroupsIn(m, kind, picks) && HasFree(a0, |picks|)
    && a == GrabAll(m.en.cfg, kind, a0, Claims(m, kind, x, h, p, picks))
    && slots == Assign(picks, a0.free, NumGroups(m.en.cfg, kind))
  }

  lemma NothingWritten(m: Manager, kind: Kind, x: PageInput, h: nat, p: nat, a0: Arena)
    requires m.en.Valid() && InputOk(m.en.cfg, x)
    ensures Written(m, kind, x, h, p, a0, a0, [], seq(NumGroups(m.en.cfg, kind), _ => -1))
  {
  }

  /** Popping a slot, writing the next block and listing it is one more block written. */
  lemma WrittenMore(m: Manager, kind: Kind, x: PageInput, h: nat, p: nat, a0: Arena, a: Arena,
                    picks: seq<Candidate>, slots: seq<int>, c: Candidate)
    requires m.en.Valid() && InputOk(m.en.cfg, x) && Partition(a0)
    requires Written(m, kind, x, h, p, a0, a, picks, slots) && a.free != [] && c.group < NumGroups(m.en.cfg, kind)
    ensures a.free[0] < |a.buf| && |slots| == NumGroups(m.en.cfg, kind)
    ensures Written(m, kind, x, h, p, a0, Grab(m.en.cfg, kind, a, ClaimOf(m, kind, x, h, p, c.group)),
                    picks + [c], slots[c.group := a.free[0]])
  {
    hide ClaimOf, Grab, BlockOk;
    var more := picks + [c];
    assert a.free == a0.free[|picks|..];
    PartitionFree(a0, |more|);
    assert more[..|picks|] == picks;
    var cs := Claims(m, kind, x, h, p, more);
    assert cs[..|picks|] == Claims(m, kind, x, h, p, picks);
  }

  lemma OfKindSnoc(s: seq<Candidate>, i: nat, k: Kind)
    requires i < |s|
    ensures OfKind(s[..i + 1], k) == if s[i].kind == k then OfKind(s[..i], k) + [s[i]] else OfKind(s[..i], k)
    ensures OfKind(s[..i + 1], k) <= OfKind(s, k)
  {
    assert s[..i + 1][..i] == s[..i];
    OfKindPrefix(s, i + 1, k);
  }

  /** The group of a selected block is one of its kind's groups. */
  lemma SelectedGroup(m: Manager, x: PageInput, p: nat, i: nat)
    requires m.en.Valid() && InputOk(m.en.cfg, x) && i < |Selected(m, x, p)|
    ensures var c := Selected(m, x, p)[i]; c.group < NumGroups(m.en.cfg, c.kind)
  {
    hide Selected, NumGroups;
    var sel := Selected(m, x, p);
    var c := sel[i];
    OfKindMembers(sel, c.kind, c);
    PicksOk(m, c.kind, x, p);
    var j :| 0 <= j < |SelectedOf(m, c.kind, x, p)| && SelectedOf(m, c.kind, x, p)[j] == c;
  }

  /** Take the first free slot of the block's kind, if there is one, and write the block into it, if it has
    * the slot's size. */
  method StoreBlock(m: Manager, cache: KVCache, h: nat, p: nat, x: PageInput, kind: Kind, g: nat)
    returns (slot: Option<nat>)
    requires cache.Valid() && cache.cfg == m.en.cfg && m.en.Valid() && InputOk(m.en.cfg, x)
    requires g < NumGroups(m.en.cfg, kind)
    requires ArenaOf(cache.st, kind).free != [] ==> HasFree(ArenaOf(cache.st, kind), 1)
    modifies cache.Repr
    ensures cache.Valid() && cache.st.heads == old(cache.st).heads
    ensures var was, a := old(cache.st), ArenaOf(old(cache.st), kind);
      if a.free == [] then slot == None && cache.st == was
      else if !SlotHolds(m.en.cfg, kind) then slot == None
      else
        && slot == Some(a.free[0])
        && cache.st == WithArena(was, kind, Grab(m.en.cfg, kind, a, ClaimOf(m, kind, x, h, p, g)))
  {
    hide KVCache.Valid, KVCache.Shaped, PackedRows, ClaimOf, SlotHolds, SlotBytes;
    cache.Owned();
    SlotFits(m.en.cfg, kind, ClaimOf(m, kind, x, h, p, g).rows);
    var ok;
    if kind == KSlot {
      slot := cache.AllocKSlot();
      if slot == None { return; }
      ok := cache.WriteKResidual(slot.value, PackedRows(m.en.cfg, KSlot, ClaimOf(m, KSlot, x, h, p, g).rows),
                                 ClaimOf(m, KSlot, x, h, p, g));
    } else {
      slot := cache.AllocVSlot();
      if slot == None { return; }
      ok := cache.WriteVResidual(slot.value, PackedRows(m.en.cfg, VSlot, ClaimOf(m, VSlot, x, h, p, g).rows),
                                 ClaimOf(m, VSlot, x, h, p, g));
    }
    if !ok { slot := None; }
  }

  /** Slots are taken one at a time, in ranking order; it fails when an arena runs out, or when a block to be
    * stored has not the size of a slot. */
  method StoreSelected(m: Manager, cache: KVCache, h: nat, p: nat, x: PageInput, sel: seq<Candidate>)
    returns (ok: bool, kSlots: seq<int>, vSlots: seq<int>)
    requires cache.Valid() && cache.cfg == m.en.cfg && Target(m, cache.st, h, p) && InputOk(m.en.cfg, x)
    requires sel == Selected(m, x, p)
    modifies cache.Repr
    ensures cache.Valid() && (ok <==> Room(m, old(cache.st), x, p))
    ensures ok ==>
      && cache.st == old(cache.st).(k := Taken(m, KSlot, old(cache.st).k, h, p, x), v := Taken(m, VSlot,
          old(cache.st).v, h, p, x))
      && kSlots == SlotList(m, KSlot, old(cache.st).k, p, x) && vSlots == SlotList(m, VSlot, old(cache.st).v, p, x)
  {
    hide Inv, Selected, Written, OfKind, ClaimOf, Grab, NumGroups, Partition, HasFree, SlotHolds, KVCache.Valid,
      KVCache.Shaped;
    var cfg := m.en.cfg;
    ghost var st0 := cache.st;
    cache.Owned();
    ArenasOk(cfg, st0);
    ArenaPartition(cfg, KSlot, st0.k);
    ArenaPartition(cfg, VSlot, st0.v);
    kSlots, vSlots := seq(NumGroups(cfg, KSlot), _ => -1), seq(NumGroups(cfg, VSlot), _ => -1);
    NothingWritten(m, KSlot, x, h, p, st0.k);
    NothingWritten(m, VSlot, x, h, p, st0.v);
    var i := 0;
    NoneOfKind(sel);
    while i < |sel|
      invariant 0 <= i <= |sel| && cache.Valid() && cache.st.heads == st0.heads
      invariant Written(m, KSlot, x, h, p, st0.k, cache.st.k, OfKind(sel[..i], KSlot), kSlots)
      invariant Written(m, VSlot, x, h, p, st0.v, cache.st.v, OfKind(sel[..i], VSlot), vSlots)
      invariant OfKind(sel[..i], KSlot) != [] ==> SlotHolds(cfg, KSlot)
      invariant OfKind(sel[..i], VSlot) != [] ==> SlotHolds(cfg, VSlot)
    {
      var c := sel[i];
      OfKindSnoc(sel, i, KSlot);
      OfKindSnoc(sel, i, VSlot);
      SelectedGroup(m, x, p, i);
      ghost var a := ArenaOf(cache.st, c.kind);
      WrittenFree(m, c.kind, x, h, p, ArenaOf(st0, c.kind), a, OfKind(sel[..i], c.kind),
                  if c.kind == KSlot then kSlots else vSlots);
      var slot := StoreBlock(m, cache, h, p, x, c.kind, c.group);
      if slot == None { return false, kSlots, vSlots; }
      WrittenMore(m, c.kind, x, h, p, ArenaOf(st0, c.kind), a, OfKind(sel[..i], c.kind),
                  if c.kind == KSlot then kSlots else vSlots, c);
      if c.kind == KSlot { kSlots := kSlots[c.group := slot.value]; } else { vSlots := vSlots[c.group := slot.value]; }
      i := i + 1;
    }
    ok := true;
    assert sel[..i] == sel;
    WrittenAll(m, KSlot, x, h, p, st0.k, cache.st.k, kSlots);
    WrittenAll(m, VSlot, x, h, p, st0.v, cache.st.v, vSlots);
  }

  lemma NoneOfKind(s: seq<Candidate>)
    ensures OfKind(s[..0], KSlot) == [] && OfKind(s[..0], VSlot) == []
  {
  }

  /** What is left of the free list. */
  lemma WrittenFree(m: Manager, kind: Kind, x: PageInput, h: nat, p: nat, a0: Arena, a: Arena,
                    picks: seq<Candidate>, slots: seq<int>)
    requires m.en.Valid() && InputOk(m.en.cfg, x) && Partition(a0) && Written(m, kind, x, h, p, a0, a, picks, slots)
    ensures a.free == [] ==> |a0.free| == |picks|
    ensures a.free != [] ==> HasFree(a, 1)
  {
    hide Claims;
    assert a.free == a0.free[|picks|..];
    if a.free != [] { PartitionFree(a0, |picks| + 1); }
  }

  lemma WrittenAll(m: Manager, kind: Kind, x: PageInput, h: nat, p: nat, a0: Arena, a: Arena, slots: seq<int>)
    requires m.en.Valid() && InputOk(m.en.cfg, x) && Partition(a0)
    requires Written(m, kind, x, h, p, a0, a, SelectedOf(m, kind, x, p), slots)
    ensures |SelectedOf(m, kind, x, p)| <= |a0.free|
    ensures a == Taken(m, kind, a0, h, p, x) && slots == SlotList(m, kind, a0, p, x)
  {
    hide SelectedOf, Partition;
  }

  function Total(s: seq<Candidate>): real { Sum(0, |s|, Values(Scores(s))) }

  /** `process_page`: residuals, candidates, budgets, slots, metadata. Fails when the blocks to be
    * stored find no slots, or none of their size. */
  method ProcessPage(m: Manager, cache: KVCache, h: nat, p: nat, x: PageInput) returns (ok: bool)
    requires cache.Valid() && cache.cfg == m.en.cfg && Target(m, cache.st, h, p) && InputOk(m.en.cfg, x)
    modifies cache.Repr
    ensures cache.Valid() && (ok <==> Process(m, old(cache.st), h, p, x).Some?)
    ensures ok ==> cache.st == Process(m, old(cache.st), h, p, x).value
  {
    hide Inv, Taken, SlotList, Offers, Positive, OfKind, StoreBudget, JointBudget, KVCache.Valid, KVCache.Shaped;
    ghost var st0 := cache.st;
    cache.Owned();
    var rk := ComputeResidual(x.kOrig, x.kHat, x.valid, m.en.cfg.pageSize, m.en.cfg.headDim);
    var rv := ComputeResidual(x.vOrig, x.vHat, x.valid, m.en.cfg.pageSize, m.en.cfg.headDim);
    var kCands, kErrs := Enumerate(m, KSlot, x, p, rk);
    var vCands, vErrs := Enumerate(m, VSlot, x, p, rv);
    var kScored, vScored := SortDesc(Positive(kCands)), SortDesc(Positive(vCands));
    var sel: seq<Candidate>;
    if StoresNothing(m.en.cfg.store) {
      sel := [];
    } else if m.en.cfg.storePolicy == StoreJoint {
      sel := Take(SortDesc(kScored + vScored), JointBudget(m));
    } else {
      sel := Take(kScored, StoreBudget(m, KSlot)) + Take(vScored, StoreBudget(m, VSlot));
    }
    var kSlots, vSlots;
    ok, kSlots, vSlots := StoreSelected(m, cache, h, p, x, sel);
    if ok {
      var meta := PageMeta(p, m.en.layer, h, x.start, x.valid, kSlots, vSlots, kErrs, vErrs, Sketches(m, x),
                           Total(sel));
      cache.SetMeta(m.en.layer, h, p, meta);
    }
  }
}
