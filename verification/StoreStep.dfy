/** Processing one page: slots taken for its selected blocks, and its metadata overwritten. */
module StoreStep {

  import opened Numbers
  import opened Sums
  import opened Config
  import opened Selection
  import opened Pages
  import opened SlotArena
  import opened CacheState
  import opened StorePlan

  predicate GroupsIn(m: Manager, kind: Kind, picks: seq<Candidate>)
    requires m.en.Valid()
  {
    forall i :: 0 <= i < |picks| ==> picks[i].group < NumGroups(m.en.cfg, kind)
  }

  function ClaimOf(m: Manager, kind: Kind, x: PageInput, h: nat, p: nat, g: nat): (c: Claim)
    requires m.en.Valid() && InputOk(m.en.cfg, x) && g < NumGroups(m.en.cfg, kind)
    ensures BlockOk(m.en.cfg, kind, c.rows)
  {
    Claim(Position(m.en.layer, h, p, g), BlockOf(m.en.cfg, kind, ResidualOf(m.en.cfg, kind, x), g))
  }

  /** What the selected blocks of one kind claim. */
  function Claims(m: Manager, kind: Kind, x: PageInput, h: nat, p: nat, picks: seq<Candidate>): (cs: seq<Claim>)
    requires m.en.Valid() && InputOk(m.en.cfg, x) && GroupsIn(m, kind, picks)
    ensures |cs| == |picks| && BlocksOk(m.en.cfg, kind, cs)
  {
    seq(|picks|, i requires 0 <= i < |picks| => ClaimOf(m, kind, x, h, p, picks[i].group))
  }

  /** The slot list of a page: the front of the free list for the picked groups, -1 for the others. */
  function Assign(picks: seq<Candidate>, free: seq<nat>, n: nat): (slots: seq<int>)
    requires |picks| <= |free| && forall i :: 0 <= i < |picks| ==> picks[i].group < n
    ensures |slots| == n
  {
    if picks == [] then seq(n, _ => -1)
    else Assign(picks[..|picks| - 1], free, n)[picks[|picks| - 1].group := free[|picks| - 1]]
  }

  predicate DistinctGroups(picks: seq<Candidate>)
  {
    forall i, j :: 0 <= i < j < |picks| ==> picks[i].group != picks[j].group
  }

  /** Each picked group has its own slot, and no other group has one. */
  lemma {:induction false} AssignedSlots(picks: seq<Candidate>, free: seq<nat>, n: nat)
    requires |picks| <= |free| && DistinctGroups(picks) && forall i :: 0 <= i < |picks| ==> picks[i].group < n
    ensures var slots := Assign(picks, free, n);
      && (forall i :: 0 <= i < |picks| ==> slots[picks[i].group] == free[i])
      && (forall g :: 0 <= g < n && slots[g] >= 0 ==> exists i :: 0 <= i < |picks| && picks[i].group == g)
  {
    if picks == [] {
    } else {
      var k := |picks| - 1;
      AssignedSlots(picks[..k], free, n);
      var before, slots := Assign(picks[..k], free, n), Assign(picks, free, n);
      forall i | 0 <= i < k ensures slots[picks[i].group] == free[i] { assert picks[..k][i] == picks[i]; }
      forall g | 0 <= g < n && slots[g] >= 0 ensures exists i :: 0 <= i < |picks| && picks[i].group == g {
        if g != picks[k].group {
          var i :| 0 <= i < k && picks[..k][i].group == g;
          assert picks[i].group == g;
        }
      }
    }
  }

  lemma OffersDistinct(m: Manager, kind: Kind, x: PageInput, p: nat, picks: seq<Candidate>)
    requires m.en.Valid() && InputOk(m.en.cfg, x) && AllOffers(m, kind, x, p, picks)
    ensures DistinctGroups(picks) && GroupsIn(m, kind, picks)
  {
    hide Prior;
    forall i, j | 0 <= i < j < |picks| ensures picks[i].group != picks[j].group {
      assert Offer(m, kind, x, p, picks[i]) && Offer(m, kind, x, p, picks[j]);
    }
  }

  lemma PicksOk(m: Manager, kind: Kind, x: PageInput, p: nat)
    requires m.en.Valid() && InputOk(m.en.cfg, x)
    ensures DistinctGroups(SelectedOf(m, kind, x, p)) && GroupsIn(m, kind, SelectedOf(m, kind, x, p))
  {
    hide AllOffers, Scored, SelectedOf;
    SelectedPrefix(m, kind, x, p);
    OffersDistinct(m, kind, x, p, SelectedOf(m, kind, x, p));
  }

  function Errors(m: Manager, kind: Kind, x: PageInput): (e: Vec)
    requires m.en.Valid() && InputOk(m.en.cfg, x)
    ensures |e| == NumGroups(m.en.cfg, kind)
  {
    seq(NumGroups(m.en.cfg, kind), g requires 0 <= g < NumGroups(m.en.cfg, kind) => GroupError(m, kind, x, g))
  }

  function Sketches(m: Manager, x: PageInput): (s: seq<Vec>)
    requires m.en.Valid() && InputOk(m.en.cfg, x)
    ensures |s| == m.en.cfg.NumCg()
  {
    seq(m.en.cfg.NumCg(), g requires 0 <= g < m.en.cfg.NumCg() => Sketch(m, x, g))
  }

  function MetaOf(m: Manager, x: PageInput, h: nat, p: nat, kSlots: seq<int>, vSlots: seq<int>): PageMeta
    requires m.en.Valid() && InputOk(m.en.cfg, x)
  {
    var sel := Selected(m, x, p);
    PageMeta(p, m.en.layer, h, x.start, x.valid, kSlots, vSlots, Errors(m, KSlot, x), Errors(m, VSlot, x),
             Sketches(m, x), Sum(0, |sel|, Values(Scores(sel))))
  }

  /** The page a step works on exists. */
  ghost predicate Target(m: Manager, st: State, h: nat, p: nat)
  {
    && m.en.Valid() && Inv(m.en.cfg, st)
    && |st.heads| == m.en.cfg.numLayers && h < m.en.cfg.numKvHeads == |st.heads[m.en.layer]|
    && |st.heads[m.en.layer][h].pages| == m.en.cfg.maxPages
    && p < st.heads[m.en.layer][h].next <= m.en.cfg.maxPages
  }

  /** Enough free slots for what the page will store, and slots of the size of its blocks. */
  predicate Room(m: Manager, st: State, x: PageInput, p: nat)
    requires m.en.Valid() && InputOk(m.en.cfg, x)
  {
    && |SelectedOf(m, KSlot, x, p)| <= |st.k.free| && |SelectedOf(m, VSlot, x, p)| <= |st.v.free|
    && (SelectedOf(m, KSlot, x, p) == [] || SlotHolds(m.en.cfg, KSlot))
    && (SelectedOf(m, VSlot, x, p) == [] || SlotHolds(m.en.cfg, VSlot))
  }

  ghost function Taken(m: Manager, kind: Kind, a: Arena, h: nat, p: nat, x: PageInput): Arena
    requires m.en.Valid() && InputOk(m.en.cfg, x) && Partition(a) && |SelectedOf(m, kind, x, p)| <= |a.free|
  {
    PicksOk(m, kind, x, p);
    PartitionFree(a, |SelectedOf(m, kind, x, p)|);
    GrabAll(m.en.cfg, kind, a, Claims(m, kind, x, h, p, SelectedOf(m, kind, x, p)))
  }

  ghost function SlotList(m: Manager, kind: Kind, a: Arena, p: nat, x: PageInput): (slots: seq<int>)
    requires m.en.Valid() && InputOk(m.en.cfg, x) && |SelectedOf(m, kind, x, p)| <= |a.free|
    ensures |slots| == NumGroups(m.en.cfg, kind)
  {
    PicksOk(m, kind, x, p);
    Assign(SelectedOf(m, kind, x, p), a.free, NumGroups(m.en.cfg, kind))
  }

  /** The metadata the page ends up with. */
  ghost function NewMeta(m: Manager, st: State, h: nat, p: nat, x: PageInput): PageMeta
    requires m.en.Valid() && InputOk(m.en.cfg, x) && Room(m, st, x, p)
  {
    MetaOf(m, x, h, p, SlotList(m, KSlot, st.k, p, x), SlotList(m, VSlot, st.v, p, x))
  }

  /** `process_page`: fails when an arena runs out or a block does not fit a slot. */
  ghost function Process(m: Manager, st: State, h: nat, p: nat, x: PageInput): Option<State>
    requires Target(m, st, h, p) && InputOk(m.en.cfg, x)
  {
    if !Room(m, st, x, p) then None
    else
      var hd := SetMeta(st.heads[m.en.layer][h], p, NewMeta(m, st, h, p, x));
      Some(State(SetHead(st, m.en.layer, h, hd).heads, Taken(m, KSlot, st.k, h, p, x), Taken(m, VSlot, st.v, h, p, x)))
  }

  /** When processing fails: an arena is short of slots, or a block to be stored has an odd number of entries
    * at 4 bits and is half a byte larger than its slot. */
  lemma ProcessFailsIff(m: Manager, st: State, h: nat, p: nat, x: PageInput)
    requires Target(m, st, h, p) && InputOk(m.en.cfg, x) && m.en.cfg.residualBits in {4, 8}
    ensures Process(m, st, h, p, x).None? <==>
      exists kind ::
        || |SelectedOf(m, kind, x, p)| > |ArenaOf(st, kind).free|
        || (SelectedOf(m, kind, x, p) != [] && m.en.cfg.residualBits == 4
            && BlockRows(m.en.cfg, kind) * BlockWidth(m.en.cfg, kind) % 2 == 1)
  {
    hide SelectedOf, Inv, Taken, NewMeta, SlotHolds;
    forall kind ensures SlotHolds(m.en.cfg, kind) <==>
      m.en.cfg.residualBits == 8 || BlockRows(m.en.cfg, kind) * BlockWidth(m.en.cfg, kind) % 2 == 0
    {
      SlotFits(m.en.cfg, kind, seq(BlockRows(m.en.cfg, kind), _ => ZeroRow(BlockWidth(m.en.cfg, kind))));
    }
  }

  // ---- what it keeps ----

  lemma TakenKeeps(m: Manager, kind: Kind, a: Arena, h: nat, p: nat, x: PageInput)
    requires m.en.Valid() && InputOk(m.en.cfg, x) && ArenaOk(m.en.cfg, kind, a)
    requires |SelectedOf(m, kind, x, p)| <= |a.free|
    ensures var b := Taken(m, kind, a, h, p, x);
      && ArenaOk(m.en.cfg, kind, b) && Extends(a, b) && |b.claims| == |a.claims| + |SelectedOf(m, kind, x, p)|
  {
    hide Partition, Intact, Sized, Extends, SelectedOf, Claims, Granted, BlocksOk;
    PicksOk(m, kind, x, p);
    PartitionFree(a, |SelectedOf(m, kind, x, p)|);
    GrabAllKeeps(m.en.cfg, kind, a, Claims(m, kind, x, h, p, SelectedOf(m, kind, x, p)));
  }

  /** Every slot the new metadata lists was claimed for its group, with its block. */
  lemma SlotsClaimed(m: Manager, kind: Kind, a: Arena, h: nat, p: nat, x: PageInput, g: nat)
    requires m.en.Valid() && InputOk(m.en.cfg, x) && ArenaOk(m.en.cfg, kind, a)
    requires |SelectedOf(m, kind, x, p)| <= |a.free| && g < NumGroups(m.en.cfg, kind)
    requires SlotList(m, kind, a, p, x)[g] >= 0
    ensures var slot, b := SlotList(m, kind, a, p, x)[g], Taken(m, kind, a, h, p, x);
      slot in b.claims && b.claims[slot] == ClaimOf(m, kind, x, h, p, g)
  {
    hide ArenaOk, Extends, SelectedOf, ClaimOf, BlocksOk;
    PicksOk(m, kind, x, p);
    var picks := SelectedOf(m, kind, x, p);
    ArenaPartition(m.en.cfg, kind, a);
    PartitionFree(a, |picks|);
    GrabAllKeeps(m.en.cfg, kind, a, Claims(m, kind, x, h, p, picks));
    AssignedSlots(picks, a.free, NumGroups(m.en.cfg, kind));
    var i :| 0 <= i < |picks| && picks[i].group == g;
    assert Claims(m, kind, x, h, p, picks)[i] == ClaimOf(m, kind, x, h, p, g);
  }

  lemma ArenaPartition(cfg: CacheConfig, kind: Kind, a: Arena)
    requires ArenaOk(cfg, kind, a)
    ensures Partition(a)
  {
  }

  lemma NewSlotsOk(m: Manager, kind: Kind, a: Arena, h: nat, p: nat, x: PageInput, meta: PageMeta)
    requires m.en.Valid() && InputOk(m.en.cfg, x) && ArenaOk(m.en.cfg, kind, a)
    requires |SelectedOf(m, kind, x, p)| <= |a.free|
    requires Slots(meta, kind) == SlotList(m, kind, a, p, x) && meta.numTokens == x.valid
    ensures SlotsOk(m.en.cfg, kind, Taken(m, kind, a, h, p, x), meta, m.en.layer, h, p)
  {
    hide ArenaOk, SelectedOf, SlotList, Taken, ZeroFrom, BlockOf, ResidualOf;
    ArenaPartition(m.en.cfg, kind, a);
    forall g | 0 <= g < |Slots(meta, kind)|
      ensures SlotOk(m.en.cfg, kind, Taken(m, kind, a, h, p, x), Slots(meta, kind)[g],
                     Position(m.en.layer, h, p, g), meta.numTokens)
    {
      if Slots(meta, kind)[g] >= 0 {
        SlotsClaimed(m, kind, a, h, p, x, g);
        BlockZeroFrom(m.en.cfg, kind, x, g);
      }
    }
  }

  lemma ArenasOk(cfg: CacheConfig, st: State)
    requires Inv(cfg, st)
    ensures ArenaOk(cfg, KSlot, st.k) && ArenaOk(cfg, VSlot, st.v)
  {
  }

  lemma NewPageRefs(m: Manager, st: State, h: nat, p: nat, x: PageInput, page: PageState)
    requires m.en.Valid() && InputOk(m.en.cfg, x) && Room(m, st, x, p) && x.valid <= page.valid
    requires ArenaOk(m.en.cfg, KSlot, st.k) && ArenaOk(m.en.cfg, VSlot, st.v)
    requires page.meta == Some(NewMeta(m, st, h, p, x))
    ensures PageRefs(m.en.cfg, Taken(m, KSlot, st.k, h, p, x), Taken(m, VSlot, st.v, h, p, x), page, m.en.layer, h, p)
  {
    hide ArenaOk, SelectedOf, SlotList, Taken, SlotsOk, Errors, Sketches, Selected;
    ArenaPartition(m.en.cfg, KSlot, st.k);
    ArenaPartition(m.en.cfg, VSlot, st.v);
    var meta := NewMeta(m, st, h, p, x);
    NewSlotsOk(m, KSlot, st.k, h, p, x, meta);
    NewSlotsOk(m, VSlot, st.v, h, p, x, meta);
  }

  /** Processing a page keeps the invariant: partitions, ownership, and every block already stored. */
  lemma ProcessKeeps(m: Manager, st: State, h: nat, p: nat, x: PageInput)
    requires Target(m, st, h, p) && InputOk(m.en.cfg, x) && Process(m, st, h, p, x).Some?
    requires x.valid <= st.heads[m.en.layer][h].pages[p].valid
    ensures var st' := Process(m, st, h, p, x).value;
      && Inv(m.en.cfg, st') && Extends(st.k, st'.k) && Extends(st.v, st'.v)
      && |st'.k.claims| == |st.k.claims| + |SelectedOf(m, KSlot, x, p)|
      && |st'.v.claims| == |st.v.claims| + |SelectedOf(m, VSlot, x, p)|
  {
    hide ArenaOk, SelectedOf, NewMeta, Taken, Extends, HeadOk, HeadRefs, PageOk, PageRefs, HeadsOk;
    var cfg, l := m.en.cfg, m.en.layer;
    ArenaPartition(cfg, KSlot, st.k);
    ArenaPartition(cfg, VSlot, st.v);
    var hd, k', v' := st.heads[l][h], Taken(m, KSlot, st.k, h, p, x), Taken(m, VSlot, st.v, h, p, x);
    TakenKeeps(m, KSlot, st.k, h, p, x);
    TakenKeeps(m, VSlot, st.v, h, p, x);
    OneHead(cfg, st, l, h);
    RefsExtend(cfg, st.k, st.v, k', v', hd, l, h);
    var page := hd.pages[p].(meta := Some(NewMeta(m, st, h, p, x)));
    NewPageRefs(m, st, h, p, x, page);
    MetaPageOk(cfg, hd, p, page);
    PageStep(cfg, k', v', hd, p, page, l, h);
    HeadStep(cfg, st, l, h, SetPage(hd, p, page), k', v');
  }

  lemma MetaPageOk(cfg: CacheConfig, hd: Head, p: nat, page: PageState)
    requires HeadOk(cfg, hd) && p < hd.next
    requires page.rows == hd.pages[p].rows && page.valid == hd.pages[p].valid
    ensures PageOk(cfg, page)
  {
    assert PageOk(cfg, hd.pages[p]);
  }

  /** Re-processing a page against its own dequantized rows takes no slot, so it cannot fail; the slots
    * its old metadata listed stay owned, but no page refers to them any more. */
  lemma ReprocessTakesNothing(m: Manager, st: State, h: nat, p: nat, x: PageInput)
    requires Target(m, st, h, p) && InputOk(m.en.cfg, x) && NormOk(m.en.ker)
    requires x.kOrig == x.kHat && x.vOrig == x.vHat
    ensures Process(m, st, h, p, x).Some?
    ensures var st' := Process(m, st, h, p, x).value;
      var meta := st'.heads[m.en.layer][h].pages[p].meta;
      && st'.k == st.k && st'.v == st.v && meta.Some?
      && (forall g :: 0 <= g < |meta.value.kSlots| ==> meta.value.kSlots[g] == -1)
      && (forall g :: 0 <= g < |meta.value.vSlots| ==> meta.value.vSlots[g] == -1)
  {
    hide NormOk, SelectedOf, Inv, Errors, Sketches;
    ReprocessingStoresNothing(m, x, p);
  }

  /** The errors a page's metadata records, which the router scores with, are never negative. */
  lemma RecordedErrors(m: Manager, st: State, h: nat, p: nat, x: PageInput)
    requires m.en.Valid() && InputOk(m.en.cfg, x) && Room(m, st, x, p)
    requires forall v: Vec :: m.en.ker.norm(v) >= 0.0
    ensures forall g :: 0 <= g < |NewMeta(m, st, h, p, x).kErr| ==> NewMeta(m, st, h, p, x).kErr[g] >= 0.0
    ensures forall g :: 0 <= g < |NewMeta(m, st, h, p, x).vErr| ==> NewMeta(m, st, h, p, x).vErr[g] >= 0.0
  {
    hide GroupError, SelectedOf, Sketches, Selected, SlotHolds;
    forall kind, g: nat | g < NumGroups(m.en.cfg, kind) ensures GroupError(m, kind, x, g) >= 0.0 {
      ErrorNonNegative(m, kind, x, g);
    }
  }

  lemma ErrorNonNegative(m: Manager, kind: Kind, x: PageInput, g: nat)
    requires m.en.Valid() && InputOk(m.en.cfg, x) && g < NumGroups(m.en.cfg, kind)
    requires forall v: Vec :: m.en.ker.norm(v) >= 0.0
    ensures GroupError(m, kind, x, g) >= 0.0
  {
    hide BlockOf, ResidualOf, Live;
    var n := Live(m.en.cfg, kind, g, x.valid);
    var f := Norms(m.en.ker, BlockOf(m.en.cfg, kind, ResidualOf(m.en.cfg, kind, x), g));
    SumNonNeg(0, n, f);
    if n > 0 && Sum(0, n, f) > 0.0 { QuotientPositive(Sum(0, n, f), n as real); }
  }

  // ---- what a stored slot is worth ----

  /** Reading a K block back from the slot it was written to: base plus residual is within half a slot
    * step of the original, where base alone was off by the whole residual. */
  lemma StoredKRestores(m: Manager, x: PageInput, h: nat, p: nat, g: nat, i: nat, c: nat)
    requires m.en.Valid() && InputOk(m.en.cfg, x) && g < m.en.cfg.NumCg()
    requires i < x.valid && c < m.en.cfg.kChannelGroup
    ensures g * m.en.cfg.kChannelGroup + c < m.en.cfg.headDim
    ensures var cfg, d := m.en.cfg, g * m.en.cfg.kChannelGroup + c;
      var rows := ClaimOf(m, KSlot, x, h, p, g).rows;
      Within(x.kOrig[i][d], x.kHat[i][d] + ReadBack(cfg, KSlot, PackedRows(cfg, KSlot, rows))[i][c],
             HalfStep(cfg, KSlot, rows))
  {
    hide ReadBack, PackedRows, HalfStep;
    var cfg := m.en.cfg;
    ChannelGroupFits(cfg, g);
    var rows := ClaimOf(m, KSlot, x, h, p, g).rows;
    ReadBackEntry(cfg, KSlot, rows, i, c);
    assert rows[i][c] == x.kOrig[i][g * cfg.kChannelGroup + c] - x.kHat[i][g * cfg.kChannelGroup + c];
  }

  /** The same for a V block. */
  lemma StoredVRestores(m: Manager, x: PageInput, h: nat, p: nat, b: nat, i: nat, d: nat)
    requires m.en.Valid() && InputOk(m.en.cfg, x) && b < m.en.cfg.NumVb()
    requires i < m.en.cfg.vTokenBlock && b * m.en.cfg.vTokenBlock + i < x.valid && d < m.en.cfg.headDim
    ensures var cfg, t := m.en.cfg, b * m.en.cfg.vTokenBlock + i;
      var rows := ClaimOf(m, VSlot, x, h, p, b).rows;
      Within(x.vOrig[t][d], x.vHat[t][d] + ReadBack(cfg, VSlot, PackedRows(cfg, VSlot, rows))[i][d],
             HalfStep(cfg, VSlot, rows))
  {
    hide ReadBack, PackedRows, HalfStep;
    var cfg := m.en.cfg;
    var rows := ClaimOf(m, VSlot, x, h, p, b).rows;
    ReadBackEntry(cfg, VSlot, rows, i, d);
    var t := b * cfg.vTokenBlock + i;
    assert rows[i][d] == x.vOrig[t][d] - x.vHat[t][d];
  }

  /** The block of a selected group is in the slot its metadata lists. */
  lemma StoredBlock(m: Manager, st: State, h: nat, p: nat, x: PageInput, kind: Kind, g: nat)
    requires Target(m, st, h, p) && InputOk(m.en.cfg, x) && Process(m, st, h, p, x).Some?
    requires g < NumGroups(m.en.cfg, kind)
    ensures var st' := Process(m, st, h, p, x).value;
      var slots := Slots(NewMeta(m, st, h, p, x), kind);
      && st'.heads[m.en.layer][h].pages[p].meta == Some(NewMeta(m, st, h, p, x)) && |slots| == NumGroups(m.en.cfg, kind)
      && (slots[g] >= 0 <==>
          exists i :: 0 <= i < |SelectedOf(m, kind, x, p)| && SelectedOf(m, kind, x, p)[i].group == g)
      && (slots[g] >= 0 ==>
            slots[g] < |ArenaOf(st', kind).buf|
            && ArenaOf(st', kind).buf[slots[g]] == PackedRows(m.en.cfg, kind, ClaimOf(m, kind, x, h, p, g).rows))
  {
    hide Inv, SelectedOf, Errors, Sketches, PackedRows, ClaimOf, Selected, SlotList, Taken, Partition, Sized;
    ArenasOk(m.en.cfg, st);
    var a := ArenaOf(st, kind);
    SlotListed(m, kind, a, p, x, g);
    if SlotList(m, kind, a, p, x)[g] >= 0 {
      SlotsClaimed(m, kind, a, h, p, x, g);
      TakenKeeps(m, kind, a, h, p, x);
    }
  }

  lemma SlotListed(m: Manager, kind: Kind, a: Arena, p: nat, x: PageInput, g: nat)
    requires m.en.Valid() && InputOk(m.en.cfg, x) && |SelectedOf(m, kind, x, p)| <= |a.free|
    requires g < NumGroups(m.en.cfg, kind)
    ensures SlotList(m, kind, a, p, x)[g] >= 0
       <==> exists i :: 0 <= i < |SelectedOf(m, kind, x, p)| && SelectedOf(m, kind, x, p)[i].group == g
  {
    hide SelectedOf;
    PicksOk(m, kind, x, p);
    AssignedSlots(SelectedOf(m, kind, x, p), a.free, NumGroups(m.en.cfg, kind));
  }
}
