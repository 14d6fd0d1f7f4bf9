/** One slot arena: fixed-size buffers, a free list, and who owns what was taken from it. */
module SlotArena {

  import opened Numbers
  import opened Config
  import opened ResidualPack
  import opened Selection

  /** The place a slot is stored for. */
  datatype Position = Position(layer: nat, head: nat, page: nat, group: nat)

  /** The owner of a slot, and the residual rows written to it. */
  datatype Claim = Claim(at: Position, rows: seq<Vec>)

  datatype Arena = Arena(buf: seq<Packed>, free: seq<nat>, claims: map<nat, Claim>)

  /** A K slot holds one channel group of a whole page; a V slot one token block of all channels. */
  function BlockRows(cfg: CacheConfig, kind: Kind): nat { if kind == KSlot then cfg.pageSize else cfg.vTokenBlock }

  function BlockWidth(cfg: CacheConfig, kind: Kind): nat { if kind == KSlot then cfg.kChannelGroup else cfg.headDim }

  predicate BlockOk(cfg: CacheConfig, kind: Kind, rows: seq<Vec>)
  {
    |rows| == BlockRows(cfg, kind) && forall i :: 0 <= i < |rows| ==> |rows[i]| == BlockWidth(cfg, kind)
  }

  function PackedRows(cfg: CacheConfig, kind: Kind, rows: seq<Vec>): (p: Packed)
    requires BlockOk(cfg, kind, rows)
    ensures p.Fits(BlockRows(cfg, kind) * BlockWidth(cfg, kind), cfg.residualBits)
  {
    PackBlock(rows, BlockWidth(cfg, kind), cfg.residualBits)
  }

  /** Bytes of one slot in the arena's buffer. */
  function SlotBytes(cfg: CacheConfig, kind: Kind): nat
  {
    BlockRows(cfg, kind) * BlockWidth(cfg, kind) * cfg.residualBits / 8
  }

  function PackedBytes(p: Packed): nat { if p.Wide? then |p.codes| else |p.bytes| }

  /** A packed block has the size of its row of the arena; the tensor assignment refuses any other. */
  predicate SlotHolds(cfg: CacheConfig, kind: Kind)
  {
    var n := BlockRows(cfg, kind) * BlockWidth(cfg, kind);
    SlotBytes(cfg, kind) == if cfg.residualBits == 8 then n else (n + 1) / 2
  }

  /** Whatever it holds, a packed block fills its slot exactly when the configuration's slots hold: at 8 bits
    * always, and at 4 bits when a block has an even number of entries, because the packer rounds an odd count
    * up and the buffer rounds it down. */
  lemma SlotFits(cfg: CacheConfig, kind: Kind, rows: seq<Vec>)
    requires BlockOk(cfg, kind, rows)
    ensures PackedBytes(PackedRows(cfg, kind, rows)) == SlotBytes(cfg, kind) <==> SlotHolds(cfg, kind)
    ensures cfg.residualBits in {4, 8} ==>
      (SlotHolds(cfg, kind) <==> cfg.residualBits == 8 || BlockRows(cfg, kind) * BlockWidth(cfg, kind) % 2 == 0)
  {
    hide PackBlock;
    var n := BlockRows(cfg, kind) * BlockWidth(cfg, kind);
    assert PackedRows(cfg, kind, rows).Fits(n, cfg.residualBits);
  }

  /** The rows a packed block unpacks to. */
  function ReadBack(cfg: CacheConfig, kind: Kind, p: Packed): (rows: seq<Vec>)
    requires p.Fits(BlockRows(cfg, kind) * BlockWidth(cfg, kind), cfg.residualBits)
    ensures BlockOk(cfg, kind, rows)
  {
    UnpackBlock(p, BlockRows(cfg, kind), BlockWidth(cfg, kind), cfg.residualBits)
  }

  /** Half a quantization step of a block. */
  function HalfStep(cfg: CacheConfig, kind: Kind, rows: seq<Vec>): real
    requires BlockOk(cfg, kind, rows)
  {
    SlotScale(Flatten(rows, BlockWidth(cfg, kind)), cfg.residualBits) / 2.0
  }

  /** Every entry of a block reads back within half a step, and zeros read back as zeros. */
  lemma ReadBackEntry(cfg: CacheConfig, kind: Kind, rows: seq<Vec>, i: nat, c: nat)
    requires BlockOk(cfg, kind, rows) && i < BlockRows(cfg, kind) && c < BlockWidth(cfg, kind)
    ensures var back := ReadBack(cfg, kind, PackedRows(cfg, kind, rows))[i][c];
      Within(rows[i][c], back, HalfStep(cfg, kind, rows)) && (rows[i][c] == 0.0 ==> back == 0.0)
  {
    hide UnpackBlock, PackBlock, SlotScale, Flatten, Within;
    BlockEntry(rows, BlockWidth(cfg, kind), cfg.residualBits, i, c);
  }

  /** And within `m / (2 * top)`, whatever bounds the block's entries. */
  lemma ReadBackWithin(cfg: CacheConfig, kind: Kind, rows: seq<Vec>, i: nat, c: nat, m: real)
    requires BlockOk(cfg, kind, rows) && i < BlockRows(cfg, kind) && c < BlockWidth(cfg, kind)
    requires RowsBounded(rows, m) && m >= 0.00000001
    ensures var back := ReadBack(cfg, kind, PackedRows(cfg, kind, rows))[i][c];
      && Within(rows[i][c], back, m / (2.0 * TopCode(cfg.residualBits) as real))
      && (Abs(rows[i][c]) == m ==> back == rows[i][c])
  {
    hide UnpackBlock, PackBlock, RowsBounded, Within, TopCode;
    BlockWithin(rows, BlockWidth(cfg, kind), cfg.residualBits, i, c, m);
  }

  // ---- invariant ----

  /** The free list has no duplicates and, with the slots that are owned, makes up the arena. */
  ghost predicate Partition(a: Arena)
  {
    && NoDup(a.free)
    && (forall s: nat :: s in a.free <==> s < |a.buf| && s !in a.claims)
    && (forall s :: s in a.claims ==> s < |a.buf|)
  }

  /** Every owned slot holds its owner's block. */
  ghost predicate Intact(cfg: CacheConfig, kind: Kind, a: Arena)
  {
    forall s :: s in a.claims ==>
      s < |a.buf| && BlockOk(cfg, kind, a.claims[s].rows) && a.buf[s] == PackedRows(cfg, kind, a.claims[s].rows)
  }

  ghost predicate Sized(cfg: CacheConfig, kind: Kind, a: Arena)
  {
    forall s :: 0 <= s < |a.buf| ==> a.buf[s].Fits(BlockRows(cfg, kind) * BlockWidth(cfg, kind), cfg.residualBits)
  }

  ghost predicate ArenaOk(cfg: CacheConfig, kind: Kind, a: Arena)
  {
    Partition(a) && Intact(cfg, kind, a) && Sized(cfg, kind, a)
  }

  /** Nothing owned in `a` changed hands or content in `b`. */
  ghost predicate Extends(a: Arena, b: Arena)
  {
    |a.buf| == |b.buf| && forall s :: s in a.claims ==>
      s in b.claims && b.claims[s] == a.claims[s] && (s < |a.buf| ==> b.buf[s] == a.buf[s])
  }

  // ---- taking a slot ----

  predicate HasFree(a: Arena, n: nat)
  {
    n <= |a.free| && forall i :: 0 <= i < n ==> a.free[i] < |a.buf|
  }

  /** Pop the head of the free list and write the block. */
  function Grab(cfg: CacheConfig, kind: Kind, a: Arena, c: Claim): (b: Arena)
    requires HasFree(a, 1) && BlockOk(cfg, kind, c.rows)
    ensures |b.buf| == |a.buf| && b.free == a.free[1..]
  {
    var s := a.free[0];
    Arena(a.buf[s := PackedRows(cfg, kind, c.rows)], a.free[1..], a.claims[s := c])
  }

  predicate BlocksOk(cfg: CacheConfig, kind: Kind, cs: seq<Claim>)
  {
    forall i :: 0 <= i < |cs| ==> BlockOk(cfg, kind, cs[i].rows)
  }

  function GrabAll(cfg: CacheConfig, kind: Kind, a: Arena, cs: seq<Claim>): (b: Arena)
    requires HasFree(a, |cs|) && BlocksOk(cfg, kind, cs)
    ensures |b.buf| == |a.buf| && b.free == a.free[|cs|..]
  {
    if cs == [] then a
    else Grab(cfg, kind, GrabAll(cfg, kind, a, cs[..|cs| - 1]), cs[|cs| - 1])
  }

  lemma GrabPartition(cfg: CacheConfig, kind: Kind, a: Arena, c: Claim)
    requires Partition(a) && HasFree(a, 1) && BlockOk(cfg, kind, c.rows)
    ensures Partition(Grab(cfg, kind, a, c))
  {
    hide PackedRows;
    var s, b := a.free[0], Grab(cfg, kind, a, c);
    forall t: nat ensures t in b.free <==> t < |b.buf| && t !in b.claims {
      if t in b.free { assert t in a.free && t != s; }
      if t < |b.buf| && t !in b.claims { assert t in a.free && t != s; }
    }
  }

  lemma GrabIntact(cfg: CacheConfig, kind: Kind, a: Arena, c: Claim)
    requires Intact(cfg, kind, a) && HasFree(a, 1) && BlockOk(cfg, kind, c.rows) && a.free[0] !in a.claims
    ensures Intact(cfg, kind, Grab(cfg, kind, a, c)) && Extends(a, Grab(cfg, kind, a, c))
  {
    hide PackedRows, BlockOk;
  }

  lemma GrabSized(cfg: CacheConfig, kind: Kind, a: Arena, c: Claim)
    requires Sized(cfg, kind, a) && HasFree(a, 1) && BlockOk(cfg, kind, c.rows)
    ensures Sized(cfg, kind, Grab(cfg, kind, a, c))
  {
    hide PackedRows, BlockOk;
  }

  lemma GrabCounts(cfg: CacheConfig, kind: Kind, a: Arena, c: Claim)
    requires HasFree(a, 1) && BlockOk(cfg, kind, c.rows) && a.free[0] !in a.claims
    ensures |Grab(cfg, kind, a, c).claims| == |a.claims| + 1
  {
    hide PackedRows, BlockOk;
    assert Grab(cfg, kind, a, c).claims.Keys == a.claims.Keys + {a.free[0]};
  }

  lemma HeadIsFree(a: Arena)
    requires Partition(a) && HasFree(a, 1)
    ensures a.free[0] !in a.claims
  {
    assert a.free[0] in a.free;
  }

  lemma GrabKeeps(cfg: CacheConfig, kind: Kind, a: Arena, c: Claim)
    requires ArenaOk(cfg, kind, a) && HasFree(a, 1) && BlockOk(cfg, kind, c.rows)
    ensures ArenaOk(cfg, kind, Grab(cfg, kind, a, c)) && Extends(a, Grab(cfg, kind, a, c))
    ensures |Grab(cfg, kind, a, c).claims| == |a.claims| + 1
  {
    hide Partition, Intact, Sized, Extends, Grab, BlockOk, HasFree;
    HeadIsFree(a);
    GrabPartition(cfg, kind, a, c);
    GrabIntact(cfg, kind, a, c);
    GrabSized(cfg, kind, a, c);
    GrabCounts(cfg, kind, a, c);
  }

  /** Taking slots keeps the partition, takes each at most once, hands out the front of the free list
    * in order, and leaves every owned slot alone. */
  lemma {:induction false} GrabAllKeeps(cfg: CacheConfig, kind: Kind, a: Arena, cs: seq<Claim>)
    requires ArenaOk(cfg, kind, a) && HasFree(a, |cs|) && BlocksOk(cfg, kind, cs)
    ensures var b := GrabAll(cfg, kind, a, cs);
      && ArenaOk(cfg, kind, b) && Extends(a, b) && |b.claims| == |a.claims| + |cs| && Granted(a, cs, b)
  {
    hide ArenaOk, Grab, BlockOk, Extends, Granted;
    if cs == [] {
      ExtendsSelf(a);
    } else {
      var n := |cs| - 1;
      GrabAllKeeps(cfg, kind, a, cs[..n]);
      var mid := GrabAll(cfg, kind, a, cs[..n]);
      GrabKeeps(cfg, kind, mid, cs[n]);
      ExtendsTrans(a, mid, Grab(cfg, kind, mid, cs[n]));
      GrantMore(cfg, kind, a, cs, mid);
    }
  }

  /** Slot `i` of the old free list went to claim `i`. */
  ghost predicate Granted(a: Arena, cs: seq<Claim>, b: Arena)
  {
    forall i :: 0 <= i < |cs| && i < |a.free| ==> a.free[i] in b.claims && b.claims[a.free[i]] == cs[i]
  }

  lemma ExtendsSelf(a: Arena)
    ensures Extends(a, a) && Granted(a, [], a)
  {
  }

  lemma GrantMore(cfg: CacheConfig, kind: Kind, a: Arena, cs: seq<Claim>, mid: Arena)
    requires cs != [] && HasFree(a, |cs|) && HasFree(mid, 1) && mid.free == a.free[|cs| - 1..]
    requires Granted(a, cs[..|cs| - 1], mid) && BlockOk(cfg, kind, cs[|cs| - 1].rows)
    requires Extends(mid, Grab(cfg, kind, mid, cs[|cs| - 1]))
    ensures Granted(a, cs, Grab(cfg, kind, mid, cs[|cs| - 1]))
  {
    hide Grab, BlockOk;
    var n := |cs| - 1;
    GrabGives(cfg, kind, mid, cs[n]);
    assert mid.free[0] == a.free[n];
    forall i | 0 <= i < n ensures cs[..n][i] == cs[i] {}
  }

  lemma GrabGives(cfg: CacheConfig, kind: Kind, a: Arena, c: Claim)
    requires HasFree(a, 1) && BlockOk(cfg, kind, c.rows)
    ensures var b := Grab(cfg, kind, a, c); a.free[0] in b.claims && b.claims[a.free[0]] == c
  {
  }

  lemma ExtendsTrans(a: Arena, b: Arena, c: Arena)
    requires Extends(a, b) && Extends(b, c)
    ensures Extends(a, c)
  {
  }

  lemma PartitionFree(a: Arena, n: nat)
    requires Partition(a) && n <= |a.free|
    ensures HasFree(a, n)
  {
    forall i | 0 <= i < n ensures a.free[i] < |a.buf| { assert a.free[i] in a.free; }
  }

  // ---- counting ----

  /** Free and owned slots add up to the arena. */
  lemma PartitionCounts(a: Arena)
    requires Partition(a)
    ensures |a.free| + |a.claims| == |a.buf|
  {
    var free := set s | s in a.free;
    NoDupSize(a.free, free);
    RangeSize(|a.buf|, free + a.claims.Keys);
    assert free !! a.claims.Keys;
    assert |a.claims.Keys| == |a.claims|;
  }

  // ---- giving a slot back ----

  function Release(a: Arena, s: nat): Arena { Arena(a.buf, a.free + [s], a.claims - {s}) }

  /** Freeing keeps the partition exactly when the slot is owned: a second free of the same slot
    * puts it on the list twice. */
  lemma ReleaseIff(a: Arena, s: nat)
    requires Partition(a) && s < |a.buf|
    ensures Partition(Release(a, s)) <==> s in a.claims
  {
    var b := Release(a, s);
    if s in a.claims {
      forall t: nat ensures t in b.free <==> t < |b.buf| && t !in b.claims {
        if t == s { assert b.free[|a.free|] == s; }
        if t in a.free {
          var i :| 0 <= i < |a.free| && a.free[i] == t;
          assert b.free[i] == t;
        }
      }
      assert s !in a.free;
    } else {
      assert s in a.free;
      var i :| 0 <= i < |a.free| && a.free[i] == s;
      assert b.free[i] == s && b.free[|a.free|] == s;
    }
  }
}
