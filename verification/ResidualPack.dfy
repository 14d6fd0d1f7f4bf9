/** Packing a residual block into a fixed-size slot, at 4 or 8 bits, and reading it back. */
module ResidualPack {

  import opened Numbers
  import opened Quantizer

  /** What a slot holds: int8 data and one scale. The 4-bit packer puts two codes in a byte; the
    * 8-bit one stores each code as it is. */
  datatype Packed =
    | Nibbles(bytes: seq<Byte>, scale: real)
    | Wide(codes: seq<int>, scale: real)
  {
    /** Holds `numel` entries at the given width; every width but 8 packs nibbles. */
    predicate Fits(numel: nat, bits: nat)
    {
      if bits == 8 then Wide? && |codes| == numel else Nibbles? && |bytes| == (numel + 1) / 2
    }
  }

  function TopCode(bits: nat): int { if bits == 8 then 127 else 7 }

  function SlotScale(x: Vec, bits: nat): (s: real)
    ensures s > 0.0
  {
    RMax(MaxAbs(x), 0.00000001) / TopCode(bits) as real
  }

  function SlotCode(x: real, s: real, bits: nat): (c: int)
    requires s > 0.0
    ensures -TopCode(bits) - 1 <= c <= TopCode(bits)
  {
    Clamp(Round(x / s), -TopCode(bits) - 1, TopCode(bits))
  }

  function SlotCodes(x: Vec, bits: nat): (codes: seq<int>)
    ensures |codes| == |x|
    ensures forall i :: 0 <= i < |x| ==> -TopCode(bits) - 1 <= codes[i] <= TopCode(bits)
  {
    seq(|x|, i requires 0 <= i < |x| => SlotCode(x[i], SlotScale(x, bits), bits))
  }

  function NibbleRow(codes: seq<int>): (b: seq<Byte>)
    requires forall i :: 0 <= i < |codes| ==> -8 <= codes[i] <= 7
    ensures |b| == |codes|
  {
    seq(|codes|, i requires 0 <= i < |codes| => ToByte(codes[i]))
  }

  function PairByte(a: Byte, b: Byte): Byte { (a & 0x0F) | ((b << 4) & 0xF0) }

  function NibbleAt(codes: seq<Byte>, j: nat): Byte { if j < |codes| then codes[j] else 0 }

  /** Neighbours share a byte, the first in the low half; an odd count is padded with a zero. */
  function PackNibbles(codes: seq<Byte>): (p: seq<Byte>)
    ensures |p| == (|codes| + 1) / 2
  {
    seq((|codes| + 1) / 2, i requires 0 <= i < (|codes| + 1) / 2 =>
      PairByte(NibbleAt(codes, 2 * i), NibbleAt(codes, 2 * i + 1)))
  }

  function PackResidual(x: Vec, bits: nat): (p: Packed)
    ensures p.Fits(|x|, bits) && p.scale == SlotScale(x, bits)
  {
    if bits == 8 then Wide(SlotCodes(x, 8), SlotScale(x, bits))
    else Nibbles(PackNibbles(NibbleRow(SlotCodes(x, bits))), SlotScale(x, bits))
  }

  function UnpackCodes(p: Packed, numel: nat, bits: nat): (codes: seq<int>)
    requires p.Fits(numel, bits)
    ensures |codes| == numel
  {
    if bits == 8 then p.codes
    else
      var b := Unpack(4, p.bytes, numel);
      seq(numel, i requires 0 <= i < numel => ToInt(b[i]))
  }

  function UnpackResidual(p: Packed, numel: nat, bits: nat): (x: Vec)
    requires p.Fits(numel, bits)
    ensures |x| == numel
  {
    seq(numel, i requires 0 <= i < numel => UnpackCodes(p, numel, bits)[i] as real * p.scale)
  }

  /** The residual packer masks after shifting, the base packer before; the byte is the same. */
  lemma NibbleForms(a: Byte, b: Byte)
    ensures PairByte(a, b) == Pack4(a, b)
  {
  }

  lemma {:induction false} PairPacked(codes: seq<Byte>, i: nat)
    requires |codes| % 2 == 0 && 2 * i + 1 < |codes|
    ensures i < |PackGroups(4, codes)| && PackGroups(4, codes)[i] == Pack4(codes[2 * i], codes[2 * i + 1])
  {
    hide Pack4;
    GroupCount(4, |codes|);
    if i == 0 {
    } else {
      PairPacked(codes[2..], i - 1);
    }
  }

  /** The residual packer is the base buffers' 4-bit packer, for any number of codes. */
  lemma NibblesArePack(codes: seq<Byte>)
    ensures PackNibbles(codes) == Pack(4, codes)
  {
    hide Pack4, PackGroups, PairByte;
    var padded := Pad(4, codes);
    forall i | 0 <= i < (|codes| + 1) / 2 ensures PackNibbles(codes)[i] == Pack(4, codes)[i] {
      NibbleForms(NibbleAt(codes, 2 * i), NibbleAt(codes, 2 * i + 1));
      PairPacked(padded, i);
    }
  }

  lemma NibbleByte(c: int)
    requires -8 <= c <= 7
    ensures CodeByte(4, ToByte(c)) && ToInt(ToByte(c)) == c
  {
  }

  lemma NibbleRowRoundTrip(codes: seq<int>)
    requires forall i :: 0 <= i < |codes| ==> -8 <= codes[i] <= 7
    ensures Unpack(4, PackNibbles(NibbleRow(codes)), |codes|) == NibbleRow(codes)
    ensures forall i :: 0 <= i < |codes| ==> ToInt(NibbleRow(codes)[i]) == codes[i]
  {
    hide ToByte, ToInt, CodeByte, Pack, Unpack, PackNibbles, PairByte;
    NibblesArePack(NibbleRow(codes));
    forall k | 0 <= k < |codes|
      ensures CodeByte(4, NibbleRow(codes)[k]) && ToInt(NibbleRow(codes)[k]) == codes[k]
    {
      NibbleByte(codes[k]);
    }
    PackRoundTrip(4, NibbleRow(codes));
  }

  /** The codes survive the slot, whatever the width and the number of entries. */
  lemma SlotCodesRoundTrip(x: Vec, bits: nat)
    ensures UnpackCodes(PackResidual(x, bits), |x|, bits) == SlotCodes(x, bits)
  {
    hide SlotCodes, NibbleRow, ToInt, PackNibbles, Unpack;
    if bits != 8 { NibbleRowRoundTrip(SlotCodes(x, bits)); }
  }

  /** What comes back out of a slot is the code times the scale, entry by entry. */
  lemma UnpackedEntry(x: Vec, bits: nat, i: nat)
    requires i < |x|
    ensures UnpackResidual(PackResidual(x, bits), |x|, bits)[i]
         == SlotCode(x[i], SlotScale(x, bits), bits) as real * SlotScale(x, bits)
  {
    hide SlotCode, SlotScale, PackResidual, UnpackCodes;
    SlotCodesRoundTrip(x, bits);
  }

  /** A zero entry reads back as exactly zero. */
  lemma ZeroStaysZero(x: Vec, bits: nat, i: nat)
    requires i < |x| && x[i] == 0.0
    ensures UnpackResidual(PackResidual(x, bits), |x|, bits)[i] == 0.0
  {
    hide PackResidual, UnpackResidual, SlotScale;
    UnpackedEntry(x, bits, i);
    assert x[i] / SlotScale(x, bits) == 0.0;
  }

  /** Every entry reads back within half a step. */
  lemma ResidualAccurate(x: Vec, bits: nat, i: nat)
    requires i < |x|
    ensures Within(x[i], UnpackResidual(PackResidual(x, bits), |x|, bits)[i], SlotScale(x, bits) / 2.0)
  {
    hide PackResidual, UnpackResidual, MaxAbs, Round, Clamp;
    UnpackedEntry(x, bits, i);
    InRangeAccurate(x[i], SlotScale(x, bits), MaxAbs(x), TopCode(bits));
  }

  /** Whatever bounds the entries, `m`: each reads back within `m / (2 * top)`, and one of magnitude `m` exactly. */
  lemma ResidualWithin(x: Vec, bits: nat, i: nat, m: real)
    requires i < |x| && Bounded(x, m) && m >= 0.00000001
    ensures var y := UnpackResidual(PackResidual(x, bits), |x|, bits)[i];
      Within(x[i], y, m / (2.0 * TopCode(bits) as real)) && (Abs(x[i]) == m ==> y == x[i])
  {
    hide PackResidual, UnpackResidual, MaxAbs, Round, Clamp, Within, Bounded;
    ResidualAccurate(x, bits, i);
    MaxAbsLeast(x, m);
    StepWithin(MaxAbs(x), m, TopCode(bits), x[i], UnpackResidual(PackResidual(x, bits), |x|, bits)[i]);
    if Abs(x[i]) == m { LargestResidual(x, bits, i); }
  }

  lemma LargestResidual(x: Vec, bits: nat, i: nat)
    requires i < |x| && Bounded(x, Abs(x[i])) && Abs(x[i]) >= 0.00000001
    ensures UnpackResidual(PackResidual(x, bits), |x|, bits)[i] == x[i]
  {
    hide PackResidual, UnpackResidual, MaxAbs, Round, Clamp, Bounded;
    UnpackedEntry(x, bits, i);
    LargestIsMax(x, Abs(x[i])) by { assert Largest(x, Abs(x[i])); }
    Outermost(x[i], SlotScale(x, bits), TopCode(bits));
  }

  // ---- blocks ----

  /** A rectangular block, row after row. */
  function Flatten(rows: seq<Vec>, w: nat): (flat: Vec)
    requires forall i :: 0 <= i < |rows| ==> |rows[i]| == w
    ensures |flat| == |rows| * w
  {
    if rows == [] then [] else Flatten(rows[..|rows| - 1], w) + rows[|rows| - 1]
  }

  lemma {:induction false} FlattenRow(rows: seq<Vec>, w: nat, i: nat)
    requires i < |rows| && forall k :: 0 <= k < |rows| ==> |rows[k]| == w
    ensures i * w + w <= |rows| * w && Flatten(rows, w)[i * w..i * w + w] == rows[i]
  {
    BlockBound(i, |rows|, w);
    var n := |rows| - 1;
    var init := Flatten(rows[..n], w);
    if i < n {
      FlattenRow(rows[..n], w, i);
      assert (init + rows[n])[i * w..i * w + w] == init[i * w..i * w + w];
    } else {
      assert (init + rows[n])[n * w..n * w + w] == rows[n];
    }
  }

  function FlatRow(flat: Vec, n: nat, w: nat, i: nat): (row: Vec)
    requires |flat| == n * w && i < n
    ensures |row| == w
  {
    BlockBound(i, n, w);
    flat[i * w..i * w + w]
  }

  /** The inverse view: `n` rows of width `w`. */
  function Reshape(flat: Vec, n: nat, w: nat): (rows: seq<Vec>)
    requires |flat| == n * w
    ensures |rows| == n && forall i :: 0 <= i < n ==> |rows[i]| == w
  {
    seq(n, i requires 0 <= i < n => FlatRow(flat, n, w, i))
  }

  function PackBlock(rows: seq<Vec>, w: nat, bits: nat): (p: Packed)
    requires forall i :: 0 <= i < |rows| ==> |rows[i]| == w
    ensures p.Fits(|rows| * w, bits)
  {
    PackResidual(Flatten(rows, w), bits)
  }

  function UnpackBlock(p: Packed, n: nat, w: nat, bits: nat): (rows: seq<Vec>)
    requires p.Fits(n * w, bits)
    ensures |rows| == n && forall i :: 0 <= i < n ==> |rows[i]| == w
  {
    Reshape(UnpackResidual(p, n * w, bits), n, w)
  }

  predicate RowsBounded(rows: seq<Vec>, m: real) { forall i :: 0 <= i < |rows| ==> Bounded(rows[i], m) }

  lemma {:induction false} FlatBounded(rows: seq<Vec>, w: nat, m: real)
    requires RowsBounded(rows, m) && forall i :: 0 <= i < |rows| ==> |rows[i]| == w
    ensures Bounded(Flatten(rows, w), m)
  {
    if rows == [] {
    } else {
      FlatBounded(rows[..|rows| - 1], w, m);
      assert Bounded(rows[|rows| - 1], m);
    }
  }

  /** The same for entry `(i, c)` of a stored block. */
  lemma BlockWithin(rows: seq<Vec>, w: nat, bits: nat, i: nat, c: nat, m: real)
    requires i < |rows| && c < w && forall k :: 0 <= k < |rows| ==> |rows[k]| == w
    requires RowsBounded(rows, m) && m >= 0.00000001
    ensures var back := UnpackBlock(PackBlock(rows, w, bits), |rows|, w, bits)[i][c];
      Within(rows[i][c], back, m / (2.0 * TopCode(bits) as real)) && (Abs(rows[i][c]) == m ==> back == rows[i][c])
  {
    hide PackResidual, UnpackResidual, Within, RowsBounded, Bounded;
    var flat := Flatten(rows, w);
    FlattenRow(rows, w, i);
    FlatBounded(rows, w, m);
    var k := i * w + c;
    assert flat[i * w..i * w + w][c] == flat[k];
    ResidualWithin(flat, bits, k, m);
  }

  predicate ZeroVec(v: Vec) { forall c :: 0 <= c < |v| ==> v[c] == 0.0 }

  /** Entry `(i, c)` of a stored block: within half a step of what was stored, and exactly zero
    * where that was zero. */
  lemma BlockEntry(rows: seq<Vec>, w: nat, bits: nat, i: nat, c: nat)
    requires i < |rows| && c < w && forall k :: 0 <= k < |rows| ==> |rows[k]| == w
    ensures var back := UnpackBlock(PackBlock(rows, w, bits), |rows|, w, bits)[i][c];
      Within(rows[i][c], back, SlotScale(Flatten(rows, w), bits) / 2.0)
      && (rows[i][c] == 0.0 ==> back == 0.0)
  {
    hide PackResidual, UnpackResidual, SlotScale, Within;
    var flat := Flatten(rows, w);
    FlattenRow(rows, w, i);
    var k := i * w + c;
    assert flat[i * w..i * w + w][c] == flat[k];
    ResidualAccurate(flat, bits, k);
    if rows[i][c] == 0.0 { ZeroStaysZero(flat, bits, k); }
  }
}
