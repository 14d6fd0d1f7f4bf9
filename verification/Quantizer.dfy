/** The symmetric per-group quantizer and its 2-, 3- and 4-bit packers.
  *
  * An int8 tensor is a sequence of `Byte`s in two's complement, so masks, shifts and the
  * sign fix are the machine operations. */
module Quantizer {

  import opened Numbers

  type Byte = bv8

  datatype QuantConfig = QuantConfig(bits: nat, groupSize: nat, clipRatio: real) {
    /** Bit widths and group sizes the quantizer is documented for. */
    predicate Valid() { 2 <= bits <= 4 && groupSize > 0 && clipRatio > 0.0 }

    function QMax(): int { if bits == 2 then 1 else if bits == 3 then 3 else 7 }
  }

  // ---- int8 ----

  function ToByte(c: int): Byte
    requires -128 <= c < 128
  {
    if c < 0 then (c + 256) as Byte else c as Byte
  }

  function ToInt(b: Byte): int { var n := b as int; if n < 128 then n else n - 256 }

  // ---- quantize / dequantize ----

  /** The `k`-th group of a row. */
  function Group(x: Vec, g: nat, k: nat): Vec
    requires k * g + g <= |x|
  {
    x[k * g..k * g + g]
  }

  function GroupScale(cfg: QuantConfig, group: Vec): (s: real)
    requires cfg.Valid()
    ensures s > 0.0
  {
    RMax(MaxAbs(group) * cfg.clipRatio, 0.00000001) / cfg.QMax() as real
  }

  function Code(cfg: QuantConfig, x: real, s: real): int
    requires cfg.Valid() && s > 0.0
  {
    Clamp(Round(x / s), -cfg.QMax() - 1, cfg.QMax())
  }

  /** A row the quantizer accepts: its length is a multiple of the group size. */
  predicate Divisible(cfg: QuantConfig, d: nat) { cfg.Valid() && d % cfg.groupSize == 0 }

  function Scales(x: Vec, cfg: QuantConfig): (s: Vec)
    requires Divisible(cfg, |x|)
    ensures |s| == |x| / cfg.groupSize && forall k :: 0 <= k < |s| ==> s[k] > 0.0
  {
    seq(|x| / cfg.groupSize, k requires 0 <= k < |x| / cfg.groupSize =>
      BlockBound(k, |x| / cfg.groupSize, cfg.groupSize);
      GroupScale(cfg, Group(x, cfg.groupSize, k)))
  }

  lemma GroupIndex(i: nat, d: nat, g: nat)
    requires g > 0 && d % g == 0 && i < d
    ensures 0 <= i / g < d / g && i / g * g <= i < i / g * g + g <= d
  {
    var k := i / g;
    assert i == k * g + i % g;
    assert d == d / g * g;
    if d / g < k { BlocksApart(d / g, k, g); assert false; }
    if d / g == k { assert false; }
    BlockBound(k, d / g, g);
  }

  /** The scale entry `i` is coded with. */
  function ScaleAt(x: Vec, cfg: QuantConfig, i: nat): (s: real)
    requires Divisible(cfg, |x|) && i < |x|
    ensures s > 0.0
  {
    GroupIndex(i, |x|, cfg.groupSize);
    GroupScale(cfg, Group(x, cfg.groupSize, i / cfg.groupSize))
  }

  /** The entries coded together with entry `i`. */
  function OwnGroup(x: Vec, cfg: QuantConfig, i: nat): Vec
    requires Divisible(cfg, |x|) && i < |x|
  {
    GroupIndex(i, |x|, cfg.groupSize);
    Group(x, cfg.groupSize, i / cfg.groupSize)
  }

  function Codes(x: Vec, cfg: QuantConfig): (c: seq<int>)
    requires Divisible(cfg, |x|)
    ensures |c| == |x|
    ensures forall i :: 0 <= i < |x| ==> -cfg.QMax() - 1 <= c[i] <= cfg.QMax()
  {
    seq(|x|, i requires 0 <= i < |x| => Code(cfg, x[i], ScaleAt(x, cfg, i)))
  }

  function Dequantize(codes: seq<int>, scale: Vec, g: nat): (x: Vec)
    requires g > 0 && |codes| % g == 0 && |scale| == |codes| / g
    ensures |x| == |codes|
  {
    seq(|codes|, i requires 0 <= i < |codes| =>
      GroupIndex(i, |codes|, g); codes[i] as real * scale[i / g])
  }

  lemma DivBounds(x: real, s: real, m: real)
    requires s > 0.0 && Abs(x) <= m * s
    ensures Abs(x / s) <= m
  {
    assert x == x / s * s;
    if x / s > m { MulMono(m, x / s, s); assert (x / s - m) * s > 0.0; }
    if x / s < -m { assert (-m - x / s) * s > 0.0; }
  }

  lemma ScaledError(u: real, c: real, s: real, x: real)
    requires s > 0.0 && x == u * s
    ensures Within(u, c, 0.5) <==> Within(x, c * s, s / 2.0)
  {
    var v := u - c;
    ScaleIff(v, 0.5, s);
    ScaleIff(-0.5, v, s);
    assert v * s == x - c * s;
  }

  lemma RoundedError(cfg: QuantConfig, x: real, s: real)
    requires cfg.Valid() && s > 0.0
    ensures -(cfg.QMax() as real + 1.5) <= x / s <= cfg.QMax() as real + 0.5
        <==> Within(x / s, Code(cfg, x, s) as real, 0.5)
  {
    var u := x / s;
  }

  lemma ClampedError(u: real, q: real, c: real, s: real, x: real)
    requires s > 0.0 && x == u * s
    requires -(q + 1.5) <= u <= q + 0.5 <==> Within(u, c, 0.5)
    ensures Within(x, c * s, s / 2.0) <==> -(q + 1.5) * s <= x <= (q + 0.5) * s
  {
    ScaledError(u, c, s, x);
    ScaleIff(-(q + 1.5), u, s);
    ScaleIff(u, q + 0.5, s);
  }

  /** What one entry loses: at most half a step, exactly when its quotient is not clamped. */
  lemma CodeError(cfg: QuantConfig, x: real, s: real)
    requires cfg.Valid() && s > 0.0
    ensures Within(x, Code(cfg, x, s) as real * s, s / 2.0)
        <==> -(cfg.QMax() as real + 1.5) * s <= x <= (cfg.QMax() as real + 0.5) * s
  {
    hide Code;
    RoundedError(cfg, x, s);
    assert x == x / s * s;
    ClampedError(x / s, cfg.QMax() as real, Code(cfg, x, s) as real, s, x);
  }

  /** A quotient that stays inside `[-q, q]` is never clamped, so it loses at most half a step. */
  lemma NearestAccurate(x: real, s: real, q: int)
    requires q >= 1 && s > 0.0 && Abs(x) <= q as real * s
    ensures -q <= Clamp(Round(x / s), -q - 1, q) <= q
    ensures Within(x, Clamp(Round(x / s), -q - 1, q) as real * s, s / 2.0)
  {
    hide Round;
    var top, u := q as real, x / s;
    DivBounds(x, s, top);
    RoundOfInt(q);
    RoundOfInt(-q);
    RoundMonotone(u, top);
    RoundMonotone(-top, u);
    ScaledError(u, Round(u) as real, s, x);
  }

  lemma InRangeAccurate(x: real, s: real, m: real, q: int)
    requires q >= 1 && Abs(x) <= m && s == RMax(m, 0.00000001) / q as real
    ensures s > 0.0 && -q <= Clamp(Round(x / s), -q - 1, q) <= q
    ensures Within(x, Clamp(Round(x / s), -q - 1, q) as real * s, s / 2.0)
  {
    hide Round, Clamp;
    assert s * q as real == RMax(m, 0.00000001);
    NearestAccurate(x, s, q);
  }

  lemma DequantizeAt(x: Vec, cfg: QuantConfig, i: nat)
    requires Divisible(cfg, |x|) && i < |x|
    ensures Dequantize(Codes(x, cfg), Scales(x, cfg), cfg.groupSize)[i]
         == Codes(x, cfg)[i] as real * ScaleAt(x, cfg, i)
  {
    hide Codes, GroupScale, Group;
    GroupIndex(i, |x|, cfg.groupSize);
  }

  lemma GroupMember(x: Vec, g: nat, i: nat)
    requires g > 0 && |x| % g == 0 && i < |x|
    ensures i / g * g + g <= |x| && Abs(x[i]) <= MaxAbs(Group(x, g, i / g))
  {
    GroupIndex(i, |x|, g);
    var k := i / g;
    assert Group(x, g, k)[i - k * g] == x[i];
  }

  /** Without clipping, every code is in the symmetric range and every reconstructed entry is
    * within half a step of the input. */
  lemma QuantizeAccurate(x: Vec, cfg: QuantConfig, i: nat)
    requires Divisible(cfg, |x|) && cfg.clipRatio == 1.0 && i < |x|
    ensures -cfg.QMax() <= Codes(x, cfg)[i] <= cfg.QMax()
    ensures Within(x[i], Dequantize(Codes(x, cfg), Scales(x, cfg), cfg.groupSize)[i],
                   ScaleAt(x, cfg, i) / 2.0)
  {
    hide MaxAbs, Group, Dequantize, Scales, Round, Clamp, Abs;
    GroupMember(x, cfg.groupSize, i);
    var s := ScaleAt(x, cfg, i);
    InRangeAccurate(x[i], s, MaxAbs(Group(x, cfg.groupSize, i / cfg.groupSize)), cfg.QMax());
    DequantizeAt(x, cfg, i);
    assert Codes(x, cfg)[i] == Code(cfg, x[i], s);
  }

  /** Every entry of a group is at most `m` in magnitude. */
  predicate Bounded(group: Vec, m: real) { forall i :: 0 <= i < |group| ==> Abs(group[i]) <= m }

  lemma {:induction false} MaxAbsLeast(group: Vec, m: real)
    requires Bounded(group, m) && m >= 0.0
    ensures MaxAbs(group) <= m
  {
    if group == [] {
    } else {
      var init := group[..|group| - 1];
      forall i | 0 <= i < |init| ensures Abs(init[i]) <= m { assert init[i] == group[i]; }
      MaxAbsLeast(init, m);
    }
  }

  lemma StepWithin(top: real, m: real, q: int, x: real, y: real)
    requires q >= 1 && top <= m && m >= 0.00000001
    requires Within(x, y, RMax(top, 0.00000001) / q as real / 2.0)
    ensures Within(x, y, m / (2.0 * q as real))
  {
    var big, w := RMax(top, 0.00000001), 2.0 * q as real;
    assert big / q as real / 2.0 == big / w;
    QuotientMono(big, m, w);
  }

  lemma QuotientMono(a: real, b: real, w: real)
    requires a <= b && w > 0.0
    ensures a / w <= b / w
  {
    var x, y := a / w, b / w;
    assert a == x * w && b == y * w;
    ScaleIff(x, y, w);
  }

  /** Without clipping, and whatever bounds the group's magnitudes: the range that the codes of one sign span costs
    * an entry at most half a part of it. */
  lemma QuantizeWithin(x: Vec, cfg: QuantConfig, i: nat, m: real)
    requires Divisible(cfg, |x|) && cfg.clipRatio == 1.0 && i < |x| && m >= 0.00000001
    requires Bounded(OwnGroup(x, cfg, i), m)
    ensures Within(x[i], Dequantize(Codes(x, cfg), Scales(x, cfg), cfg.groupSize)[i], m / (2.0 * cfg.QMax() as real))
  {
    hide MaxAbs, Group, Dequantize, Scales, Codes, Bounded, Abs;
    QuantizeAccurate(x, cfg, i);
    GroupIndex(i, |x|, cfg.groupSize);
    var group := OwnGroup(x, cfg, i);
    MaxAbsLeast(group, m);
    StepWithin(MaxAbs(group), m, cfg.QMax(), x[i], Dequantize(Codes(x, cfg), Scales(x, cfg), cfg.groupSize)[i]);
  }

  /** The entry of largest magnitude gets an outermost code, and reads back exactly. */
  lemma LargestExact(x: Vec, cfg: QuantConfig, i: nat)
    requires Divisible(cfg, |x|) && cfg.clipRatio == 1.0 && i < |x| && Abs(x[i]) >= 0.00000001
    requires Bounded(OwnGroup(x, cfg, i), Abs(x[i]))
    ensures Codes(x, cfg)[i] == if x[i] > 0.0 then cfg.QMax() else -cfg.QMax()
    ensures Dequantize(Codes(x, cfg), Scales(x, cfg), cfg.groupSize)[i] == x[i]
  {
    hide MaxAbs, Group, Dequantize, Scales, Bounded;
    var group, q := OwnGroup(x, cfg, i), cfg.QMax();
    GroupMember(x, cfg.groupSize, i);
    MaxAbsLeast(group, Abs(x[i]));
    var s := ScaleAt(x, cfg, i);
    assert s == Abs(x[i]) / q as real;
    Outermost(x[i], s, q);
    DequantizeAt(x, cfg, i);
  }

  lemma Outermost(x: real, s: real, q: int)
    requires q >= 1 && x != 0.0 && s == Abs(x) / q as real
    ensures s > 0.0
    ensures var c := if x > 0.0 then q else -q; Clamp(Round(x / s), -q - 1, q) == c && c as real * s == x
  {
    assert s * q as real == Abs(x);
    if s <= 0.0 { MulMono(s, 0.0, q as real); assert false; }
    hide Round;
    var c := if x > 0.0 then q else -q;
    assert c as real * s == x;
    ExactQuotient(c as real, s, x);
    RoundOfInt(c);
  }

  lemma ClippedCode(x: real, s: real, q: int)
    requires q >= 1 && s > 0.0 && x >= q as real * s
    ensures Clamp(Round(x / s), -q - 1, q) == q
  {
    hide Round;
    var u := x / s;
    assert x == u * s;
    ScaleIff(q as real, u, s);
    RoundMonotone(q as real, u);
    RoundOfInt(q);
  }

  lemma ClippedEntry(x: real, s: real, top: real, q: int, y: real)
    requires q >= 1 && top > 0.0 && s == top / q as real
    requires s > 0.0 && y == Clamp(Round(x / s), -q - 1, q) as real * s
    ensures Abs(x) <= top ==> Within(x, y, top / q as real / 2.0)
    ensures x >= top ==> y == top
  {
    hide Round, Clamp;
    assert s * q as real == top;
    if Abs(x) <= top { NearestAccurate(x, s, q); }
    if x >= top { ClippedCode(x, s, q); }
  }

  /** The largest magnitude of a group. */
  predicate Largest(group: Vec, m: real)
  {
    Bounded(group, m) && exists j :: 0 <= j < |group| && Abs(group[j]) == m
  }

  lemma LargestIsMax(group: Vec, m: real)
    requires Largest(group, m)
    ensures MaxAbs(group) == m
  {
    hide MaxAbs;
    MaxAbsLeast(group, m);
  }

  lemma ScaleIsTop(x: Vec, cfg: QuantConfig, i: nat, m: real, top: real)
    requires Divisible(cfg, |x|) && i < |x| && top == m * cfg.clipRatio && top >= 0.00000001
    requires Largest(OwnGroup(x, cfg, i), m)
    ensures ScaleAt(x, cfg, i) == top / cfg.QMax() as real
  {
    hide MaxAbs, Group, Largest;
    LargestIsMax(OwnGroup(x, cfg, i), m);
  }

  /** With clipping, in a group whose largest magnitude is `m`: an entry up to the clipped range loses at most half a
    * part of that range, and a larger positive one reads back as the end of it. */
  lemma ClippedWithin(x: Vec, cfg: QuantConfig, i: nat, m: real, top: real)
    requires Divisible(cfg, |x|) && i < |x| && top == m * cfg.clipRatio && top >= 0.00000001
    requires Largest(OwnGroup(x, cfg, i), m)
    ensures var y := Dequantize(Codes(x, cfg), Scales(x, cfg), cfg.groupSize)[i];
      && (Abs(x[i]) <= top ==> Within(x[i], y, top / cfg.QMax() as real / 2.0))
      && (x[i] >= top ==> y == top)
  {
    hide Dequantize, Scales, Largest, Round, Clamp, Within, Abs, ScaleAt, OwnGroup;
    ScaleIsTop(x, cfg, i, m, top);
    DequantizeAt(x, cfg, i);
    var y := Dequantize(Codes(x, cfg), Scales(x, cfg), cfg.groupSize)[i];
    ClippedEntry(x[i], ScaleAt(x, cfg, i), top, cfg.QMax(), y);
  }

  // ---- code ranges ----

  /** A byte holding a signed `bits`-wide code. */
  predicate CodeByte(bits: nat, b: Byte)
  {
    match bits
    case 2 => b + 2 < 4
    case 3 => b + 4 < 8
    case 4 => b + 8 < 16
    case _ => false
  }

  predicate CodeRow(bits: nat, codes: seq<Byte>)
  {
    forall i :: 0 <= i < |codes| ==> CodeByte(bits, codes[i])
  }

  lemma InRangeFits(cfg: QuantConfig, c: int)
    requires cfg.Valid() && -cfg.QMax() - 1 <= c <= cfg.QMax()
    ensures CodeByte(cfg.bits, ToByte(c)) && ToInt(ToByte(c)) == c
  {
    hide CodeByte;
    ByteBack(c);
    ByteInRange(cfg.bits, cfg.QMax(), c);
  }

  lemma ByteBack(c: int)
    requires -8 <= c <= 7
    ensures ToInt(ToByte(c)) == c
  {
  }

  lemma ByteInRange(bits: nat, q: int, c: int)
    requires (bits == 2 && q == 1) || (bits == 3 && q == 3) || (bits == 4 && q == 7)
    requires -q - 1 <= c <= q
    ensures CodeByte(bits, ToByte(c))
  {
  }

  // ---- packing words ----

  /** The codes per packed group and the bytes they take. */
  function PerGroup(bits: nat): nat { if bits == 2 then 4 else if bits == 3 then 8 else 2 }

  function GroupBytes(bits: nat): nat { if bits == 3 then 3 else 1 }

  function Pack2(a: Byte, b: Byte, c: Byte, d: Byte): Byte
  {
    (a & 0x03) | ((b & 0x03) << 2) | ((c & 0x03) << 4) | ((d & 0x03) << 6)
  }

  function Sign2(u: Byte): Byte { if u >= 2 then u - 4 else u }

  /** The `i`-th pair of bits. */
  function Crumb(p: Byte, i: nat): Byte
  {
    if i == 0 then p & 0x03 else if i == 1 then (p >> 2) & 0x03 else if i == 2 then (p >> 4) & 0x03 else (p >> 6) & 0x03
  }

  function Fields2(p: Byte): (f: seq<Byte>)
    ensures |f| == 4
  {
    [Sign2(Crumb(p, 0)), Sign2(Crumb(p, 1)), Sign2(Crumb(p, 2)), Sign2(Crumb(p, 3))]
  }

  function Pack4(a: Byte, b: Byte): Byte { (a & 0x0F) | ((b & 0x0F) << 4) }

  function Sign4(u: Byte): Byte { if u >= 8 then u - 16 else u }

  function Fields4(p: Byte): (f: seq<Byte>)
    ensures |f| == 2
  {
    [Sign4(p & 0x0F), Sign4((p >> 4) & 0x0F)]
  }

  type Word = bv32

  function Three(b: Byte): Word { Low(b) as Word }

  function Pack3(c: seq<Byte>): Word
    requires |c| == 8
  {
    Three(c[0]) | (Three(c[1]) << 3) | (Three(c[2]) << 6) | (Three(c[3]) << 9)
    | (Three(c[4]) << 12) | (Three(c[5]) << 15) | (Three(c[6]) << 18) | (Three(c[7]) << 21)
  }

  /** The three bytes a 24-bit word is stored as. */
  function Bytes3(w: Word): seq<Byte>
  {
    [(w & 0xFF) as Byte, ((w >> 8) & 0xFF) as Byte, ((w >> 16) & 0xFF) as Byte]
  }

  function Word3(b: seq<Byte>): Word
    requires |b| == 3
  {
    (b[0] as Word) | ((b[1] as Word) << 8) | ((b[2] as Word) << 16)
  }

  function Sign3(u: Byte): Byte { if u >= 4 then u - 8 else u }

  function Octal(w: Word): Byte { (w & 0x07) as Byte }

  /** The eight 3-bit positions of a word, read with one vector of shifts. */
  function Octals(w: Word): (o: seq<Byte>)
    ensures |o| == 8
  {
    [Octal(w), Octal(w >> 3), Octal(w >> 6), Octal(w >> 9),
     Octal(w >> 12), Octal(w >> 15), Octal(w >> 18), Octal(w >> 21)]
  }

  function SignAll(o: seq<Byte>): (f: seq<Byte>)
    requires |o| == 8
    ensures |f| == 8
  {
    [Sign3(o[0]), Sign3(o[1]), Sign3(o[2]), Sign3(o[3]),
     Sign3(o[4]), Sign3(o[5]), Sign3(o[6]), Sign3(o[7])]
  }

  lemma SignAllAt(o: seq<Byte>, k: nat)
    requires |o| == 8 && k < 8
    ensures SignAll(o)[k] == Sign3(o[k])
  {
    hide Sign3;
    if k < 4 {
      if k == 0 {} else if k == 1 {} else if k == 2 {} else {}
    } else {
      if k == 4 {} else if k == 5 {} else if k == 6 {} else {}
    }
  }

  function Fields3(w: Word): (f: seq<Byte>)
    ensures |f| == 8
  {
    SignAll(Octals(w))
  }

  lemma Pack2RoundTrip(a: Byte, b: Byte, c: Byte, d: Byte)
    requires CodeByte(2, a) && CodeByte(2, b) && CodeByte(2, c) && CodeByte(2, d)
    ensures Fields2(Pack2(a, b, c, d)) == [a, b, c, d]
  {
  }

  lemma Pack4RoundTrip(a: Byte, b: Byte)
    requires CodeByte(4, a) && CodeByte(4, b)
    ensures Fields4(Pack4(a, b)) == [a, b]
  {
  }

  lemma Bytes3RoundTrip(w: Word)
    requires w < 0x100_0000
    ensures Word3(Bytes3(w)) == w
  {
  }

  lemma SignThree(b: Byte)
    requires CodeByte(3, b)
    ensures Sign3(Low(b)) == b
  {
  }

  function Low(b: Byte): Byte { b & 0x07 }

  function LowThree(c: seq<Byte>): (o: seq<Byte>)
    requires |c| == 8
    ensures |o| == 8
  {
    [Low(c[0]), Low(c[1]), Low(c[2]), Low(c[3]), Low(c[4]), Low(c[5]), Low(c[6]), Low(c[7])]
  }

  lemma PackedOctals(c: seq<Byte>)
    requires |c| == 8
    ensures Pack3(c) < 0x100_0000 && Octals(Pack3(c)) == LowThree(c)
  {
  }

  lemma SignLowThree(c: seq<Byte>)
    requires |c| == 8 && CodeRow(3, c)
    ensures SignAll(LowThree(c)) == c
  {
    hide Sign3, Low, CodeByte;
    SignThree(c[0]); SignThree(c[1]); SignThree(c[2]); SignThree(c[3]);
    SignThree(c[4]); SignThree(c[5]); SignThree(c[6]); SignThree(c[7]);
  }

  lemma Pack3RoundTrip(c: seq<Byte>)
    requires |c| == 8 && CodeRow(3, c)
    ensures Fields3(Word3(Bytes3(Pack3(c)))) == c
  {
    hide Pack3, Octals, SignAll, LowThree, Word3, Bytes3;
    PackedOctals(c);
    Bytes3RoundTrip(Pack3(c));
    SignLowThree(c);
  }

  // ---- one packed group, of any width ----

  function PackGroup(bits: nat, c: seq<Byte>): (p: seq<Byte>)
    requires |c| == PerGroup(bits)
    ensures |p| == GroupBytes(bits)
  {
    if bits == 2 then [Pack2(c[0], c[1], c[2], c[3])]
    else if bits == 3 then Bytes3(Pack3(c))
    else [Pack4(c[0], c[1])]
  }

  function GroupFields(bits: nat, p: seq<Byte>): (f: seq<Byte>)
    requires |p| == GroupBytes(bits)
    ensures |f| == PerGroup(bits)
  {
    if bits == 2 then Fields2(p[0]) else if bits == 3 then Fields3(Word3(p)) else Fields4(p[0])
  }

  lemma GroupRoundTrip(bits: nat, c: seq<Byte>)
    requires 2 <= bits <= 4 && |c| == PerGroup(bits) && CodeRow(bits, c)
    ensures GroupFields(bits, PackGroup(bits, c)) == c
  {
    hide Pack2, Fields2, Pack3, Fields3, Word3, Bytes3, Pack4, Fields4, CodeByte;
    if bits == 2 {
      Pack2RoundTrip(c[0], c[1], c[2], c[3]);
    } else if bits == 3 {
      Pack3RoundTrip(c);
    } else {
      Pack4RoundTrip(c[0], c[1]);
    }
  }

  // ---- packing sequences ----

  lemma PadLength(bits: nat, n: nat)
    ensures var g := PerGroup(bits); n % g != 0 ==> (n + (g - n % g)) % g == 0
  {
    if bits == 2 {} else if bits == 3 {} else {}
  }

  /** Zeros up to the next multiple of the group length. */
  function Pad(bits: nat, codes: seq<Byte>): (p: seq<Byte>)
    ensures |p| % PerGroup(bits) == 0 && |p| < |codes| + PerGroup(bits) && codes <= p
    ensures forall i :: |codes| <= i < |p| ==> p[i] == 0
  {
    var n := |codes| % PerGroup(bits);
    PadLength(bits, |codes|);
    if n == 0 then codes else codes + seq(PerGroup(bits) - n, _ => 0 as Byte)
  }

  lemma GroupCount(bits: nat, n: nat)
    requires n > 0 && n % PerGroup(bits) == 0
    ensures var g, w := PerGroup(bits), GroupBytes(bits);
      g <= n && (n - g) % g == 0 && n / g * w == (n - g) / g * w + w
  {
    if bits == 2 {} else if bits == 3 {} else {}
  }

  function PackGroups(bits: nat, codes: seq<Byte>): (p: seq<Byte>)
    requires |codes| % PerGroup(bits) == 0
    ensures |p| == |codes| / PerGroup(bits) * GroupBytes(bits)
  {
    if codes == [] then []
    else
      var g := PerGroup(bits);
      GroupCount(bits, |codes|);
      PackGroup(bits, codes[..g]) + PackGroups(bits, codes[g..])
  }

  predicate HasField(bits: nat, p: seq<Byte>, j: nat)
  {
    j / PerGroup(bits) * GroupBytes(bits) + GroupBytes(bits) <= |p|
  }

  /** Entry `j` of a packed sequence. */
  function Field(bits: nat, p: seq<Byte>, j: nat): Byte
    requires HasField(bits, p, j)
  {
    var at := j / PerGroup(bits) * GroupBytes(bits);
    GroupFields(bits, p[at..at + GroupBytes(bits)])[j % PerGroup(bits)]
  }

  /** The 1-D packers: pad with zero codes, then pack every group. */
  function Pack(bits: nat, codes: seq<Byte>): (p: seq<Byte>)
    ensures |p| == (|codes| + PerGroup(bits) - 1) / PerGroup(bits) * GroupBytes(bits)
  {
    PackGroups(bits, Pad(bits, codes))
  }

  lemma FieldFits(bits: nat, p: seq<Byte>, n: nat, j: nat)
    requires j < n && (n + PerGroup(bits) - 1) / PerGroup(bits) * GroupBytes(bits) <= |p|
    ensures j / PerGroup(bits) * GroupBytes(bits) + GroupBytes(bits) <= |p|
  {
  }

  /** The 1-D unpackers: every field, trimmed to `n` codes. */
  function Unpack(bits: nat, p: seq<Byte>, n: nat): (codes: seq<Byte>)
    requires (n + PerGroup(bits) - 1) / PerGroup(bits) * GroupBytes(bits) <= |p|
    ensures |codes| == n
  {
    seq(n, j requires 0 <= j < n => FieldFits(bits, p, n, j); Field(bits, p, j))
  }

  lemma SliceOfTail<T>(a: seq<T>, b: seq<T>, i: nat, j: nat)
    requires i <= j <= |b|
    ensures (a + b)[|a| + i..|a| + j] == b[i..j]
  {
  }

  lemma GroupSizes(bits: nat)
    ensures PerGroup(bits) in {2, 4, 8} && GroupBytes(bits) in {1, 3}
  {
  }

  lemma FirstGroup(g: nat, j: nat)
    requires j < g
    ensures j / g == 0 && j % g == j
  {
  }

  lemma DivUnique(j: nat, g: nat, q: nat, r: nat)
    requires j == q * g + r && r < g
    ensures j / g == q && j % g == r
  {
    var a := j / g;
    assert j == a * g + j % g;
    if a < q { BlocksApart(a, q, g); } else if q < a { BlocksApart(q, a, g); }
  }

  lemma NextGroup(g: nat, w: nat, j: nat)
    requires j >= g > 0
    ensures (j - g) % g == j % g && j / g * w == (j - g) / g * w + w && (j - g) / g * w >= 0
  {
    var q, r := (j - g) / g, (j - g) % g;
    assert j - g == q * g + r;
    assert (q + 1) * g == q * g + g;
    DivUnique(j, g, q + 1, r);
    assert (q + 1) * w == q * w + w;
  }

  lemma FieldOfHead(bits: nat, head: seq<Byte>, rest: seq<Byte>, j: nat)
    requires |head| == GroupBytes(bits) && j < PerGroup(bits)
    ensures HasField(bits, head + rest, j) && Field(bits, head + rest, j) == GroupFields(bits, head)[j]
  {
    hide PerGroup, GroupBytes, GroupFields;
    FirstGroup(PerGroup(bits), j);
    assert (head + rest)[0..|head|] == head;
  }

  lemma FieldOfTail(bits: nat, head: seq<Byte>, rest: seq<Byte>, j: nat)
    requires |head| == GroupBytes(bits) && j >= PerGroup(bits) > 0 && HasField(bits, rest, j - PerGroup(bits))
    ensures HasField(bits, head + rest, j) && Field(bits, head + rest, j) == Field(bits, rest, j - PerGroup(bits))
  {
    hide PerGroup, GroupBytes, GroupFields;
    NextGroup(PerGroup(bits), GroupBytes(bits), j);
    var at := (j - PerGroup(bits)) / PerGroup(bits) * GroupBytes(bits);
    SliceOfTail(head, rest, at, at + |head|);
  }

  lemma {:induction false} PackedField(bits: nat, codes: seq<Byte>, j: nat)
    requires 2 <= bits <= 4 && |codes| % PerGroup(bits) == 0 && CodeRow(bits, codes) && j < |codes|
    ensures HasField(bits, PackGroups(bits, codes), j) && Field(bits, PackGroups(bits, codes), j) == codes[j]
  {
    hide PackGroup, GroupFields, PerGroup, GroupBytes, HasField, Field;
    var g := PerGroup(bits);
    GroupSizes(bits);
    GroupCount(bits, |codes|);
    var head, rest := PackGroup(bits, codes[..g]), PackGroups(bits, codes[g..]);
    assert PackGroups(bits, codes) == head + rest;
    if j < g {
      FieldOfHead(bits, head, rest, j);
      GroupRoundTrip(bits, codes[..g]);
    } else {
      PackedField(bits, codes[g..], j - g);
      FieldOfTail(bits, head, rest, j);
    }
  }

  /** Packing any number of in-range codes, padding included, loses nothing. */
  lemma PackRoundTrip(bits: nat, codes: seq<Byte>)
    requires 2 <= bits <= 4 && CodeRow(bits, codes)
    ensures Unpack(bits, Pack(bits, codes), |codes|) == codes
  {
    var padded := Pad(bits, codes);
    assert CodeRow(bits, padded);
    forall j | 0 <= j < |codes|
      ensures Unpack(bits, Pack(bits, codes), |codes|)[j] == codes[j]
    {
      PackedField(bits, padded, j);
    }
  }

  lemma Unpack2At(p: seq<Byte>, n: nat, j: nat)
    requires n <= 4 * |p| && j < n
    ensures Unpack(2, p, n)[j] == Fields2(p[j / 4])[j % 4]
  {
    FieldFits(2, p, n, j);
    assert p[j / 4..j / 4 + 1][0] == p[j / 4];
  }

  lemma Unpack2All(p: seq<Byte>, codes: seq<Byte>)
    requires |codes| <= 4 * |p| && forall j :: 0 <= j < |codes| ==> codes[j] == Sign2(Crumb(p[j / 4], j % 4))
    ensures codes == Unpack(2, p, |codes|)
  {
    hide Crumb, Sign2, Unpack;
    forall j | 0 <= j < |codes| ensures codes[j] == Unpack(2, p, |codes|)[j] { Unpack2At(p, |codes|, j); }
  }

  lemma Unpack3At(p: seq<Byte>, n: nat, j: nat)
    requires |p| % 3 == 0 && 3 * n <= 8 * |p| && j < n
    ensures Unpack(3, p, n)[j] == Fields3(Word3(p[3 * (j / 8)..3 * (j / 8) + 3]))[j % 8]
  {
    FieldFits(3, p, n, j);
  }

  // ---- the loops and in-place sign fixes of the unpackers ----

  /** INT2: four strided slice stores into a fresh buffer, a sign fix in place, a trim. */
  method UnpackInt2(packed: seq<Byte>, numel: nat) returns (codes: seq<Byte>)
    requires numel <= 4 * |packed|
    ensures codes == Unpack(2, packed, numel)
  {
    var n := |packed|;
    var out := new Byte[4 * n];
    hide Crumb, Sign2;
    forall j | 0 <= j < 4 * n && j % 4 == 0 { out[j] := Crumb(packed[j / 4], 0); }
    forall j | 0 <= j < 4 * n && j % 4 == 1 { out[j] := Crumb(packed[j / 4], 1); }
    forall j | 0 <= j < 4 * n && j % 4 == 2 { out[j] := Crumb(packed[j / 4], 2); }
    forall j | 0 <= j < 4 * n && j % 4 == 3 { out[j] := Crumb(packed[j / 4], 3); }
    forall j | 0 <= j < 4 * n { out[j] := Sign2(out[j]); }
    codes := out[..numel];
    Unpack2All(packed, codes);
  }

  /** INT3: a loop over the eight positions of every group, then a sign fix in place. */
  method UnpackInt3(packed: seq<Byte>, numel: nat) returns (codes: seq<Byte>)
    requires |packed| % 3 == 0 && 3 * numel <= 8 * |packed|
    ensures codes == Unpack(3, packed, numel)
  {
    hide Octals, Word3, Sign3, SignAll, Unpack;
    var n := |packed| / 3;
    var out := new Byte[n, 8];
    var i := 0;
    while i < 8
      invariant 0 <= i <= 8
      invariant forall g, j :: 0 <= g < n && 0 <= j < i ==>
        out[g, j] == Octals(Word3(packed[3 * g..3 * g + 3]))[j]
    {
      forall g | 0 <= g < n { out[g, i] := Octals(Word3(packed[3 * g..3 * g + 3]))[i]; }
      i := i + 1;
    }
    codes := seq(numel, j requires 0 <= j < numel reads out => Sign3(out[j / 8, j % 8]));
    forall j | 0 <= j < numel ensures codes[j] == Unpack(3, packed, numel)[j] {
      Unpack3At(packed, numel, j);
      SignAllAt(Octals(Word3(packed[3 * (j / 8)..3 * (j / 8) + 3])), j % 8);
    }
  }

  // ---- 2-D packers ----

  /** A (T, D) tensor packed row by row; D is a multiple of the group length, so no row is padded. */
  function PackRows(bits: nat, rows: seq<seq<Byte>>): (p: seq<seq<Byte>>)
    requires forall t :: 0 <= t < |rows| ==> |rows[t]| % PerGroup(bits) == 0
    ensures |p| == |rows|
  {
    seq(|rows|, t requires 0 <= t < |rows| => PackGroups(bits, rows[t]))
  }

  function PackedRowBytes(d: nat, bits: nat): nat
  {
    if bits == 2 then d / 4 else if bits == 3 then d * 3 / 8 else d / 2
  }

  /** Each row of the 2-D packers is what the 1-D packer makes of it, in `PackedRowBytes` bytes. */
  lemma RowsAgreeWithFlat(bits: nat, rows: seq<seq<Byte>>, d: nat, t: nat)
    requires 2 <= bits <= 4 && d % PerGroup(bits) == 0 && t < |rows|
    requires forall i :: 0 <= i < |rows| ==> |rows[i]| == d && CodeRow(bits, rows[i])
    ensures var p := PackRows(bits, rows)[t];
      p == Pack(bits, rows[t]) && |p| == PackedRowBytes(d, bits) && Unpack(bits, p, d) == rows[t]
  {
    PackRoundTrip(bits, rows[t]);
  }
}
