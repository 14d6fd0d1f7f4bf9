/** One token's row of the base buffers: quantized, packed when the cache is packed, and read back. */
module BaseRows {

  import opened Numbers
  import opened Config
  import opened Quantizer
  import opened Pages

  /** A key and a value of one KV head, after projection and rotary embedding. */
  datatype Token = Token(k: Vec, v: Vec)

  predicate TokenOk(cfg: CacheConfig, t: Token) { |t.k| == cfg.headDim && |t.v| == cfg.headDim }

  predicate TokensOk(cfg: CacheConfig, ts: seq<Token>) { forall i :: 0 <= i < |ts| ==> TokenOk(cfg, ts[i]) }

  /** The base quantizer: no clipping. */
  function BaseQuant(cfg: CacheConfig): QuantConfig { QuantConfig(cfg.baseBits, cfg.groupSize, 1.0) }

  function CodeBytes(codes: seq<int>): (b: seq<Byte>)
    requires forall i :: 0 <= i < |codes| ==> -8 <= codes[i] <= 7
    ensures |b| == |codes|
  {
    seq(|codes|, i requires 0 <= i < |codes| => ToByte(codes[i]))
  }

  /** A row of codes as the buffers hold it: one byte a code, or packed. */
  function EncodeCodes(cfg: CacheConfig, codes: seq<int>): seq<Byte>
    requires cfg.Valid() && |codes| == cfg.headDim
    requires forall i :: 0 <= i < |codes| ==> -8 <= codes[i] <= 7
  {
    var b := CodeBytes(codes);
    if cfg.packedBase then
      WholeGroups(cfg);
      PackGroups(cfg.baseBits, b)
    else b
  }

  /** Bytes of one stored row of codes. */
  function RowBytes(cfg: CacheConfig): nat
    requires cfg.Valid()
  {
    if cfg.packedBase then PackedRowBytes(cfg.headDim, cfg.baseBits) else cfg.headDim
  }

  /** The codes of a stored row: unpacked on the fly when the cache is packed. */
  function DecodeCodes(cfg: CacheConfig, row: seq<Byte>): (codes: seq<int>)
    requires cfg.Valid() && |row| == RowBytes(cfg)
    ensures |codes| == cfg.headDim
  {
    var b := if cfg.packedBase then Unpack(cfg.baseBits, row, cfg.headDim) else row;
    seq(cfg.headDim, i requires 0 <= i < cfg.headDim => ToInt(b[i]))
  }

  lemma WholeGroups(cfg: CacheConfig)
    requires cfg.Valid() && cfg.packedBase
    ensures cfg.headDim % PerGroup(cfg.baseBits) == 0
  {
  }

  lemma PackedCodes(cfg: CacheConfig, b: seq<Byte>)
    requires cfg.Valid() && cfg.packedBase && |b| == cfg.headDim && CodeRow(cfg.baseBits, b)
    requires cfg.headDim % PerGroup(cfg.baseBits) == 0
    ensures |PackGroups(cfg.baseBits, b)| == RowBytes(cfg)
    ensures Unpack(cfg.baseBits, PackGroups(cfg.baseBits, b), cfg.headDim) == b
  {
    hide CodeRow, Unpack, PackGroups, Pack, PerGroup;
    RowsAgreeWithFlat(cfg.baseBits, [b], cfg.headDim, 0);
    assert PackRows(cfg.baseBits, [b])[0] == PackGroups(cfg.baseBits, b);
  }

  lemma BytesFit(cfg: CacheConfig, x: Vec)
    requires cfg.Valid() && |x| == cfg.headDim
    ensures CodeRow(cfg.baseBits, CodeBytes(Codes(x, BaseQuant(cfg))))
    ensures forall i :: 0 <= i < |x| ==>
      ToInt(CodeBytes(Codes(x, BaseQuant(cfg)))[i]) == Codes(x, BaseQuant(cfg))[i]
  {
    hide Codes, ToByte, ToInt, CodeByte;
    var codes := Codes(x, BaseQuant(cfg));
    forall i | 0 <= i < |x| ensures CodeByte(cfg.baseBits, ToByte(codes[i])) && ToInt(ToByte(codes[i])) == codes[i] {
      InRangeFits(BaseQuant(cfg), codes[i]);
    }
  }

  /** Codes survive the base buffers, packed or not. */
  lemma CodesRoundTrip(cfg: CacheConfig, x: Vec)
    requires cfg.Valid() && |x| == cfg.headDim
    ensures var row := EncodeCodes(cfg, Codes(x, BaseQuant(cfg)));
      |row| == RowBytes(cfg) && DecodeCodes(cfg, row) == Codes(x, BaseQuant(cfg))
  {
    hide Codes, ToByte, ToInt, CodeRow, Unpack, PackGroups, CodeBytes;
    BytesFit(cfg, x);
    if cfg.packedBase { WholeGroups(cfg); PackedCodes(cfg, CodeBytes(Codes(x, BaseQuant(cfg)))); }
  }

  /** What `write_base` and `append_to_page` store for one token. */
  function EncodeRow(cfg: CacheConfig, t: Token): StoredRow
    requires cfg.Valid() && TokenOk(cfg, t)
  {
    StoredRow(EncodeCodes(cfg, Codes(t.k, BaseQuant(cfg))), Scales(t.k, BaseQuant(cfg)),
              EncodeCodes(cfg, Codes(t.v, BaseQuant(cfg))), Scales(t.v, BaseQuant(cfg)))
  }

  predicate RowOk(cfg: CacheConfig, row: StoredRow)
  {
    && cfg.Valid()
    && |row.kCodes| == |row.vCodes| == RowBytes(cfg)
    && |row.kScale| == |row.vScale| == cfg.headDim / cfg.groupSize
  }

  lemma EncodedOk(cfg: CacheConfig, t: Token)
    requires cfg.Valid() && TokenOk(cfg, t)
    ensures RowOk(cfg, EncodeRow(cfg, t))
  {
    hide EncodeCodes, Codes, DecodeCodes;
    CodesRoundTrip(cfg, t.k);
    CodesRoundTrip(cfg, t.v);
  }

  /** A row of zeros, as the buffers start. */
  function BlankRow(cfg: CacheConfig): (row: StoredRow)
    requires cfg.Valid()
    ensures RowOk(cfg, row)
  {
    var codes, scale := seq(RowBytes(cfg), _ => 0 as Byte), seq(cfg.headDim / cfg.groupSize, _ => 0.0);
    StoredRow(codes, scale, codes, scale)
  }

  /** The dequantized key and value of a stored row. */
  function HatK(cfg: CacheConfig, row: StoredRow): (x: Vec)
    requires RowOk(cfg, row)
    ensures |x| == cfg.headDim
  {
    Dequantize(DecodeCodes(cfg, row.kCodes), row.kScale, cfg.groupSize)
  }

  function HatV(cfg: CacheConfig, row: StoredRow): (x: Vec)
    requires RowOk(cfg, row)
    ensures |x| == cfg.headDim
  {
    Dequantize(DecodeCodes(cfg, row.vCodes), row.vScale, cfg.groupSize)
  }

  /** Quantize and dequantize, without storing. */
  function Hat(cfg: CacheConfig, x: Vec): (y: Vec)
    requires cfg.Valid() && |x| == cfg.headDim
    ensures |y| == cfg.headDim
  {
    Dequantize(Codes(x, BaseQuant(cfg)), Scales(x, BaseQuant(cfg)), cfg.groupSize)
  }

  lemma HatAccurate(cfg: CacheConfig, x: Vec, i: nat)
    requires cfg.Valid() && |x| == cfg.headDim && i < |x|
    ensures Within(x[i], Hat(cfg, x)[i], ScaleAt(x, BaseQuant(cfg), i) / 2.0)
  {
    hide Codes, Scales, Dequantize, ScaleAt, Within;
    QuantizeAccurate(x, BaseQuant(cfg), i);
  }

  /** What quantizing a row loses, whatever bounds the magnitudes of an entry's group; and that a largest entry
    * of its group, above the scale floor, loses nothing. */
  lemma HatWithin(cfg: CacheConfig, x: Vec, i: nat, m: real)
    requires cfg.Valid() && |x| == cfg.headDim && i < |x| && m >= 0.00000001
    requires Bounded(OwnGroup(x, BaseQuant(cfg), i), m)
    ensures Within(x[i], Hat(cfg, x)[i], m / (2.0 * BaseQuant(cfg).QMax() as real))
    ensures Abs(x[i]) == m ==> Hat(cfg, x)[i] == x[i]
  {
    hide Codes, Scales, Dequantize, Within, OwnGroup, Bounded;
    QuantizeWithin(x, BaseQuant(cfg), i, m);
    if Abs(x[i]) == m { LargestExact(x, BaseQuant(cfg), i); }
  }

  /** Reading a stored token back gives the dequantized token; each of its entries is within half a quantization step
    * of what was written, so within `m / (2 * qmax)` for every bound `m` of its group, and a largest one is exact. */
  lemma StoredRowAccurate(cfg: CacheConfig, t: Token)
    requires cfg.Valid() && TokenOk(cfg, t)
    ensures var row := EncodeRow(cfg, t);
      && RowOk(cfg, row) && HatK(cfg, row) == Hat(cfg, t.k) && HatV(cfg, row) == Hat(cfg, t.v)
      && (forall i :: 0 <= i < cfg.headDim ==>
            Within(t.k[i], HatK(cfg, row)[i], ScaleAt(t.k, BaseQuant(cfg), i) / 2.0))
      && (forall i :: 0 <= i < cfg.headDim ==>
            Within(t.v[i], HatV(cfg, row)[i], ScaleAt(t.v, BaseQuant(cfg), i) / 2.0))
      && (forall i, m :: 0 <= i < cfg.headDim && m >= 0.00000001 ==>
            && (Bounded(OwnGroup(t.k, BaseQuant(cfg), i), m) ==> ReadsWithin(cfg, t.k[i], HatK(cfg, row)[i], m))
            && (Bounded(OwnGroup(t.v, BaseQuant(cfg), i), m) ==> ReadsWithin(cfg, t.v[i], HatV(cfg, row)[i], m)))
  {
    hide EncodeCodes, DecodeCodes, Codes, Scales, Dequantize, ScaleAt, Within, OwnGroup, Bounded;
    CodesRoundTrip(cfg, t.k);
    CodesRoundTrip(cfg, t.v);
    EncodedOk(cfg, t);
    forall i | 0 <= i < cfg.headDim
      ensures Within(t.k[i], Hat(cfg, t.k)[i], ScaleAt(t.k, BaseQuant(cfg), i) / 2.0)
           && Within(t.v[i], Hat(cfg, t.v)[i], ScaleAt(t.v, BaseQuant(cfg), i) / 2.0)
    {
      HatAccurate(cfg, t.k, i);
      HatAccurate(cfg, t.v, i);
    }
    forall i, m | 0 <= i < cfg.headDim && m >= 0.00000001
      ensures Bounded(OwnGroup(t.k, BaseQuant(cfg), i), m) ==> ReadsWithin(cfg, t.k[i], Hat(cfg, t.k)[i], m)
      ensures Bounded(OwnGroup(t.v, BaseQuant(cfg), i), m) ==> ReadsWithin(cfg, t.v[i], Hat(cfg, t.v)[i], m)
    {
      if Bounded(OwnGroup(t.k, BaseQuant(cfg), i), m) { HatWithin(cfg, t.k, i, m); }
      if Bounded(OwnGroup(t.v, BaseQuant(cfg), i), m) { HatWithin(cfg, t.v, i, m); }
    }
  }

  /** `y` is what is read for `x` when the magnitudes of its group are at most `m`. */
  predicate ReadsWithin(cfg: CacheConfig, x: real, y: real, m: real)
    requires cfg.Valid()
  {
    Within(x, y, m / (2.0 * BaseQuant(cfg).QMax() as real)) && (Abs(x) == m ==> y == x)
  }
}
