/**
 * The EFB-to-texture encoder's shader permutation key and its disk-cache
 * reader.  `MakeComboKey` packs the encode parameters into one u32; the
 * cache reader hands every stored record to `InsertShader` unchanged.
 */
module PSTextureEncoder {
  import opened D3DShader

  /**
   * `MakeComboKey`: bit 24 `model5`, `dstFormat` from bit 4 up, the EFB
   * pixel format (`srcFormat`, as an integer) from bit 2 up, bit 1
   * `isIntensity` and bit 0 `scaleByHalf`, or-ed together on u32.
   */
  function MakeComboKey(dstFormat: bv32, srcFormat: bv32, isIntensity: bool, scaleByHalf: bool, model5: bool): bv32
  {
    (if model5 then 1 << 24 else 0) | (dstFormat << 4) | (srcFormat << 2)
      | (if isIntensity then 1 << 1 else 0) | (if scaleByHalf then 1 << 0 else 0)
  }

  /** The fields read back from a key, one per parameter. */
  predicate ScaleByHalfOf(key: bv32)
  {
    key & 1 == 1
  }

  predicate IntensityOf(key: bv32)
  {
    (key >> 1) & 1 == 1
  }

  function SrcFormatOf(key: bv32): bv32
  {
    (key >> 2) & 3
  }

  function DstFormatOf(key: bv32): bv32
  {
    (key >> 4) & 0xF
  }

  predicate Model5Of(key: bv32)
  {
    (key >> 24) & 1 == 1
  }

  /** The bounds under which the fields do not overlap: four fetch kinds and sixteen generators. */
  predicate InRange(dstFormat: bv32, srcFormat: bv32)
  {
    srcFormat < 4 && dstFormat < 16
  }

  /** Bits 0 and 1 hold the two flags, whatever the formats. */
  lemma FlagBits(dstFormat: bv32, srcFormat: bv32, isIntensity: bool, scaleByHalf: bool, model5: bool)
    ensures ScaleByHalfOf(MakeComboKey(dstFormat, srcFormat, isIntensity, scaleByHalf, model5)) == scaleByHalf
    ensures IntensityOf(MakeComboKey(dstFormat, srcFormat, isIntensity, scaleByHalf, model5)) == isIntensity
  {
  }

  /** Bits 2-3 hold the source format when it is below 4. */
  lemma SrcFormatBits(dstFormat: bv32, srcFormat: bv32, isIntensity: bool, scaleByHalf: bool, model5: bool)
    requires srcFormat < 4
    ensures SrcFormatOf(MakeComboKey(dstFormat, srcFormat, isIntensity, scaleByHalf, model5)) == srcFormat
  {
  }

  /** Bits 4-7 hold the destination format when both formats are in range. */
  lemma DstFormatBits(dstFormat: bv32, srcFormat: bv32, isIntensity: bool, scaleByHalf: bool, model5: bool)
    requires InRange(dstFormat, srcFormat)
    ensures DstFormatOf(MakeComboKey(dstFormat, srcFormat, isIntensity, scaleByHalf, model5)) == dstFormat
  {
  }

  /** Bit 24 holds `model5` when both formats are in range. */
  lemma Model5Bit(dstFormat: bv32, srcFormat: bv32, isIntensity: bool, scaleByHalf: bool, model5: bool)
    requires InRange(dstFormat, srcFormat)
    ensures Model5Of(MakeComboKey(dstFormat, srcFormat, isIntensity, scaleByHalf, model5)) == model5
  {
  }

  /** Every parameter in range is read back from its key. */
  lemma KeyRoundTrip(dstFormat: bv32, srcFormat: bv32, isIntensity: bool, scaleByHalf: bool, model5: bool)
    requires InRange(dstFormat, srcFormat)
    ensures var key := MakeComboKey(dstFormat, srcFormat, isIntensity, scaleByHalf, model5);
      && ScaleByHalfOf(key) == scaleByHalf && IntensityOf(key) == isIntensity
      && SrcFormatOf(key) == srcFormat && DstFormatOf(key) == dstFormat && Model5Of(key) == model5
  {
    FlagBits(dstFormat, srcFormat, isIntensity, scaleByHalf, model5);
    SrcFormatBits(dstFormat, srcFormat, isIntensity, scaleByHalf, model5);
    DstFormatBits(dstFormat, srcFormat, isIntensity, scaleByHalf, model5);
    Model5Bit(dstFormat, srcFormat, isIntensity, scaleByHalf, model5);
  }

  /** In range, two parameter sets share a key exactly when they are equal. */
  lemma KeyInjective(d1: bv32, s1: bv32, i1: bool, h1: bool, m1: bool, d2: bv32, s2: bv32, i2: bool, h2: bool, m2: bool)
    requires InRange(d1, s1) && InRange(d2, s2)
    ensures MakeComboKey(d1, s1, i1, h1, m1) == MakeComboKey(d2, s2, i2, h2, m2)
      <==> d1 == d2 && s1 == s2 && i1 == i2 && h1 == h2 && m1 == m2
  {
    KeyRoundTrip(d1, s1, i1, h1, m1);
    KeyRoundTrip(d2, s2, i2, h2, m2);
  }

  /** In range, a key without `model5` fits in 8 bits. */
  lemma KeyBelow256(dstFormat: bv32, srcFormat: bv32, isIntensity: bool, scaleByHalf: bool)
    requires InRange(dstFormat, srcFormat)
    ensures MakeComboKey(dstFormat, srcFormat, isIntensity, scaleByHalf, false) < 0x100
  {
  }

  /** In range, a key with `model5` lies in `[2^24, 2^25)`. */
  lemma Model5KeyBelow2To25(dstFormat: bv32, srcFormat: bv32, isIntensity: bool, scaleByHalf: bool)
    requires InRange(dstFormat, srcFormat)
    ensures 0x100_0000 <= MakeComboKey(dstFormat, srcFormat, isIntensity, scaleByHalf, true) < 0x200_0000
  {
  }

  /**
   * Out of range the fields overlap: the Y8 pixel format (4) with
   * destination format 0 gets the key of RGB8_Z24 (0) with destination
   * format 1.
   */
  lemma SourceFormatFourCollides()
    ensures MakeComboKey(0, 4, false, false, false) == MakeComboKey(1, 0, false, false, false) == 16
  {
  }

  /** One disk-cache record and one `InsertShader(key, data, size)` call. */
  datatype CacheRecord = CacheRecord(key: bv32, value: Bytecode)
  datatype InsertCall = InsertCall(key: bv32, data: Bytecode, size: nat)

  /**
   * `ShaderCacheInserter::Read` over the records the disk cache reads, in
   * order: each record becomes one `InsertShader` call with the same key,
   * the same bytes and their length as the size.
   */
  function ForwardAll(records: seq<CacheRecord>): (calls: seq<InsertCall>)
    ensures |calls| == |records|
    ensures forall i :: 0 <= i < |records| ==>
      calls[i].key == records[i].key && calls[i].data == records[i].value && calls[i].size == |calls[i].data|
  {
    if records == [] then []
    else
      var r := records[|records| - 1];
      ForwardAll(records[..|records| - 1]) + [InsertCall(r.key, r.value, |r.value|)]
  }

  /** Reading two batches of records one after the other forwards them in the same order. */
  lemma {:induction false} ForwardAllAppend(a: seq<CacheRecord>, b: seq<CacheRecord>)
    ensures ForwardAll(a + b) == ForwardAll(a) + ForwardAll(b)
  {
    if b != [] {
      var ab := a + b;
      assert ab[..|ab| - 1] == a + b[..|b| - 1];
      ForwardAllAppend(a, b[..|b| - 1]);
    } else {
      assert a + b == a;
    }
  }
}
