/**
 * The compute-shader texture decoder of the D3D11 backend
 * (PSTextureDecoder.h/.cpp).
 *
 * A decode selects the compute shader for the texture's source format and
 * palette format, compiling it on the first use of that combination and
 * appending the bytecode to a disk cache, then takes a w x h output
 * texture from a pool (created on first use), uploads the raw texels and
 * dispatches one 8 x 8 thread group per 8 x 8 block of texels.  The HLSL
 * helpers that expand 16-bit colours to 8 bits per channel are modelled
 * as integer functions.  The compiler, the device and the context are
 * oracles: their answers are fields of the decoder, their calls are logs.
 */
module PSTextureDecoder {
  import opened Wrappers
  import opened D3DPtr
  import opened D3DShader

  /** `ComboKey`: the u32 key of one compiled shader permutation. */
  datatype ComboKey = ComboKey(bits: bv32)

  /** One `uint4` texel as the HLSL helpers return it. */
  datatype Texel = Texel(r: bv32, g: bv32, b: bv32, a: bv32)

  /** The 16-bit RGB565 colour held by the four channels' top bits. */
  function Pack565(t: Texel): bv32
  {
    ((t.r >> 3) << 11) | ((t.g >> 2) << 5) | (t.b >> 3)
  }

  /**
   * HLSL `Read565`: each field is shifted to the top of a byte and its top
   * bits are replicated below, so an all-ones field gives 255 and a zero
   * field 0; alpha is opaque.
   */
  function Read565(v: bv32): (t: Texel)
    ensures t.r <= 255 && t.g <= 255 && t.b <= 255 && t.a == 255
    ensures v & 0xF800 == 0xF800 ==> t.r == 255
    ensures v & 0x07E0 == 0x07E0 ==> t.g == 255
    ensures v & 0x001F == 0x001F ==> t.b == 255
    ensures v & 0xF800 == 0 ==> t.r == 0
    ensures v & 0x07E0 == 0 ==> t.g == 0
    ensures v & 0x001F == 0 ==> t.b == 0
  {
    var b := (v & 0x1F) << 3;
    var g := (v & 0x7E0) >> 3;
    var r := (v & 0xF800) >> 8;
    Texel(r | (r >> 5), g | (g >> 6), b | (b >> 5), 255)
  }

  /** The expansion keeps every field: the channels' top bits give back the 16-bit colour. */
  lemma Read565KeepsFields(v: bv32)
    ensures Pack565(Read565(v)) == v & 0xFFFF
  {
  }

  /** The 15-bit RGB555 colour held by the channels' top five bits. */
  function Pack555(t: Texel): bv32
  {
    ((t.r >> 3) << 10) | ((t.g >> 3) << 5) | (t.b >> 3)
  }

  /** The 15-bit RGB4A3 value held by alpha's top three bits and the channels' top four. */
  function Pack4A3(t: Texel): bv32
  {
    ((t.a >> 5) << 12) | ((t.r >> 4) << 8) | ((t.g >> 4) << 4) | (t.b >> 4)
  }

  /**
   * HLSL `Read5A3`: bit 15 chooses an opaque RGB555 colour or an RGB4A3
   * colour with a 3-bit alpha; every field is expanded by replicating its
   * bits, so alpha code 7 is opaque.
   */
  function Read5A3(v: bv32): (t: Texel)
    ensures t.r <= 255 && t.g <= 255 && t.b <= 255 && t.a <= 255
    ensures v & 0x8000 != 0 ==> t.a == 255 && Pack555(t) | 0x8000 == v & 0xFFFF
    ensures v & 0x8000 == 0 ==> Pack4A3(t) == v & 0xFFFF
    ensures v & 0x8000 == 0 && v & 0x7000 == 0x7000 ==> t.a == 255
    ensures v & 0x8000 == 0 && v & 0x7000 == 0 ==> t.a == 0
  {
    if v & 0x8000 != 0 then
      var r := (v & 0x7C00) >> 7;
      var g := (v & 0x03E0) >> 2;
      var b := (v & 0x001F) << 3;
      Texel(r | (r >> 5), g | (g >> 5), b | (b >> 5), 255)
    else
      var a := (v & 0x7000) >> 7;
      var r := (v & 0x0F00) >> 4;
      var g := (v & 0x00F0) >> 0;
      var b := (v & 0x000F) << 4;
      Texel(r | (r >> 4), g | (g >> 4), b | (b >> 4), a | (a >> 3) | (a >> 6))
  }

  /** `DecFunc`: the decoding function of each 4-bit source format. */
  const DecFunc: seq<string> := [
    "DecodeI4", "DecodeI8", "DecodeIA4", "DecodeIA8",
    "Decode565", "Decode5A3", "DecodeRGBA8", "NotImplemented",
    "DecodeC4", "DecodeC8", "DecodeC14", "NotImplemented",
    "NotImplemented", "NotImplemented", "DecodeCmpr", "DecodeRGBA8FromTMEM"]

  /** `LutFunc`: the palette readers, one per palette format IA8, RGB565, RGB5A3. */
  const LutFunc: seq<string> := ["ReadLutIA8", "ReadLut565", "ReadLut5A3"]

  /** `valType`: the `FMT` macro, the source format plus one, in decimal. */
  const ValType: seq<string> := [
    "1", "2", "3", "4", "5", "6", "7", "8",
    "9", "10", "11", "12", "13", "14", "15", "16"]

  /** The source formats `GX_TF_C4`, `GX_TF_C8` and `GX_TF_C14X2`, which read a palette. */
  predicate IsPaletted(rawFmt: bv32)
  {
    8 <= rawFmt <= 10
  }

  /**
   * The three macros the decoder shader is compiled with.  `lutFunc` is
   * `None` when the palette format indexes past the three-entry table.
   */
  datatype Defines = Defines(decoderFunc: string, lutFunc: Option<string>, fmt: string)

  /** The `macros` array of `SetStaticShader`. */
  function ShaderDefines(srcFmt: bv32, lutFmt: bv32): (d: Defines)
    ensures d.decoderFunc == "NotImplemented" <==> srcFmt & 0xF in {7, 11, 12, 13}
    ensures d.lutFunc.Some? <==> lutFmt & 0xF < 3
    ensures d.lutFunc == Some("ReadLutIA8") <==> lutFmt & 0xF == 0
    ensures d.fmt == ValType[(srcFmt & 0xF) as int]
  {
    var raw := srcFmt & 0xF;
    var lut := lutFmt & 0xF;
    Defines(DecFunc[raw as int], if lut < 3 then Some(LutFunc[lut as int]) else None, ValType[raw as int])
  }

  /** `MakeComboKey`: the source format in bits 0-3, the palette format in bits 16-19. */
  function MakeComboKey(srcFmt: bv32, lutFmt: bv32, dstFmt: bv32): (key: ComboKey)
    ensures key.bits & 0xF == srcFmt & 0xF
    ensures (key.bits >> 16) & 0xF == lutFmt & 0xF
    ensures key.bits & 0xFFF0_FFF0 == 0
  {
    ComboKey((srcFmt & 0xF) | ((lutFmt & 0xF) << 16))
  }

  /** Two combinations share a key exactly when their low four bits agree; `dstFmt` plays no part. */
  lemma MakeComboKeyInjective(s1: bv32, l1: bv32, d1: bv32, s2: bv32, l2: bv32, d2: bv32)
    ensures MakeComboKey(s1, l1, d1) == MakeComboKey(s2, l2, d2) <==> s1 & 0xF == s2 & 0xF && l1 & 0xF == l2 & 0xF
  {
    var k1, k2 := MakeComboKey(s1, l1, d1), MakeComboKey(s2, l2, d2);
    if s1 & 0xF == s2 & 0xF && l1 & 0xF == l2 & 0xF {
      assert k1 == k2;
    }
  }

  /** The palette format `SetStaticShader` keys on: forced to 0 unless the source format reads a palette. */
  function EffectiveLut(srcFmt: bv32, lutFmt: bv32): bv32
  {
    if !IsPaletted(srcFmt & 0xF) then 0 else lutFmt
  }

  /**
   * A non-paletted format selects the same shader whatever palette format
   * is loaded; a paletted one selects different shaders for palette
   * formats that differ in their low four bits.
   */
  lemma PaletteOnlyMattersForPalettedFormats(srcFmt: bv32, l1: bv32, l2: bv32, dstFmt: bv32)
    ensures !IsPaletted(srcFmt & 0xF) ==>
      MakeComboKey(srcFmt, EffectiveLut(srcFmt, l1), dstFmt) == MakeComboKey(srcFmt, EffectiveLut(srcFmt, l2), dstFmt)
    ensures IsPaletted(srcFmt & 0xF) && l1 & 0xF != l2 & 0xF ==>
      MakeComboKey(srcFmt, EffectiveLut(srcFmt, l1), dstFmt) != MakeComboKey(srcFmt, EffectiveLut(srcFmt, l2), dstFmt)
  {
    MakeComboKeyInjective(srcFmt, EffectiveLut(srcFmt, l1), dstFmt, srcFmt, EffectiveLut(srcFmt, l2), dstFmt);
  }

  /** `PoolKey`: an output texture's format and size (u32 values, compared unsigned). */
  datatype PoolKey = PoolKey(dstFmt: nat, w: nat, h: nat)

  /** `PoolKey::operator<`. */
  predicate PoolLess(a: PoolKey, b: PoolKey)
  {
    || a.dstFmt < b.dstFmt
    || (a.dstFmt == b.dstFmt && a.w < b.w)
    || (a.dstFmt == b.dstFmt && a.w == b.w && a.h < b.h)
  }

  /**
   * `operator<` is a strict total order, as `std::map` needs: irreflexive,
   * transitive, and any two distinct keys are ordered one way or the other.
   */
  lemma PoolLessStrictTotal(a: PoolKey, b: PoolKey, c: PoolKey)
    ensures !PoolLess(a, a)
    ensures PoolLess(a, b) && PoolLess(b, c) ==> PoolLess(a, c)
    ensures a != b ==> PoolLess(a, b) || PoolLess(b, a)
    ensures !(PoolLess(a, b) && PoolLess(b, a))
  {
  }

  /** `(n + 7) / 8`: the number of 8-wide thread groups covering `n` texels. */
  function GroupCount(n: nat): (g: nat)
    ensures g * 8 >= n
    ensures g == 0 || (g - 1) * 8 < n
  {
    (n + 7) / 8
  }

  /**
   * Thread `t < 8` of group `g` handles texel `8g + t` and the kernel writes
   * it only when it is below the dimension `n`.  Texel `x < n` is handled
   * by a thread of the dispatched grid, and by no other thread.
   */
  lemma TexelHasOneThread(n: nat, x: nat, g: nat, t: nat)
    requires x < n
    ensures x / 8 < GroupCount(n) && (x / 8) * 8 + x % 8 == x
    ensures t < 8 && g * 8 + t == x ==> g == x / 8 && t == x % 8
  {
    var q := x / 8;
    assert (q + 1) * 8 <= n + 7;
    if t < 8 && g * 8 + t == x {
      DivModOf8(x, g, t);
    }
  }

  /** Quotient and remainder by 8 are unique. */
  lemma DivModOf8(x: nat, g: nat, t: nat)
    requires t < 8 && g * 8 + t == x
    ensures g == x / 8 && t == x % 8
  {
  }

  /**
   * `DecodeRGBAFromTMEM`'s padding of a dimension as written,
   * `(n + 4) & ~4` on u32: it clears bit 2 instead of the two low bits.
   */
  function TmemPadAsWritten(n: bv32): bv32
  {
    (n + 4) & !4
  }

  /**
   * The padding the decoding kernel assumes for the colour planes,
   * `(n + 3) & ~3`: the least multiple of 4 that is at least `n`.
   */
  function TmemPad(n: nat): (r: nat)
    ensures r % 4 == 0 && n <= r < n + 4
  {
    (n + 3) / 4 * 4
  }

  /**
   * The bytes of one 16-bit plane of a `w x h` texture padded as the
   * kernel reads it; the kernel reads the GB plane from this offset.
   */
  function TmemPlane(w: nat, h: nat): nat
  {
    2 * (TmemPad(w) * TmemPad(h))
  }

  /**
   * The as-written padding is not the kernel's: a 3-wide texture is padded
   * to 3, not a multiple of 4, and a 4-wide one to 8; for a 4 x 4 texture
   * the AR plane uploaded, `(aw * ah) << 1`, is 128 bytes while the kernel
   * reads the GB plane from byte 32.
   */
  lemma TmemPadAsWrittenMismatch()
    ensures TmemPadAsWritten(3) == 3 && TmemPadAsWritten(3) & 3 != 0 && TmemPad(3) == 4
    ensures TmemPadAsWritten(4) == 8 && TmemPad(4) == 4
    ensures (TmemPadAsWritten(4) * TmemPadAsWritten(4)) << 1 == 128 && TmemPlane(4, 4) == 32
  {
  }

  /**
   * With the kernel's padding every row and column of the texture lies
   * inside the uploaded plane, and the plane holds at most three padding
   * texels per row and column.
   */
  lemma TmemPlaneCoversTexture(w: nat, h: nat)
    ensures 2 * (w * h) <= TmemPlane(w, h) < 2 * ((w + 4) * (h + 4))
  {
    MulLe(w, TmemPad(w), h, TmemPad(h));
    MulLt(TmemPad(w), w + 4, TmemPad(h), h + 4);
  }

  /** The plane is a whole number of 4 x 4 tiles of 16-bit texels, 32 bytes each. */
  lemma TmemPlaneIsWholeTiles(w: nat, h: nat)
    ensures TmemPlane(w, h) % 32 == 0
  {
    var a, b := TmemPad(w) / 4, TmemPad(h) / 4;
    MulByFours(a, b);
    assert TmemPlane(w, h) == 32 * (a * b);
  }

  lemma MulByFours(a: nat, b: nat)
    ensures (a * 4) * (b * 4) == 16 * (a * b)
  {
  }

  lemma MulLe(a: nat, b: nat, c: nat, d: nat)
    requires a <= b && c <= d
    ensures a * c <= b * d
  {
  }

  lemma MulLt(a: nat, b: nat, c: nat, d: nat)
    requires a < b && c < d
    ensures a * c < b * d
  {
  }

  /** One `UpdateSubresource` into the raw-texel or the palette buffer: the byte range it writes. */
  datatype Target = RawData | Lut
  datatype Upload = Upload(target: Target, begin: nat, end: nat)

  /** One `Dispatch(x, y, 1)`. */
  datatype Dispatch = Dispatch(x: nat, y: nat)

  /** One `CopySubresourceRegion` into the destination texture: the mip level and the texture copied. */
  datatype Copy = Copy(level: nat, source: Ptr)

  /** A disk-cache record: the key and the bytecode bytes. */
  datatype KeyedBlob = KeyedBlob(key: ComboKey, data: Bytecode)

  /** The pooled texture and its unordered-access view. */
  datatype PoolValue = PoolValue(rsc: Ptr, uav: Ptr)

  /** What `ToAddr(result)` leaves in `result`: the written pointer, if any, else the old one. */
  function Stored(prev: Ptr, written: Ptr): (p: Ptr)
    ensures written.Obj? ==> p == written
    ensures written.Null? ==> p == prev
  {
    if written.Obj? then written else prev
  }

  /** The bytes `bytecode.Data()`/`Size()` hand to the disk cache: none when the compile failed. */
  function BlobBytes(out: CompilerOutput): (bytes: Bytecode)
    ensures out.Compiled? ==> bytes == out.code
    ensures out.Failed? ==> bytes == []
  {
    var compiled := CompileShader(out);
    if compiled.ok then compiled.blob.value else []
  }

  /** The native services: the compiler, shader creation and pool texture creation. */
  datatype Backend = Backend(
    compile: Defines -> CompilerOutput,
    createShader: Bytecode -> Ptr,
    createPool: (nat, nat) -> PoolValue)

  /** The shader permutations, the disk log, the keys compiled so far and the bound shader. */
  datatype Statics = Statics(
    shaders: map<ComboKey, Ptr>,
    disk: seq<KeyedBlob>,
    compiles: seq<ComboKey>,
    bound: Ptr)

  /** No key appears twice in `s`. */
  predicate NoDuplicates(s: seq<ComboKey>)
  {
    forall i, j :: 0 <= i < j < |s| ==> s[i] != s[j]
  }

  /** Every compiled key is in the map, and none was compiled twice. */
  predicate CompiledOnce(s: Statics)
  {
    NoDuplicates(s.compiles) && forall i :: 0 <= i < |s.compiles| ==> s.compiles[i] in s.shaders
  }

  /**
   * `SetStaticShader`: the palette format is forced to 0 for non-paletted
   * formats; a present key binds its shader and reports whether it is
   * non-null; a missing one is compiled (a failure only warns), appended to
   * the disk log, created into a new map slot and bound.
   */
  function SetStatic(s: Statics, b: Backend, srcFmt: bv32, lutFmt: bv32, dstFmt: bv32): (Statics, bool)
  {
    var lut := EffectiveLut(srcFmt, lutFmt);
    var key := MakeComboKey(srcFmt, lut, dstFmt);
    if key in s.shaders then
      (s.(bound := s.shaders[key]), s.shaders[key].Obj?)
    else
      var bytes := BlobBytes(b.compile(ShaderDefines(srcFmt, lut)));
      var shader := Stored(Null, b.createShader(bytes));
      (Statics(s.shaders[key := shader], s.disk + [KeyedBlob(key, bytes)], s.compiles + [key], shader), shader.Obj?)
  }

  /**
   * A selection compiles at most once: on a present key nothing but the
   * bound shader changes; on a missing key exactly one record and one
   * compile are added and the key enters the map whatever the outcome, so
   * the key is never compiled again.
   */
  lemma SetStaticCompilesOnce(s: Statics, b: Backend, srcFmt: bv32, lutFmt: bv32, dstFmt: bv32)
    requires CompiledOnce(s)
    ensures var (s', ok) := SetStatic(s, b, srcFmt, lutFmt, dstFmt);
      var key := MakeComboKey(srcFmt, EffectiveLut(srcFmt, lutFmt), dstFmt);
      && CompiledOnce(s')
      && key in s'.shaders && s'.bound == s'.shaders[key] && ok == s'.shaders[key].Obj?
      && (key in s.shaders ==> s'.shaders == s.shaders && s'.disk == s.disk && s'.compiles == s.compiles)
      && (key !in s.shaders ==>
            && s'.shaders.Keys == s.shaders.Keys + {key}
            && (forall k :: k in s.shaders ==> s'.shaders[k] == s.shaders[k])
            && |s'.disk| == |s.disk| + 1 && s'.disk[..|s.disk|] == s.disk && s'.disk[|s.disk|].key == key
            && s'.compiles == s.compiles + [key])
  {
    var key := MakeComboKey(srcFmt, EffectiveLut(srcFmt, lutFmt), dstFmt);
    var (s', ok) := SetStatic(s, b, srcFmt, lutFmt, dstFmt);
    if key !in s.shaders {
      var bytes := BlobBytes(b.compile(ShaderDefines(srcFmt, EffectiveLut(srcFmt, lutFmt))));
      var shader := Stored(Null, b.createShader(bytes));
      assert s' == Statics(s.shaders[key := shader], s.disk + [KeyedBlob(key, bytes)], s.compiles + [key], shader);
      forall i | 0 <= i < |s.compiles| ensures s.compiles[i] != key {
        assert s.compiles[i] in s.shaders;
      }
      assert s'.disk[..|s.disk|] == s.disk;
    }
  }

  /** A failed compile still leaves a (null) map entry, so the second attempt is a hit and fails without compiling. */
  lemma FailedCompileIsRemembered(s: Statics, b: Backend, srcFmt: bv32, lutFmt: bv32, dstFmt: bv32)
    requires CompiledOnce(s)
    requires MakeComboKey(srcFmt, EffectiveLut(srcFmt, lutFmt), dstFmt) !in s.shaders
    requires b.compile(ShaderDefines(srcFmt, EffectiveLut(srcFmt, lutFmt))).Failed?
    requires b.createShader([]).Null?
    ensures var (s1, ok1) := SetStatic(s, b, srcFmt, lutFmt, dstFmt);
      var (s2, ok2) := SetStatic(s1, b, srcFmt, lutFmt, dstFmt);
      && !ok1 && !ok2
      && s1.disk == s.disk + [KeyedBlob(MakeComboKey(srcFmt, EffectiveLut(srcFmt, lutFmt), dstFmt), [])]
      && s2.disk == s1.disk && s2.compiles == s1.compiles
  {
    var key := MakeComboKey(srcFmt, EffectiveLut(srcFmt, lutFmt), dstFmt);
    var (s1, ok1) := SetStatic(s, b, srcFmt, lutFmt, dstFmt);
    assert BlobBytes(b.compile(ShaderDefines(srcFmt, EffectiveLut(srcFmt, lutFmt)))) == [];
    assert s1 == Statics(s.shaders[key := Null], s.disk + [KeyedBlob(key, [])], s.compiles + [key], Null);
  }

  /** The pool after looking up `key`: unchanged when present, else the new texture added. */
  function Pooled(pool: map<PoolKey, PoolValue>, b: Backend, w: nat, h: nat): (p: map<PoolKey, PoolValue>)
    ensures p.Keys == pool.Keys + {PoolKey(0, w, h)}
    ensures forall k :: k in pool ==> p[k] == pool[k]
  {
    var key := PoolKey(0, w, h);
    if key in pool then pool else pool[key := b.createPool(w, h)]
  }

  /** A second decode of the same size reuses the first one's texture. */
  lemma PoolReused(pool: map<PoolKey, PoolValue>, b: Backend, w: nat, h: nat, w2: nat, h2: nat)
    ensures var p1 := Pooled(pool, b, w, h);
      && p1[PoolKey(0, w, h)] == Pooled(p1, b, w2, h2)[PoolKey(0, w, h)]
      && Pooled(p1, b, w, h) == p1
  {
  }

  class TextureDecoder {
    const backend: Backend
    /** `TextureCache::src_temp_size`: the bytes uploaded from the staging area. */
    const srcTempSize: nat

    /** `m_ready`. */
    var ready: bool
    /** `m_staticShaders`. */
    var shaders: map<ComboKey, Ptr>
    /** `m_shaderCache`: the disk records appended, in order. */
    var disk: seq<KeyedBlob>
    ghost var compiles: seq<ComboKey>
    /** The compute shader bound on the context. */
    var bound: Ptr
    /** `pool_`. */
    var pool: map<PoolKey, PoolValue>
    /** `lutFmt_`. */
    var lutFmt: bv32
    /** The context's `UpdateSubresource` and `Dispatch` calls, in order. */
    var uploads: seq<Upload>
    var dispatches: seq<Dispatch>
    /** The copies into the destination textures, in order. */
    var copies: seq<Copy>

    ghost function State(): Statics
      reads this
    {
      Statics(shaders, disk, compiles, bound)
    }

    ghost predicate Valid()
      reads this
    {
      CompiledOnce(State())
    }

    /** `PSTextureDecoder() = default`. */
    constructor (backend: Backend, srcTempSize: nat)
      ensures this.backend == backend && this.srcTempSize == srcTempSize
      ensures Valid() && !ready && shaders == map[] && disk == [] && pool == map[] && lutFmt == 0
      ensures uploads == [] && dispatches == [] && copies == []
    {
      this.backend := backend;
      this.srcTempSize := srcTempSize;
      ready := false;
      shaders := map[];
      disk := [];
      compiles := [];
      bound := Null;
      pool := map[];
      lutFmt := 0;
      uploads := [];
      dispatches := [];
      copies := [];
    }

    /**
     * `Init`: the buffers are created and the decoder becomes ready; the
     * disk cache is then read through an inserter whose `Read` does
     * nothing (its forwarding call is commented out), so whatever the
     * records hold, no permutation is loaded from them.
     */
    method Init(records: seq<KeyedBlob>)
      requires Valid()
      modifies this
      ensures Valid() && ready
      ensures State() == old(State()) && pool == old(pool) && lutFmt == old(lutFmt)
      ensures uploads == old(uploads) && dispatches == old(dispatches) && copies == old(copies)
    {
      ready := false;
      ready := true;
    }

    /** `Shutdown`. */
    method Shutdown()
      modifies this
      ensures !ready && State() == old(State()) && pool == old(pool) && lutFmt == old(lutFmt)
      ensures uploads == old(uploads) && dispatches == old(dispatches) && copies == old(copies)
    {
      ready := false;
    }

    /** `SetStaticShader`, against `SetStatic`. */
    method SetStaticShader(srcFmt: bv32, lutFmt: bv32, dstFmt: bv32) returns (ok: bool)
      requires Valid()
      modifies this
      ensures Valid()
      ensures (State(), ok) == SetStatic(old(State()), backend, srcFmt, lutFmt, dstFmt)
      ensures ready == old(ready) && pool == old(pool) && this.lutFmt == old(this.lutFmt)
      ensures uploads == old(uploads) && dispatches == old(dispatches) && copies == old(copies)
    {
      SetStaticCompilesOnce(State(), backend, srcFmt, lutFmt, dstFmt);
      var lut := lutFmt;
      var rawFmt := srcFmt & 0xF;
      if rawFmt < 8 || rawFmt > 10 {
        lut := 0;
      }
      var key := MakeComboKey(srcFmt, lut, dstFmt);
      if key in shaders {
        bound := shaders[key];
        return shaders[key].Obj?;
      }
      var out := backend.compile(ShaderDefines(srcFmt, lut));
      var bytes := BlobBytes(out);
      disk := disk + [KeyedBlob(key, bytes)];
      compiles := compiles + [key];
      var result := Stored(Null, backend.createShader(bytes));
      shaders := shaders[key := result];
      bound := result;
      ok := result.Obj?;
    }

    /**
     * `InsertShader`: creates the shader into the map slot of `key`,
     * which a failed creation leaves as it was (null when new).
     */
    method InsertShader(key: ComboKey, data: Bytecode) returns (result: Ptr)
      requires Valid()
      modifies this
      ensures Valid()
      ensures result == Stored(if key in old(shaders) then old(shaders[key]) else Null, backend.createShader(data))
      ensures shaders == old(shaders)[key := result]
      ensures disk == old(disk) && compiles == old(compiles) && bound == old(bound)
      ensures ready == old(ready) && pool == old(pool) && lutFmt == old(lutFmt)
      ensures uploads == old(uploads) && dispatches == old(dispatches) && copies == old(copies)
    {
      var prev := if key in shaders then shaders[key] else Null;
      result := Stored(prev, backend.createShader(data));
      shaders := shaders[key := result];
    }

    /** `LoadLut`: uploads `size` palette bytes and records the palette format for the next decode. */
    method LoadLut(lutFmt: bv32, size: nat)
      modifies this
      ensures this.lutFmt == lutFmt && uploads == old(uploads) + [Upload(Lut, 0, size)]
      ensures ready == old(ready) && State() == old(State()) && pool == old(pool)
      ensures dispatches == old(dispatches) && copies == old(copies)
    {
      uploads := uploads + [Upload(Lut, 0, size)];
      this.lutFmt := lutFmt;
    }

    /** The pool lookup shared by both decodes: find `{0, w, h}` or create and insert it. */
    method PoolTexture(w: nat, h: nat) returns (value: PoolValue)
      modifies this
      ensures pool == Pooled(old(pool), backend, w, h) && value == pool[PoolKey(0, w, h)]
      ensures ready == old(ready) && State() == old(State()) && lutFmt == old(lutFmt)
      ensures uploads == old(uploads) && dispatches == old(dispatches) && copies == old(copies)
    {
      var key := PoolKey(0, w, h);
      if key !in pool {
        var val := backend.createPool(w, h);
        pool := pool[key := val];
      }
      value := pool[key];
    }

    /**
     * `Decode`: nothing when not ready; otherwise select the shader for the
     * source format and the last loaded palette format, and when that
     * succeeds take the pool texture, upload the staging area, dispatch
     * `ceil(w/8) x ceil(h/8)` groups and copy the pool texture into mip
     * `level` of the destination.  The result is always 0.
     */
    method Decode(srcFmt: bv32, w: nat, h: nat, level: nat, dstFmt: bv32) returns (r: nat)
      requires Valid()
      modifies this
      ensures Valid() && r == 0
      ensures ready == old(ready) && lutFmt == old(lutFmt)
      ensures !old(ready) ==>
        (State() == old(State()) && pool == old(pool)
         && uploads == old(uploads) && dispatches == old(dispatches) && copies == old(copies))
      ensures old(ready) ==>
        var (s, ok) := SetStatic(old(State()), backend, srcFmt, old(lutFmt), 0);
        && State() == s
        && (ok ==>
             (pool == Pooled(old(pool), backend, w, h)
              && uploads == old(uploads) + [Upload(RawData, 0, srcTempSize)]
              && dispatches == old(dispatches) + [Dispatch(GroupCount(w), GroupCount(h))]
              && copies == old(copies) + [Copy(level, pool[PoolKey(0, w, h)].rsc)]))
        && (!ok ==> (pool == old(pool) && uploads == old(uploads) && dispatches == old(dispatches) && copies == old(copies)))
    {
      if !ready {
        return 0;
      }
      var ok := SetStaticShader(srcFmt, lutFmt, 0);
      if !ok {
        return 0;
      }
      var value := PoolTexture(w, h);
      uploads := uploads + [Upload(RawData, 0, srcTempSize)];
      dispatches := dispatches + [Dispatch((w + 7) / 8, (h + 7) / 8)];
      copies := copies + [Copy(level, value.rsc)];
      return 0;
    }

    /**
     * `DecodeRGBAFromTMEM`: as `Decode` with the RGBA8-from-TMEM shader
     * (format 0xF, no palette), uploading the AR plane and then the GB
     * plane behind it, and copying the pool texture into mip 0.  The planes
     * are padded as the kernel reads them, `TmemPad`, not as written
     * (`TmemPadAsWritten`).
     */
    method DecodeRGBAFromTMEM(w: nat, h: nat) returns (r: nat)
      requires Valid()
      modifies this
      ensures Valid() && r == 0
      ensures ready == old(ready) && lutFmt == old(lutFmt)
      ensures !old(ready) ==>
        (State() == old(State()) && pool == old(pool)
         && uploads == old(uploads) && dispatches == old(dispatches) && copies == old(copies))
      ensures old(ready) ==>
        var (s, ok) := SetStatic(old(State()), backend, 0xF, 0, 0);
        && State() == s
        && (ok ==>
             (pool == Pooled(old(pool), backend, w, h)
              && uploads == old(uploads) + [Upload(RawData, 0, TmemPlane(w, h)),
                                            Upload(RawData, TmemPlane(w, h), 2 * TmemPlane(w, h))]
              && dispatches == old(dispatches) + [Dispatch(GroupCount(w), GroupCount(h))]
              && copies == old(copies) + [Copy(0, pool[PoolKey(0, w, h)].rsc)]))
        && (!ok ==> (pool == old(pool) && uploads == old(uploads) && dispatches == old(dispatches) && copies == old(copies)))
    {
      if !ready {
        return 0;
      }
      var ok := SetStaticShader(0xF, 0, 0);
      if !ok {
        return 0;
      }
      var value := PoolTexture(w, h);
      var aw := (w + 3) / 4 * 4;
      var ah := (h + 3) / 4 * 4;
      var plane := 2 * (aw * ah);
      uploads := uploads + [Upload(RawData, 0, plane), Upload(RawData, plane, 2 * plane)];
      dispatches := dispatches + [Dispatch((w + 7) / 8, (h + 7) / 8)];
      copies := copies + [Copy(0, value.rsc)];
      return 0;
    }
  }
}
