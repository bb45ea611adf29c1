/**
 * Shader helpers of the D3D11 backend (D3DShader.cpp): compiling HLSL text
 * to bytecode, creating shader objects from bytecode, and building the
 * texture-slot mask of a pixel shader from its reflection data.  The HLSL
 * compiler, the device and the reflection interface are oracles: their
 * answers are inputs to the functions below.
 */
module D3DShader {
  import opened Wrappers
  import opened D3DPtr

  /** Compiled shader bytecode, as stored in a `D3DBlob`. */
  type Bytecode = seq<bv8>

  /** What `PD3DCompile` produced: bytecode on success, nothing usable on failure. */
  datatype CompilerOutput = Compiled(code: Bytecode) | Failed

  /** The boolean result of `Compile*Shader` and the blob it leaves in its out-parameter. */
  datatype CompileResult = CompileResult(ok: bool, blob: Option<Bytecode>)

  /**
   * `CompileVertexShader`, `CompileGeometryShader`, `CompilePixelShader` and
   * `CompileComputeShader` share one contract: a failed compile nulls the
   * blob and reports false, a successful one hands over the compiler's
   * bytecode and reports true.
   */
  function CompileShader(out: CompilerOutput): (r: CompileResult)
    ensures r.ok <==> out.Compiled?
    ensures r.blob.Some? <==> r.ok
    ensures r.ok ==> r.blob.value == out.code
  {
    if out.Compiled? then CompileResult(true, Some(out.code)) else CompileResult(false, None)
  }

  /** A device `Create*Shader` call: its HRESULT and what it wrote through `ToAddr`. */
  datatype DeviceResult = DeviceResult(succeeded: bool, written: Ptr)

  /**
   * `CreateVertexShaderFromByteCode` and `CreateGeometryShaderFromByteCode`:
   * a failed creation yields null whatever the device wrote.
   */
  function CreateCheckedFromByteCode(d: DeviceResult): (r: Ptr)
    ensures r.Obj? ==> d.succeeded
    ensures d.succeeded ==> r == d.written
  {
    if !d.succeeded then Null else d.written
  }

  /**
   * The reference-count calls the checked creation makes itself: on a
   * failed creation its local owner goes out of scope and releases whatever
   * the device wrote through `ToAddr`.
   */
  function CheckedCreateReleases(d: DeviceResult): (es: seq<RefEvent>)
    ensures es == [] || es == [Release(d.written)]
    ensures es != [] <==> !d.succeeded && d.written.Obj?
  {
    if d.succeeded then [] else ReleaseOf(d.written)
  }

  /**
   * The checked creation owns what the device writes: a written pointer is
   * either handed to the caller or released exactly once, never both.
   */
  lemma CheckedCreateOwnsWritten(d: DeviceResult)
    requires d.written.Obj?
    ensures ReleaseCount(CheckedCreateReleases(d), d.written) <= 1
    ensures CreateCheckedFromByteCode(d) == d.written <==> ReleaseCount(CheckedCreateReleases(d), d.written) == 0
  {
    var es := CheckedCreateReleases(d);
    if es != [] {
      assert es[..0] == [];
    }
  }

  /**
   * `CreatePixelShaderFromByteCode` only raises an alert on failure and
   * returns whatever pointer the device left behind.
   */
  function CreatePixelShaderFromByteCode(d: DeviceResult): (r: Ptr)
    ensures r == d.written
  {
    d.written
  }

  /**
   * The pixel path and the checked path agree except on a failed creation
   * that left a pointer behind: the checked path yields null there, while
   * the pixel path hands that pointer to its caller as a shader.
   */
  lemma PixelCreateIsUnchecked(d: DeviceResult)
    ensures CreatePixelShaderFromByteCode(d) == CreateCheckedFromByteCode(d) <==> d.succeeded || d.written.Null?
    ensures !d.succeeded && d.written.Obj? ==>
      CreatePixelShaderFromByteCode(d).Obj? && CreateCheckedFromByteCode(d).Null?
  {
  }

  /**
   * `CompileAndCreateVertexShader`, `...GeometryShader`, `...PixelShader`:
   * compile, and create from the bytecode only when the compile succeeded.
   */
  function CompileAndCreate(out: CompilerOutput, create: Bytecode -> Ptr): (r: Ptr)
    ensures out.Failed? ==> r == Null
    ensures out.Compiled? ==> r == create(out.code)
  {
    var compiled := CompileShader(out);
    if compiled.ok then create(compiled.blob.value) else Null
  }

  /** The kind of a bound shader resource (`D3D_SHADER_INPUT_TYPE`). */
  datatype ResourceType = CBuffer | TBuffer | Texture | Sampler | OtherResource

  /** `D3D11_SHADER_INPUT_BIND_DESC`, reduced to what the mask reads. */
  datatype BindDesc = BindDesc(kind: ResourceType, bindPoint: nat)

  /** The reflection interface's bound resources, or nothing when reflection failed. */
  type Reflection = Option<seq<BindDesc>>

  /** `1 << idesc.BindPoint` is defined only for bind points below 32. */
  predicate BindPointsFit(bs: seq<BindDesc>)
  {
    forall i :: 0 <= i < |bs| && bs[i].kind == Texture ==> bs[i].bindPoint < 32
  }

  predicate ReflectionFits(r: Reflection)
  {
    r.Some? ==> BindPointsFit(r.value)
  }

  function Bit(b: nat): bv32
    requires b < 32
  {
    (1 as bv32) << b
  }

  /** What one bound resource adds to the mask. */
  function Contribution(d: BindDesc): bv32
    requires d.kind == Texture ==> d.bindPoint < 32
  {
    if d.kind == Texture then Bit(d.bindPoint) else 0
  }

  /** The mask accumulated over the resources in order. */
  function MaskOf(bs: seq<BindDesc>): bv32
    requires BindPointsFit(bs)
  {
    if |bs| == 0 then 0 else MaskOf(bs[..|bs| - 1]) | Contribution(bs[|bs| - 1])
  }

  /** The value `ReflectTextureMask` returns: all ones when reflection yields nothing. */
  function TextureMask(r: Reflection): bv32
    requires ReflectionFits(r)
  {
    if r.None? then 0xFFFF_FFFF else MaskOf(r.value)
  }

  lemma BitOfContribution(d: BindDesc, b: nat)
    requires d.kind == Texture ==> d.bindPoint < 32
    requires b < 32
    ensures Contribution(d) & Bit(b) != 0 <==> d.kind == Texture && d.bindPoint == b
  {
    if d.kind == Texture {
      BitsDistinct(d.bindPoint, b);
    }
  }

  /** Two single-bit masks overlap iff they are the same bit. */
  lemma BitsDistinct(p: nat, b: nat)
    requires p < 32 && b < 32
    ensures Bit(p) & Bit(b) != 0 <==> p == b
  {
    BitAsShift(p);
    BitAsShift(b);
    ShiftsDistinct(p as bv32, b as bv32);
  }

  lemma BitAsShift(b: nat)
    requires b < 32
    ensures Bit(b) == (1 as bv32) << (b as bv32)
  {
  }

  lemma ShiftsDistinct(p: bv32, b: bv32)
    requires p < 32 && b < 32
    ensures ((1 as bv32) << p) & ((1 as bv32) << b) != 0 <==> p == b
  {
  }

  /** Some TEXTURE resource among `bs` is bound at slot `b`. */
  predicate TextureAt(bs: seq<BindDesc>, b: nat)
  {
    exists i :: 0 <= i < |bs| && bs[i].kind == Texture && bs[i].bindPoint == b
  }

  /** Bit `b` of the mask is set iff some TEXTURE resource is bound at slot `b`. */
  lemma {:induction false} MaskOfBits(bs: seq<BindDesc>, b: nat)
    requires BindPointsFit(bs) && b < 32
    ensures MaskOf(bs) & Bit(b) != 0 <==> TextureAt(bs, b)
  {
    if |bs| > 0 {
      var init := bs[..|bs| - 1];
      InitFits(bs);
      var last := bs[|bs| - 1];
      MaskOfBits(init, b);
      BitOfContribution(last, b);
      OrStep(MaskOf(bs), MaskOf(init), Contribution(last), Bit(b), last.kind == Texture && last.bindPoint == b);
      TextureAtSplit(bs, b);
    }
  }

  /** The resources before the last one fit as well. */
  lemma InitFits(bs: seq<BindDesc>)
    requires BindPointsFit(bs) && |bs| > 0
    ensures BindPointsFit(bs[..|bs| - 1])
  {
    var init := bs[..|bs| - 1];
    forall i | 0 <= i < |init| && init[i].kind == Texture
      ensures init[i].bindPoint < 32
    {
      assert init[i] == bs[i];
    }
  }

  /** A TEXTURE at `b` is among the first resources or is the last one. */
  lemma TextureAtSplit(bs: seq<BindDesc>, b: nat)
    requires |bs| > 0
    ensures TextureAt(bs, b) <==>
      TextureAt(bs[..|bs| - 1], b) || (bs[|bs| - 1].kind == Texture && bs[|bs| - 1].bindPoint == b)
  {
    var init := bs[..|bs| - 1];
    if TextureAt(bs, b) {
      var i :| 0 <= i < |bs| && bs[i].kind == Texture && bs[i].bindPoint == b;
      if i < |init| {
        assert init[i] == bs[i];
      }
    }
    if TextureAt(init, b) {
      var i :| 0 <= i < |init| && init[i].kind == Texture && init[i].bindPoint == b;
      assert bs[i] == init[i];
    }
  }

  /** A bit of `m | c` is set iff it is set in `m` or `c` sets it. */
  lemma OrStep(x: bv32, m: bv32, c: bv32, bit: bv32, hit: bool)
    requires x == m | c && (c & bit != 0 <==> hit)
    ensures x & bit != 0 <==> m & bit != 0 || hit
  {
    OrHasBit(m, c, bit);
  }

  /** A bit is set in an OR iff it is set in one of the operands. */
  lemma OrHasBit(x: bv32, y: bv32, bit: bv32)
    ensures (x | y) & bit != 0 <==> x & bit != 0 || y & bit != 0
  {
  }

  /** Resources that are not textures never set a bit; no resources give mask 0. */
  lemma {:induction false} NonTexturesContributeNothing(bs: seq<BindDesc>)
    requires forall i :: 0 <= i < |bs| ==> bs[i].kind != Texture
    ensures BindPointsFit(bs) && MaskOf(bs) == 0
  {
    if |bs| > 0 {
      NonTexturesContributeNothing(bs[..|bs| - 1]);
    }
  }

  /** The mask of one more resource ORs in that resource's contribution. */
  lemma MaskOfPrefix(bs: seq<BindDesc>, i: nat)
    requires BindPointsFit(bs) && i < |bs|
    ensures BindPointsFit(bs[..i]) && BindPointsFit(bs[..i + 1])
    ensures MaskOf(bs[..i + 1]) == MaskOf(bs[..i]) | Contribution(bs[i])
  {
    assert bs[..i + 1][..i] == bs[..i];
    PrefixFits(bs, i);
    PrefixFits(bs, i + 1);
  }

  lemma PrefixFits(bs: seq<BindDesc>, n: nat)
    requires BindPointsFit(bs) && n <= |bs|
    ensures BindPointsFit(bs[..n])
  {
    forall j | 0 <= j < n && bs[..n][j].kind == Texture
      ensures bs[..n][j].bindPoint < 32
    {
      assert bs[..n][j] == bs[j];
    }
  }

  /** `ReflectTextureMask`: the loop over the bound resources. */
  method ReflectTextureMask(reflection: Reflection) returns (mask: bv32)
    requires ReflectionFits(reflection)
    ensures mask == TextureMask(reflection)
  {
    if reflection.None? {
      return 0xFFFF_FFFF;
    }
    var resources := reflection.value;
    mask := 0;
    var i := 0;
    while i != |resources|
      invariant 0 <= i <= |resources|
      invariant BindPointsFit(resources[..i])
      invariant mask == MaskOf(resources[..i])
    {
      MaskOfPrefix(resources, i);
      if resources[i].kind == Texture {
        mask := mask | Bit(resources[i].bindPoint);
      }
      i := i + 1;
    }
    assert resources[..i] == resources;
  }
}
