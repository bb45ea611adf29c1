/**
 * The Direct3D 9 plugin's BP-register handlers (BPFunctions.cpp): each one
 * translates fields of the graphics processor's BP registers into an
 * ordered series of render-state and sampler-state writes on the device,
 * or into one clear call.  The device keeps the last value written to
 * each state; a later write to a state overrides an earlier one.
 */
module BPFunctions {
  import opened Wrappers

  /** The widths of the BP register fields read here. */
  type Bits2 = x: nat | x < 4
  type Bits3 = x: nat | x < 8

  datatype Cull = CullNone | CullCW | CullCCW
  datatype CmpFunc = Never | Less | Equal | LessEqual | Greater | NotEqual | GreaterEqual | Always
  datatype Blend = Zero | One | SrcColor | InvSrcColor | SrcAlpha | InvSrcAlpha | DestAlpha | InvDestAlpha
                 | DestColor | InvDestColor
  datatype BlendOp = Add | Subtract
  datatype TexFilter = FilterNone | Point | Linear | Anisotropic
  datatype TexAddress = Clamp | Wrap | Mirror

  /** The render states the handlers write and the values they write. */
  datatype RenderState = CullMode | ColorWriteEnable | ZEnable | ZWriteEnable | ZFunc
                       | AlphaBlendEnable | SrcBlend | DestBlend | BlendOpState | DitherEnable
  datatype RenderValue = CullValue(cull: Cull) | Flag(on: bool) | Mask(bits: bv32) | CmpValue(cmp: CmpFunc)
                       | BlendValue(blend: Blend) | OpValue(op: BlendOp)

  /** The sampler states, addressed by stage, and their values. */
  datatype SamplerState = MinFilter | MagFilter | MipFilter | MaxAnisotropy | AddressU | AddressV
  datatype SamplerSlot = SamplerSlot(stage: nat, state: SamplerState)
  datatype SamplerValue = FilterValue(filter: TexFilter) | Level(level: int) | AddressValue(address: TexAddress)

  /** The BP register fields the handlers read. */
  datatype GenMode = GenMode(cullmode: Bits2)
  datatype BlendMode = BlendMode(blendenable: bool, colorupdate: bool, alphaupdate: bool, dither: bool,
                                 subtract: bool, srcfactor: Bits3, dstfactor: Bits3)
  datatype ZMode = ZMode(testenable: bool, func: Bits3, updateenable: bool)
  datatype TexMode0 = TexMode0(wrapS: Bits2, wrapT: Bits2, magFilter: bool, minFilter: Bits3)
  datatype FourTexUnits = FourTexUnits(texMode0: seq<TexMode0>)

  /** The user settings the sampler handler reads. */
  datatype VideoConfig = VideoConfig(forceFiltering: bool, maxAnisotropy: int)

  /** `d3dCullModes`: mode 3 (cull everything) maps to CCW, like mode 1. */
  function CullFor(mode: Bits2): Cull
  {
    [CullNone, CullCCW, CullCW, CullCCW][mode]
  }

  /** Modes 1 and 3 cull the same winding, mode 2 the other one, mode 0 none. */
  lemma CullTable(mode: Bits2)
    ensures CullFor(mode) == CullNone <==> mode == 0
    ensures CullFor(mode) == CullCW <==> mode == 2
    ensures CullFor(mode) == CullCCW <==> mode == 1 || mode == 3
  {
  }

  /** `d3dCmpFuncs`. */
  function CmpFor(func: Bits3): CmpFunc
  {
    [Never, Less, Equal, LessEqual, Greater, NotEqual, GreaterEqual, Always][func]
  }

  /** Whether a depth test with comparison `f` passes for incoming depth `a` against stored depth `b`. */
  predicate Passes(f: CmpFunc, a: int, b: int)
  {
    match f
    case Never => false
    case Less => a < b
    case Equal => a == b
    case LessEqual => a <= b
    case Greater => a > b
    case NotEqual => a != b
    case GreaterEqual => a >= b
    case Always => true
  }

  /**
   * The comparison table follows the register encoding: bit 0 of `func`
   * passes "less", bit 1 "equal" and bit 2 "greater".
   */
  lemma CmpForFollowsBits(func: Bits3, a: int, b: int)
    ensures Passes(CmpFor(func), a, b) <==>
      (a < b && func % 2 == 1) || (a == b && (func / 2) % 2 == 1) || (a > b && func / 4 == 1)
  {
  }

  /** `d3dSrcFactors` and `d3dDestFactors`. */
  function SrcFactor(i: Bits3): Blend
  {
    [Zero, One, DestColor, InvDestColor, SrcAlpha, InvSrcAlpha, DestAlpha, InvDestAlpha][i]
  }

  function DestFactor(i: Bits3): Blend
  {
    [Zero, One, SrcColor, InvSrcColor, SrcAlpha, InvSrcAlpha, DestAlpha, InvDestAlpha][i]
  }

  /**
   * The two factor tables agree except on codes 2 and 3, where each names
   * the colour of the other operand (or its inverse).
   */
  lemma FactorTablesSwapColour(i: Bits3)
    ensures i != 2 && i != 3 ==> SrcFactor(i) == DestFactor(i)
    ensures i == 2 ==> SrcFactor(i) == DestColor && DestFactor(i) == SrcColor
    ensures i == 3 ==> SrcFactor(i) == InvDestColor && DestFactor(i) == InvSrcColor
  {
  }

  /** `d3dMipFilters`: code 3 is reserved and treated as linear. */
  function MipFor(code: Bits2): TexFilter
  {
    [FilterNone, Point, Linear, Linear][code]
  }

  /** `d3dClamps`: code 3 is reserved and treated as wrap. */
  function AddressFor(code: Bits2): TexAddress
  {
    [Clamp, Wrap, Mirror, Wrap][code]
  }

  /** `D3DCOLORWRITEENABLE_RED`, `_GREEN`, `_BLUE` and `_ALPHA`. */
  const WRITE_RED: bv32 := 1
  const WRITE_GREEN: bv32 := 2
  const WRITE_BLUE: bv32 := 4
  const WRITE_ALPHA: bv32 := 8

  /**
   * The colour-write mask `SetGenerationMode` writes: nothing when every
   * primitive is culled, else alpha when alpha updates are on and the
   * three colour channels when colour updates are on.
   */
  function ColorWriteMask(cullmode: Bits2, blend: BlendMode): (w: bv32)
    ensures w & WRITE_RED != 0 <==> cullmode != 3 && blend.colorupdate
    ensures w & WRITE_GREEN != 0 <==> cullmode != 3 && blend.colorupdate
    ensures w & WRITE_BLUE != 0 <==> cullmode != 3 && blend.colorupdate
    ensures w & WRITE_ALPHA != 0 <==> cullmode != 3 && blend.alphaupdate
    ensures w & 0xFFFF_FFF0 == 0
  {
    if cullmode == 3 then 0
    else
      (if blend.alphaupdate then WRITE_ALPHA else 0)
      | (if blend.colorupdate then WRITE_RED | WRITE_GREEN | WRITE_BLUE else 0)
  }

  /** The sampler stage a BP sampler write addresses: `address & 3`, plus 4 for the second group of units. */
  function StageOf(address: bv32): (stage: nat)
    ensures stage < 8
    ensures stage >= 4 <==> address & 0xE0 == 0xA0
  {
    var s := if address & 3 == 0 then 0 else if address & 3 == 1 then 1 else if address & 3 == 2 then 2 else 3;
    if address & 0xE0 == 0xA0 then s + 4 else s
  }

  /** The register layout: two groups of four texture units. */
  predicate TexLayout(tex: seq<FourTexUnits>)
  {
    |tex| == 2 && |tex[0].texMode0| == 4 && |tex[1].texMode0| == 4
  }

  /** The texture mode a BP sampler write reads: unit `address & 3` of the group it addresses. */
  function TexModeAt(tex: seq<FourTexUnits>, address: bv32): (tm: TexMode0)
    requires TexLayout(tex)
    ensures tm == tex[StageOf(address) / 4].texMode0[StageOf(address) % 4]
  {
    var unit := if address & 0xE0 == 0xA0 then 1 else 0;
    var s := if address & 3 == 0 then 0 else if address & 3 == 1 then 1 else if address & 3 == 2 then 2 else 3;
    tex[unit].texMode0[s]
  }

  datatype Filters = Filters(min: TexFilter, mag: TexFilter, mip: TexFilter)

  /**
   * The filters `SetSamplerState` writes: anisotropic minification with
   * linear magnification and mipmapping when the anisotropy setting is
   * above 1; else all linear when filtering is forced; else as the texture
   * mode asks.
   */
  function SamplerFilters(tm: TexMode0, cfg: VideoConfig): (f: Filters)
    ensures f.min == Anisotropic <==> cfg.maxAnisotropy > 1
    ensures f.min == Linear <==> cfg.maxAnisotropy <= 1 && (cfg.forceFiltering || tm.minFilter >= 4)
    ensures f.min in {Anisotropic, Linear, Point}
    ensures f.mag == Linear <==> cfg.maxAnisotropy > 1 || cfg.forceFiltering || tm.magFilter
    ensures f.mag in {Linear, Point}
    ensures f.mip == FilterNone <==> cfg.maxAnisotropy <= 1 && !cfg.forceFiltering && tm.minFilter % 4 == 0
    ensures f.mip == Point <==> cfg.maxAnisotropy <= 1 && !cfg.forceFiltering && tm.minFilter % 4 == 1
    ensures f.mip in {FilterNone, Point, Linear}
  {
    if cfg.maxAnisotropy > 1 then Filters(Anisotropic, Linear, Linear)
    else if cfg.forceFiltering then Filters(Linear, Linear, Linear)
    else Filters(if tm.minFilter >= 4 then Linear else Point, if tm.magFilter then Linear else Point,
                 MipFor(tm.minFilter % 4))
  }

  /** `D3DCLEAR_TARGET`, `D3DCLEAR_ZBUFFER` and `D3DCLEAR_STENCIL`. */
  const CLEAR_TARGET: bv32 := 1
  const CLEAR_ZBUFFER: bv32 := 2
  const CLEAR_STENCIL: bv32 := 4

  /** The flags of a clear: the colour target when colour or alpha updates are on, depth and stencil when depth updates are. */
  function ClearFlags(blend: BlendMode, z: ZMode): (f: bv32)
    ensures f & CLEAR_TARGET != 0 <==> blend.colorupdate || blend.alphaupdate
    ensures f & CLEAR_ZBUFFER != 0 <==> z.updateenable
    ensures f & CLEAR_STENCIL != 0 <==> z.updateenable
    ensures f & 0xFFFF_FFF8 == 0
  {
    (if blend.colorupdate || blend.alphaupdate then CLEAR_TARGET else 0)
      | (if z.updateenable then CLEAR_ZBUFFER | CLEAR_STENCIL else 0)
  }

  /** The clear colour: `(AR << 16) | GB` when the colour target is cleared, else 0. */
  function ClearColor(blend: BlendMode, ar: bv32, gb: bv32): bv32
  {
    if blend.colorupdate || blend.alphaupdate then (ar << 16) | gb else 0
  }

  /** With 16-bit register halves the clear colour holds AR in its high half and GB in its low half. */
  lemma ClearColorHalves(blend: BlendMode, ar: bv32, gb: bv32)
    requires blend.colorupdate || blend.alphaupdate
    requires ar < 0x1_0000 && gb < 0x1_0000
    ensures ClearColor(blend, ar, gb) >> 16 == ar && ClearColor(blend, ar, gb) & 0xFFFF == gb
  {
  }

  /** The 24-bit clear depth scaled to `[0, 1]` (as a real: float rounding is not modelled). */
  function ScaledDepth(zValue: nat): (d: real)
    ensures 0.0 <= d <= 1.0
    ensures zValue % 0x100_0000 == 0 <==> d == 0.0
    ensures zValue % 0x100_0000 == 0xFF_FFFF <==> d == 1.0
  {
    (zValue % 0x100_0000) as real / 16777215.0
  }

  /** The clear depth: the scaled depth, clamped to `[0, 1]`, when depth updates are on; else 0. */
  function ClearDepth(z: ZMode, zValue: nat): real
  {
    if !z.updateenable then 0.0
    else
      var d := ScaledDepth(zValue);
      if d > 1.0 then 1.0 else if d < 0.0 then 0.0 else d
  }

  /** The clamps never apply: the clear depth is the scaled register value itself. */
  lemma ClearDepthIsScaled(z: ZMode, zValue: nat)
    ensures ClearDepth(z, zValue) == if z.updateenable then ScaledDepth(zValue) else 0.0
  {
  }

  /** The configuration queries and an unknown query code. */
  datatype ConfigType = IsWii | DisableFog | ShowEfbRegions | UnknownConfig(code: int)

  /** `GetConfig`: whether running a Wii game, else false; an unknown query also raises an alert. */
  function GetConfig(t: ConfigType, isWii: bool): (r: (bool, bool))
    ensures r.0 <==> t == IsWii && isWii
    ensures r.1 <==> t.UnknownConfig?
  {
    match t
    case IsWii => (isWii, false)
    case DisableFog => (false, false)
    case ShowEfbRegions => (false, false)
    case UnknownConfig(_) => (false, true)
  }

  /** One `Clear(0, NULL, flags, colour, z, 0)` call on the device. */
  datatype ClearCall = ClearCall(flags: bv32, color: bv32, z: real)

  /** The device state the handlers write. */
  class RenderDevice {
    var renderState: map<RenderState, RenderValue>
    var samplerState: map<SamplerSlot, SamplerValue>
    var clears: seq<ClearCall>
    /** Set by `VertexShaderManager::SetViewportChanged`. */
    var viewportChanged: bool

    constructor ()
      ensures renderState == map[] && samplerState == map[] && clears == [] && !viewportChanged
    {
      renderState := map[];
      samplerState := map[];
      clears := [];
      viewportChanged := false;
    }

    /** The last value written to render state `k`, if any. */
    function Get(k: RenderState): Option<RenderValue>
      reads this
    {
      if k in renderState then Some(renderState[k]) else None
    }

    /** The last value written to sampler state `slot`, if any. */
    function GetSampler(slot: SamplerSlot): Option<SamplerValue>
      reads this
    {
      if slot in samplerState then Some(samplerState[slot]) else None
    }

    /** `D3D::SetRenderState`. */
    method SetRenderState(k: RenderState, v: RenderValue)
      modifies this
      ensures renderState == old(renderState)[k := v]
      ensures samplerState == old(samplerState) && clears == old(clears) && viewportChanged == old(viewportChanged)
    {
      renderState := renderState[k := v];
    }

    /** `dev->SetSamplerState`. */
    method SetSampler(stage: nat, s: SamplerState, v: SamplerValue)
      modifies this
      ensures samplerState == old(samplerState)[SamplerSlot(stage, s) := v]
      ensures renderState == old(renderState) && clears == old(clears) && viewportChanged == old(viewportChanged)
    {
      samplerState := samplerState[SamplerSlot(stage, s) := v];
    }

    /**
     * `SetGenerationMode`: the cull mode from the table, then the
     * colour-write mask (none when every primitive is culled).
     */
    method SetGenerationMode(gen: GenMode, blend: BlendMode)
      modifies this
      ensures Get(CullMode) == Some(CullValue(CullFor(gen.cullmode)))
      ensures Get(ColorWriteEnable) == Some(Mask(ColorWriteMask(gen.cullmode, blend)))
      ensures forall k :: k != CullMode && k != ColorWriteEnable ==> Get(k) == old(Get(k))
      ensures samplerState == old(samplerState) && clears == old(clears) && viewportChanged == old(viewportChanged)
    {
      SetRenderState(CullMode, CullValue(CullFor(gen.cullmode)));
      if gen.cullmode == 3 {
        SetRenderState(ColorWriteEnable, Mask(0));
      } else {
        var write: bv32 := 0;
        if blend.alphaupdate {
          write := WRITE_ALPHA;
        }
        if blend.colorupdate {
          write := write | WRITE_RED | WRITE_GREEN | WRITE_BLUE;
        }
        SetRenderState(ColorWriteEnable, Mask(write));
      }
    }

    /**
     * `SetDepthMode`: with the depth test on, enable it, write depth as the
     * register says and compare with the table's function; with it off,
     * disable both the test and depth writes and leave the function as it was.
     */
    method SetDepthMode(z: ZMode)
      modifies this
      ensures Get(ZEnable) == Some(Flag(z.testenable))
      ensures Get(ZWriteEnable) == Some(Flag(z.testenable && z.updateenable))
      ensures Get(ZFunc) == if z.testenable then Some(CmpValue(CmpFor(z.func))) else old(Get(ZFunc))
      ensures forall k :: k != ZEnable && k != ZWriteEnable && k != ZFunc ==> Get(k) == old(Get(k))
      ensures samplerState == old(samplerState) && clears == old(clears) && viewportChanged == old(viewportChanged)
    {
      if z.testenable {
        SetRenderState(ZEnable, Flag(true));
        SetRenderState(ZWriteEnable, Flag(z.updateenable));
        SetRenderState(ZFunc, CmpValue(CmpFor(z.func)));
      } else {
        SetRenderState(ZEnable, Flag(false));
        SetRenderState(ZWriteEnable, Flag(false));
      }
    }

    /**
     * `SetBlendMode` with the register's change mask `changes`: bit 0
     * rewrites the blend enable, bits 8-10 the source factor, bits 5-7 the
     * destination factor and bit 11 the source and destination factors and
     * the blend operation.  Subtractive blending uses factors ONE/ONE.  The
     * destination factor is the same from either change group, and bit 11's
     * later write of the source factor overrides the one from bits 8-10.
     */
    method SetBlendMode(changes: bv32, blend: BlendMode)
      modifies this
      ensures Get(AlphaBlendEnable) ==
        if changes & 1 != 0 then Some(Flag(blend.blendenable)) else old(Get(AlphaBlendEnable))
      ensures Get(SrcBlend) ==
        if changes & 0x800 != 0 then Some(BlendValue(if blend.subtract then One else SrcFactor(blend.srcfactor)))
        else if changes & 0x700 != 0 then Some(BlendValue(SrcFactor(blend.srcfactor)))
        else old(Get(SrcBlend))
      ensures Get(DestBlend) ==
        if changes & 0x8E0 != 0 then Some(BlendValue(if blend.subtract then One else DestFactor(blend.dstfactor)))
        else old(Get(DestBlend))
      ensures Get(BlendOpState) ==
        if changes & 0x800 != 0 then Some(OpValue(if blend.subtract then Subtract else Add))
        else old(Get(BlendOpState))
      ensures forall k :: k !in {AlphaBlendEnable, SrcBlend, DestBlend, BlendOpState} ==> Get(k) == old(Get(k))
      ensures samplerState == old(samplerState) && clears == old(clears) && viewportChanged == old(viewportChanged)
    {
      WriteGroupFactors(changes, blend);
      WriteCombinedGroup(changes, blend);
      assert changes & 0x8E0 != 0 <==> changes & 0xE0 != 0 || changes & 0x800 != 0;
    }

    /** The first part of `SetBlendMode`: the enable bit and the separate source and destination groups. */
    method WriteGroupFactors(changes: bv32, blend: BlendMode)
      modifies this
      ensures Get(AlphaBlendEnable) ==
        if changes & 1 != 0 then Some(Flag(blend.blendenable)) else old(Get(AlphaBlendEnable))
      ensures Get(SrcBlend) ==
        if changes & 0x700 != 0 then Some(BlendValue(SrcFactor(blend.srcfactor))) else old(Get(SrcBlend))
      ensures Get(DestBlend) ==
        if changes & 0xE0 != 0 then Some(BlendValue(if blend.subtract then One else DestFactor(blend.dstfactor)))
        else old(Get(DestBlend))
      ensures forall k :: k !in {AlphaBlendEnable, SrcBlend, DestBlend} ==> Get(k) == old(Get(k))
      ensures samplerState == old(samplerState) && clears == old(clears) && viewportChanged == old(viewportChanged)
    {
      if changes & 1 != 0 {
        SetRenderState(AlphaBlendEnable, Flag(blend.blendenable));
      }
      var src := SrcFactor(blend.srcfactor);
      var dst := DestFactor(blend.dstfactor);
      if changes & 0x700 != 0 {
        SetRenderState(SrcBlend, BlendValue(src));
      }
      if changes & 0xE0 != 0 {
        if !blend.subtract {
          SetRenderState(DestBlend, BlendValue(dst));
        } else {
          SetRenderState(DestBlend, BlendValue(One));
        }
      }
    }

    /** The second part of `SetBlendMode`: bit 11 rewrites both factors and the blend operation. */
    method WriteCombinedGroup(changes: bv32, blend: BlendMode)
      modifies this
      ensures Get(SrcBlend) ==
        if changes & 0x800 != 0 then Some(BlendValue(if blend.subtract then One else SrcFactor(blend.srcfactor)))
        else old(Get(SrcBlend))
      ensures Get(DestBlend) ==
        if changes & 0x800 != 0 then Some(BlendValue(if blend.subtract then One else DestFactor(blend.dstfactor)))
        else old(Get(DestBlend))
      ensures Get(BlendOpState) ==
        if changes & 0x800 != 0 then Some(OpValue(if blend.subtract then Subtract else Add))
        else old(Get(BlendOpState))
      ensures forall k :: k !in {SrcBlend, DestBlend, BlendOpState} ==> Get(k) == old(Get(k))
      ensures samplerState == old(samplerState) && clears == old(clears) && viewportChanged == old(viewportChanged)
    {
      var src := SrcFactor(blend.srcfactor);
      var dst := DestFactor(blend.dstfactor);
      if changes & 0x800 != 0 {
        if blend.subtract {
          SetRenderState(SrcBlend, BlendValue(One));
          SetRenderState(DestBlend, BlendValue(One));
        } else {
          SetRenderState(SrcBlend, BlendValue(src));
          SetRenderState(DestBlend, BlendValue(dst));
        }
        SetRenderState(BlendOpState, OpValue(if blend.subtract then Subtract else Add));
      }
    }

    /** `SetDitherMode`: dithering as the register says. */
    method SetDitherMode(blend: BlendMode)
      modifies this
      ensures Get(DitherEnable) == Some(Flag(blend.dither))
      ensures forall k :: k != DitherEnable ==> Get(k) == old(Get(k))
      ensures samplerState == old(samplerState) && clears == old(clears) && viewportChanged == old(viewportChanged)
    {
      SetRenderState(DitherEnable, Flag(blend.dither));
    }

    /**
     * `SetSamplerState`: for the stage the register address names, the
     * three filters, the anisotropy setting and the two address modes of
     * that unit's texture mode; no other stage changes.
     */
    method SetSamplerState(address: bv32, tex: seq<FourTexUnits>, cfg: VideoConfig)
      requires TexLayout(tex)
      modifies this
      ensures var s, f := StageOf(address), SamplerFilters(TexModeAt(tex, address), cfg);
        && GetSampler(SamplerSlot(s, MinFilter)) == Some(FilterValue(f.min))
        && GetSampler(SamplerSlot(s, MagFilter)) == Some(FilterValue(f.mag))
        && GetSampler(SamplerSlot(s, MipFilter)) == Some(FilterValue(f.mip))
        && GetSampler(SamplerSlot(s, MaxAnisotropy)) == Some(Level(cfg.maxAnisotropy))
        && GetSampler(SamplerSlot(s, AddressU)) == Some(AddressValue(AddressFor(TexModeAt(tex, address).wrapS)))
        && GetSampler(SamplerSlot(s, AddressV)) == Some(AddressValue(AddressFor(TexModeAt(tex, address).wrapT)))
      ensures forall slot: SamplerSlot :: slot.stage != StageOf(address) ==> GetSampler(slot) == old(GetSampler(slot))
      ensures renderState == old(renderState) && clears == old(clears) && viewportChanged == old(viewportChanged)
    {
      var unit := if address & 0xE0 == 0xA0 then 1 else 0;
      var stage: nat := if address & 3 == 0 then 0 else if address & 3 == 1 then 1 else if address & 3 == 2 then 2 else 3;
      var tm0 := tex[unit].texMode0[stage];
      var min, mag, mip;
      if cfg.forceFiltering {
        min, mag, mip := Linear, Linear, Linear;
      } else {
        min := if tm0.minFilter >= 4 then Linear else Point;
        mag := if tm0.magFilter then Linear else Point;
        mip := MipFor(tm0.minFilter % 4);
      }
      if address & 0xE0 == 0xA0 {
        stage := stage + 4;
      }
      if cfg.maxAnisotropy > 1 {
        mag := Linear;
        min := Anisotropic;
        mip := Linear;
      }
      assert stage == StageOf(address) && tm0 == TexModeAt(tex, address);
      assert Filters(min, mag, mip) == SamplerFilters(tm0, cfg);
      WriteStage(stage, Filters(min, mag, mip), cfg.maxAnisotropy, AddressFor(tm0.wrapS), AddressFor(tm0.wrapT));
    }

    /** The six sampler-state writes of `SetSamplerState`, in order, all on one stage. */
    method WriteStage(stage: nat, f: Filters, level: int, u: TexAddress, v: TexAddress)
      modifies this
      ensures GetSampler(SamplerSlot(stage, MinFilter)) == Some(FilterValue(f.min))
      ensures GetSampler(SamplerSlot(stage, MagFilter)) == Some(FilterValue(f.mag))
      ensures GetSampler(SamplerSlot(stage, MipFilter)) == Some(FilterValue(f.mip))
      ensures GetSampler(SamplerSlot(stage, MaxAnisotropy)) == Some(Level(level))
      ensures GetSampler(SamplerSlot(stage, AddressU)) == Some(AddressValue(u))
      ensures GetSampler(SamplerSlot(stage, AddressV)) == Some(AddressValue(v))
      ensures forall slot: SamplerSlot :: slot.stage != stage ==> GetSampler(slot) == old(GetSampler(slot))
      ensures renderState == old(renderState) && clears == old(clears) && viewportChanged == old(viewportChanged)
    {
      SetSampler(stage, MinFilter, FilterValue(f.min));
      SetSampler(stage, MagFilter, FilterValue(f.mag));
      SetSampler(stage, MipFilter, FilterValue(f.mip));
      SetSampler(stage, MaxAnisotropy, Level(level));
      SetSampler(stage, AddressU, AddressValue(u));
      SetSampler(stage, AddressV, AddressValue(v));
    }

    /**
     * `ClearScreen`: marks the viewport changed and issues one clear of the
     * colour target and/or depth and stencil, with the register's colour
     * and its depth scaled to `[0, 1]`.
     */
    method ClearScreen(blend: BlendMode, z: ZMode, clearAR: bv32, clearGB: bv32, clearZValue: nat)
      modifies this
      ensures viewportChanged
      ensures clears == old(clears) + [ClearCall(ClearFlags(blend, z), ClearColor(blend, clearAR, clearGB),
                                                 ClearDepth(z, clearZValue))]
      ensures renderState == old(renderState) && samplerState == old(samplerState)
    {
      viewportChanged := true;
      var clearflags: bv32 := 0;
      var col: bv32 := 0;
      var clearZ: real := 0.0;
      if blend.colorupdate || blend.alphaupdate {
        col := (clearAR << 16) | clearGB;
        clearflags := clearflags | CLEAR_TARGET;
      }
      if z.updateenable {
        clearZ := ScaledDepth(clearZValue);
        if clearZ > 1.0 {
          clearZ := 1.0;
        }
        if clearZ < 0.0 {
          clearZ := 0.0;
        }
        clearflags := clearflags | CLEAR_ZBUFFER | CLEAR_STENCIL;
      }
      clears := clears + [ClearCall(clearflags, col, clearZ)];
    }
  }
}
