/**
 * The input layout of the D3D11 backend (NativeVertexFormat.cpp): the
 * translation of a vertex attribute's component type and count into a
 * DXGI format, the element array built from a portable vertex declaration
 * in a fixed attribute order, the comparison of two formats, and the input
 * layout created lazily on first use.
 */
module NativeVertexFormat {
  import opened D3DPtr
  import opened D3DShader

  /** `VarType`: the component type of a vertex attribute, in enum order. */
  datatype VarType = UByte | Byte | UShort | Short | Float

  /** The enum value of a `VarType`. */
  function Ord(t: VarType): nat
  {
    match t
    case UByte => 0
    case Byte => 1
    case UShort => 2
    case Short => 3
    case Float => 4
  }

  /** The DXGI formats `d3d_format_lookup` holds. */
  datatype DxgiFormat =
    | Unknown
    | R8Unorm | R8Snorm | R16Unorm | R16Snorm | R32Float
    | R8G8Unorm | R8G8Snorm | R16G16Unorm | R16G16Snorm | R32G32Float
    | R32G32B32Float
    | R8G8B8A8Unorm | R8G8B8A8Snorm | R16G16B16A16Unorm | R16G16B16A16Snorm | R32G32B32A32Float
    | R8Uint | R8Sint | R16Uint | R16Sint
    | R8G8Uint | R8G8Sint | R16G16Uint | R16G16Sint
    | R8G8B8A8Uint | R8G8B8A8Sint | R16G16B16A16Uint | R16G16B16A16Sint

  /** `d3d_format_lookup`: 5 types by 4 sizes, first read as floats, then as integers. */
  const FormatTable: seq<DxgiFormat> := [
    R8Unorm, R8Snorm, R16Unorm, R16Snorm, R32Float,
    R8G8Unorm, R8G8Snorm, R16G16Unorm, R16G16Snorm, R32G32Float,
    Unknown, Unknown, Unknown, Unknown, R32G32B32Float,
    R8G8B8A8Unorm, R8G8B8A8Snorm, R16G16B16A16Unorm, R16G16B16A16Snorm, R32G32B32A32Float,

    R8Uint, R8Sint, R16Uint, R16Sint, Unknown,
    R8G8Uint, R8G8Sint, R16G16Uint, R16G16Sint, Unknown,
    Unknown, Unknown, Unknown, Unknown, Unknown,
    R8G8B8A8Uint, R8G8B8A8Sint, R16G16B16A16Uint, R16G16B16A16Sint, Unknown
  ]

  /** The slot `VarToD3D` reads: `t + 5*(size-1) + 5*4*integer`, inside the 40-entry table. */
  function TableIndex(t: VarType, size: nat, integer: bool): (i: nat)
    requires 1 <= size <= 4
    ensures i < |FormatTable|
  {
    Ord(t) + 5 * (size - 1) + 20 * (if integer then 1 else 0)
  }

  /**
   * `VarToD3D`: the table entry; `Unknown` (after an alert, which is not
   * modelled) for the combinations D3D cannot read.
   */
  function VarToD3D(t: VarType, size: nat, integer: bool): DxgiFormat
    requires 1 <= size <= 4
  {
    FormatTable[TableIndex(t, size, integer)]
  }

  /** The number of channels a format has; none for `Unknown`. */
  function Channels(f: DxgiFormat): nat
  {
    match f
    case Unknown => 0
    case R8Unorm | R8Snorm | R16Unorm | R16Snorm | R32Float
       | R8Uint | R8Sint | R16Uint | R16Sint => 1
    case R8G8Unorm | R8G8Snorm | R16G16Unorm | R16G16Snorm | R32G32Float
       | R8G8Uint | R8G8Sint | R16G16Uint | R16G16Sint => 2
    case R32G32B32Float => 3
    case _ => 4
  }

  /** The component type a format reads, and whether it reads integers rather than floats. */
  function Encoding(f: DxgiFormat): (VarType, bool)
  {
    match f
    case R8Unorm | R8G8Unorm | R8G8B8A8Unorm => (UByte, false)
    case R8Snorm | R8G8Snorm | R8G8B8A8Snorm => (Byte, false)
    case R16Unorm | R16G16Unorm | R16G16B16A16Unorm => (UShort, false)
    case R16Snorm | R16G16Snorm | R16G16B16A16Snorm => (Short, false)
    case R8Uint | R8G8Uint | R8G8B8A8Uint => (UByte, true)
    case R8Sint | R8G8Sint | R8G8B8A8Sint => (Byte, true)
    case R16Uint | R16G16Uint | R16G16B16A16Uint => (UShort, true)
    case R16Sint | R16G16Sint | R16G16B16A16Sint => (Short, true)
    case _ => (Float, false)
  }

  /** The combinations no DXGI format reads: three 8/16-bit components, and integer floats. */
  predicate Unsupported(t: VarType, size: nat, integer: bool)
  {
    (size == 3 && (integer || t != Float)) || (integer && t == Float)
  }

  /**
   * The table is right: `VarToD3D` is `Unknown` exactly on the unsupported
   * combinations, and otherwise names a format with `size` channels of the
   * requested type and interpretation.
   */
  lemma {:induction false} VarToD3DReadsTheRequestedComponents(t: VarType, size: nat, integer: bool)
    requires 1 <= size <= 4
    ensures VarToD3D(t, size, integer) == Unknown <==> Unsupported(t, size, integer)
    ensures VarToD3D(t, size, integer) != Unknown ==>
      Channels(VarToD3D(t, size, integer)) == size && Encoding(VarToD3D(t, size, integer)) == (t, integer)
  {
    if size == 1 {
      RowOne(t, integer);
    } else if size == 2 {
      RowTwo(t, integer);
    } else if size == 3 {
      RowThree(t, integer);
    } else {
      RowFour(t, integer);
    }
  }

  /** The table row of 1-component attributes. */
  lemma RowOne(t: VarType, integer: bool)
    ensures VarToD3D(t, 1, integer) == Unknown <==> Unsupported(t, 1, integer)
    ensures VarToD3D(t, 1, integer) != Unknown ==>
      Channels(VarToD3D(t, 1, integer)) == 1 && Encoding(VarToD3D(t, 1, integer)) == (t, integer)
  {
    if integer {
      IntegerRowOne(t);
    } else {
      FloatRowOne(t);
    }
  }

  /** The normalized or float entries of that row. */
  lemma {:induction false} FloatRowOne(t: VarType)
    ensures VarToD3D(t, 1, false) == Unknown <==> Unsupported(t, 1, false)
    ensures VarToD3D(t, 1, false) != Unknown ==>
      Channels(VarToD3D(t, 1, false)) == 1 && Encoding(VarToD3D(t, 1, false)) == (t, false)
  {
    match t
    case UByte =>
    case Byte =>
    case UShort =>
    case Short =>
    case Float =>
  }

  /** The integer entries of that row. */
  lemma {:induction false} IntegerRowOne(t: VarType)
    ensures VarToD3D(t, 1, true) == Unknown <==> Unsupported(t, 1, true)
    ensures VarToD3D(t, 1, true) != Unknown ==>
      Channels(VarToD3D(t, 1, true)) == 1 && Encoding(VarToD3D(t, 1, true)) == (t, true)
  {
    match t
    case UByte =>
    case Byte =>
    case UShort =>
    case Short =>
    case Float =>
  }

  /** The table row of 2-component attributes. */
  lemma RowTwo(t: VarType, integer: bool)
    ensures VarToD3D(t, 2, integer) == Unknown <==> Unsupported(t, 2, integer)
    ensures VarToD3D(t, 2, integer) != Unknown ==>
      Channels(VarToD3D(t, 2, integer)) == 2 && Encoding(VarToD3D(t, 2, integer)) == (t, integer)
  {
    if integer {
      IntegerRowTwo(t);
    } else {
      FloatRowTwo(t);
    }
  }

  /** The normalized or float entries of that row. */
  lemma {:induction false} FloatRowTwo(t: VarType)
    ensures VarToD3D(t, 2, false) == Unknown <==> Unsupported(t, 2, false)
    ensures VarToD3D(t, 2, false) != Unknown ==>
      Channels(VarToD3D(t, 2, false)) == 2 && Encoding(VarToD3D(t, 2, false)) == (t, false)
  {
    match t
    case UByte =>
    case Byte =>
    case UShort =>
    case Short =>
    case Float =>
  }

  /** The integer entries of that row. */
  lemma {:induction false} IntegerRowTwo(t: VarType)
    ensures VarToD3D(t, 2, true) == Unknown <==> Unsupported(t, 2, true)
    ensures VarToD3D(t, 2, true) != Unknown ==>
      Channels(VarToD3D(t, 2, true)) == 2 && Encoding(VarToD3D(t, 2, true)) == (t, true)
  {
    match t
    case UByte =>
    case Byte =>
    case UShort =>
    case Short =>
    case Float =>
  }

  /** The table row of 3-component attributes. */
  lemma RowThree(t: VarType, integer: bool)
    ensures VarToD3D(t, 3, integer) == Unknown <==> Unsupported(t, 3, integer)
    ensures VarToD3D(t, 3, integer) != Unknown ==>
      Channels(VarToD3D(t, 3, integer)) == 3 && Encoding(VarToD3D(t, 3, integer)) == (t, integer)
  {
    if integer {
      IntegerRowThree(t);
    } else {
      FloatRowThree(t);
    }
  }

  /** The normalized or float entries of that row. */
  lemma {:induction false} FloatRowThree(t: VarType)
    ensures VarToD3D(t, 3, false) == Unknown <==> Unsupported(t, 3, false)
    ensures VarToD3D(t, 3, false) != Unknown ==>
      Channels(VarToD3D(t, 3, false)) == 3 && Encoding(VarToD3D(t, 3, false)) == (t, false)
  {
    match t
    case UByte =>
    case Byte =>
    case UShort =>
    case Short =>
    case Float =>
  }

  /** The integer entries of that row: there are none. */
  lemma {:induction false} IntegerRowThree(t: VarType)
    ensures VarToD3D(t, 3, true) == Unknown && Unsupported(t, 3, true)
  {
    match t
    case UByte =>
    case Byte =>
    case UShort =>
    case Short =>
    case Float =>
  }

  /** The table row of 4-component attributes. */
  lemma RowFour(t: VarType, integer: bool)
    ensures VarToD3D(t, 4, integer) == Unknown <==> Unsupported(t, 4, integer)
    ensures VarToD3D(t, 4, integer) != Unknown ==>
      Channels(VarToD3D(t, 4, integer)) == 4 && Encoding(VarToD3D(t, 4, integer)) == (t, integer)
  {
    if integer {
      IntegerRowFour(t);
    } else {
      FloatRowFour(t);
    }
  }

  /** The normalized or float entries of that row. */
  lemma {:induction false} FloatRowFour(t: VarType)
    ensures VarToD3D(t, 4, false) == Unknown <==> Unsupported(t, 4, false)
    ensures VarToD3D(t, 4, false) != Unknown ==>
      Channels(VarToD3D(t, 4, false)) == 4 && Encoding(VarToD3D(t, 4, false)) == (t, false)
  {
    match t
    case UByte =>
    case Byte =>
    case UShort =>
    case Short =>
    case Float =>
  }

  /** The integer entries of that row. */
  lemma {:induction false} IntegerRowFour(t: VarType)
    ensures VarToD3D(t, 4, true) == Unknown <==> Unsupported(t, 4, true)
    ensures VarToD3D(t, 4, true) != Unknown ==>
      Channels(VarToD3D(t, 4, true)) == 4 && Encoding(VarToD3D(t, 4, true)) == (t, true)
  {
    match t
    case UByte =>
    case Byte =>
    case UShort =>
    case Short =>
    case Float =>
  }

  /** No two supported combinations share a format. */
  lemma {:induction false} VarToD3DInjective(t1: VarType, size1: nat, integer1: bool, t2: VarType, size2: nat, integer2: bool)
    requires 1 <= size1 <= 4 && 1 <= size2 <= 4
    requires VarToD3D(t1, size1, integer1) == VarToD3D(t2, size2, integer2) != Unknown
    ensures t1 == t2 && size1 == size2 && integer1 == integer2
  {
    VarToD3DReadsTheRequestedComponents(t1, size1, integer1);
    VarToD3DReadsTheRequestedComponents(t2, size2, integer2);
  }

  /** `AttributeFormat`: one attribute of the portable declaration. */
  datatype AttributeFormat = AttributeFormat(typ: VarType, components: nat, offset: nat, enable: bool, integer: bool)

  /** `PortableVertexDeclaration`: the stride and the 15 attributes. */
  datatype Declaration = Declaration(
    stride: nat,
    position: AttributeFormat,
    normals: seq<AttributeFormat>,
    colors: seq<AttributeFormat>,
    texcoords: seq<AttributeFormat>,
    posmtx: AttributeFormat)

  /** `SemanticName`: null (as `memset` leaves it) or one of the five names. */
  datatype SemanticName = NoName | Position | Normal | Color | Texcoord | BlendIndices

  /**
   * `D3D11_INPUT_ELEMENT_DESC` as `Initialize` fills it; the input slot and
   * the slot class are zero in every element, as `memset` leaves them and as
   * `D3D11_INPUT_PER_VERTEX_DATA` is.
   */
  datatype ElementDesc = ElementDesc(name: SemanticName, index: nat, format: DxgiFormat, offset: nat)

  /** An element as `memset` leaves it. */
  const Zero: ElementDesc := ElementDesc(NoName, 0, Unknown, 0)

  /** An attribute of the declaration with the semantic it is given. */
  datatype Attribute = Attribute(name: SemanticName, index: nat, format: AttributeFormat)

  /** The shape of a declaration: three normals, two colours, eight texture coordinates. */
  predicate Shaped(d: Declaration)
  {
    |d.normals| == 3 && |d.colors| == 2 && |d.texcoords| == 8
  }

  /** `name` with semantic indices 0, 1, ... over `fs`. */
  function Indexed(name: SemanticName, fs: seq<AttributeFormat>): (r: seq<Attribute>)
    ensures |r| == |fs| && forall i :: 0 <= i < |fs| ==> r[i] == Attribute(name, i, fs[i])
  {
    seq(|fs|, i requires 0 <= i < |fs| => Attribute(name, i, fs[i]))
  }

  /** The 15 attributes in the order `Initialize` visits them. */
  function Attributes(d: Declaration): (r: seq<Attribute>)
    requires Shaped(d)
    ensures |r| == 15
  {
    [Attribute(Position, 0, d.position)] + Indexed(Normal, d.normals) + Indexed(Color, d.colors)
      + Indexed(Texcoord, d.texcoords) + [Attribute(BlendIndices, 0, d.posmtx)]
  }

  /** Where each group of attributes sits among the 15. */
  lemma AttributesAt(d: Declaration)
    requires Shaped(d)
    ensures var attrs := Attributes(d);
      && attrs[0] == Attribute(Position, 0, d.position)
      && (forall i :: 0 <= i < 3 ==> attrs[1 + i] == Attribute(Normal, i, d.normals[i]))
      && (forall i :: 0 <= i < 2 ==> attrs[4 + i] == Attribute(Color, i, d.colors[i]))
      && (forall i :: 0 <= i < 8 ==> attrs[6 + i] == Attribute(Texcoord, i, d.texcoords[i]))
      && attrs[14] == Attribute(BlendIndices, 0, d.posmtx)
  {
    var attrs := Attributes(d);
    var normals, colors, texcoords := Indexed(Normal, d.normals), Indexed(Color, d.colors), Indexed(Texcoord, d.texcoords);
    assert attrs == [Attribute(Position, 0, d.position)] + normals + colors + texcoords + [Attribute(BlendIndices, 0, d.posmtx)];
    forall i | 0 <= i < 3 ensures attrs[1 + i] == Attribute(Normal, i, d.normals[i]) {
      assert attrs[1 + i] == normals[i];
    }
    forall i | 0 <= i < 2 ensures attrs[4 + i] == Attribute(Color, i, d.colors[i]) {
      assert attrs[4 + i] == colors[i];
    }
    forall i | 0 <= i < 8 ensures attrs[6 + i] == Attribute(Texcoord, i, d.texcoords[i]) {
      assert attrs[6 + i] == texcoords[i];
    }
  }

  /** An enabled attribute names 1 to 4 components, as `VarToD3D` needs. */
  predicate Readable(attrs: seq<Attribute>)
  {
    forall i :: 0 <= i < |attrs| && attrs[i].format.enable ==> 1 <= attrs[i].format.components <= 4
  }

  /** A declaration `Initialize` can translate. */
  predicate WellFormed(d: Declaration)
  {
    Shaped(d) && Readable(Attributes(d))
  }

  /** The element an enabled attribute becomes. */
  function ElementOf(a: Attribute): ElementDesc
    requires 1 <= a.format.components <= 4
  {
    ElementDesc(a.name, a.index, VarToD3D(a.format.typ, a.format.components, a.format.integer), a.format.offset)
  }

  /** One element per enabled attribute, in the attributes' order. */
  function Enabled(attrs: seq<Attribute>): seq<ElementDesc>
    requires Readable(attrs)
  {
    if |attrs| == 0 then []
    else
      var a := attrs[|attrs| - 1];
      assert Readable(attrs[..|attrs| - 1]) by {
        assert forall i :: 0 <= i < |attrs| - 1 ==> attrs[..|attrs| - 1][i] == attrs[i];
      }
      Enabled(attrs[..|attrs| - 1]) + (if a.format.enable then [ElementOf(a)] else [])
  }

  /** The elements a declaration describes. */
  function Elements(d: Declaration): seq<ElementDesc>
    requires WellFormed(d)
  {
    Enabled(Attributes(d))
  }

  /** With no elements, the layout is all zeros. */
  lemma LayoutOfNothing(n0: nat)
    requires n0 <= 32
    ensures Layout(n0, []) == Zeros(32)
  {
    assert Layout(n0, []) == Zeros(n0) + Zeros(32 - n0);
  }

  /** `n` zeroed elements. */
  function Zeros(n: nat): (r: seq<ElementDesc>)
    ensures |r| == n && forall i :: 0 <= i < n ==> r[i] == Zero
  {
    seq(n, _ => Zero)
  }

  /** The 32-element array with `es` written from slot `n0` on and zeros elsewhere. */
  function Layout(n0: nat, es: seq<ElementDesc>): (r: seq<ElementDesc>)
    requires n0 + |es| <= 32
    ensures |r| == 32
  {
    Zeros(n0) + es + Zeros(32 - n0 - |es|)
  }

  /** Writing the next element into a layout extends it. */
  lemma LayoutPush(n0: nat, es: seq<ElementDesc>, e: ElementDesc)
    requires n0 + |es| < 32
    ensures Layout(n0, es)[n0 + |es| := e] == Layout(n0, es + [e])
  {
    var l := Layout(n0, es)[n0 + |es| := e];
    var r := Layout(n0, es + [e]);
    assert forall i :: 0 <= i < 32 ==> l[i] == r[i];
  }

  /** A prefix of the attributes has no more elements than all of them. */
  lemma {:induction false} EnabledPrefix(attrs: seq<Attribute>, k: nat)
    requires Readable(attrs) && k <= |attrs|
    ensures Readable(attrs[..k]) && |Enabled(attrs[..k])| <= |Enabled(attrs)|
    decreases |attrs|
  {
    assert forall i :: 0 <= i < k ==> attrs[..k][i] == attrs[i];
    if k < |attrs| {
      var init := attrs[..|attrs| - 1];
      assert forall i :: 0 <= i < |init| ==> init[i] == attrs[i];
      assert init[..k] == attrs[..k];
      EnabledPrefix(init, k);
    } else {
      assert attrs[..k] == attrs;
    }
  }

  /** The position of an attribute in the visiting order, from its semantic and index. */
  function Rank(name: SemanticName, index: nat): nat
  {
    match name
    case NoName => 15
    case Position => 0
    case Normal => 1 + index
    case Color => 4 + index
    case Texcoord => 6 + index
    case BlendIndices => 14
  }

  /** The rank of the attribute an element came from. */
  function ElemRank(e: ElementDesc): nat
  {
    Rank(e.name, e.index)
  }

  /** Attributes that sit at their ranks. */
  predicate Ranked(attrs: seq<Attribute>)
  {
    forall i :: 0 <= i < |attrs| ==> Rank(attrs[i].name, attrs[i].index) == i
  }

  /** Every attribute of a declaration sits at its rank. */
  lemma AttributeRanks(d: Declaration)
    requires Shaped(d)
    ensures Ranked(Attributes(d))
  {
    var attrs := Attributes(d);
    forall i | 0 <= i < 15
      ensures Rank(attrs[i].name, attrs[i].index) == i
    {
      if i == 0 {
      } else if i < 4 {
        assert attrs[i] == Indexed(Normal, d.normals)[i - 1];
      } else if i < 6 {
        assert attrs[i] == Indexed(Color, d.colors)[i - 4];
      } else if i < 14 {
        assert attrs[i] == Indexed(Texcoord, d.texcoords)[i - 6];
      }
    }
  }

  /**
   * The elements of ranked attributes: each element is the element of the
   * enabled attribute at its rank, every enabled attribute has its element,
   * and the ranks strictly increase.
   */
  lemma {:induction false} EnabledByRank(attrs: seq<Attribute>)
    requires Readable(attrs) && Ranked(attrs)
    ensures forall j :: 0 <= j < |Enabled(attrs)| ==>
      && ElemRank(Enabled(attrs)[j]) < |attrs| && attrs[ElemRank(Enabled(attrs)[j])].format.enable
      && Enabled(attrs)[j] == ElementOf(attrs[ElemRank(Enabled(attrs)[j])])
    ensures forall i :: 0 <= i < |attrs| && attrs[i].format.enable ==>
      exists j :: 0 <= j < |Enabled(attrs)| && ElemRank(Enabled(attrs)[j]) == i
    ensures forall j, k :: 0 <= j < k < |Enabled(attrs)| ==> ElemRank(Enabled(attrs)[j]) < ElemRank(Enabled(attrs)[k])
    decreases |attrs|
  {
    if |attrs| > 0 {
      var init := attrs[..|attrs| - 1];
      assert forall i :: 0 <= i < |init| ==> init[i] == attrs[i];
      EnabledByRank(init);
      var a := attrs[|attrs| - 1];
      var prev := Enabled(init);
      var es := Enabled(attrs);
      assert es == prev + (if a.format.enable then [ElementOf(a)] else []);
      assert forall j :: 0 <= j < |prev| ==> es[j] == prev[j];
      if a.format.enable {
        assert ElemRank(es[|prev|]) == |attrs| - 1;
      }
      forall i | 0 <= i < |attrs| && attrs[i].format.enable
        ensures exists j :: 0 <= j < |es| && ElemRank(es[j]) == i
      {
        if i < |init| {
          var j :| 0 <= j < |prev| && ElemRank(prev[j]) == i;
          assert es[j] == prev[j];
        } else {
          assert ElemRank(es[|prev|]) == i;
        }
      }
    }
  }

  /**
   * `Initialize` adds one element per enabled attribute and no other: an
   * element of rank `i` is present iff attribute `i` is enabled, the
   * elements follow the order POSITION, NORMAL 0-2, COLOR 0-1, TEXCOORD 0-7,
   * BLENDINDICES, there are at most 15 of them, and each carries its
   * attribute's semantic index, `VarToD3D` format and offset.
   */
  lemma ElementsFollowDeclaration(d: Declaration)
    requires WellFormed(d)
    ensures |Elements(d)| <= 15
    ensures forall j :: 0 <= j < |Elements(d)| ==>
      var r := ElemRank(Elements(d)[j]);
      r < 15 && Attributes(d)[r].format.enable &&
      var a := Attributes(d)[r];
      Elements(d)[j] == ElementDesc(a.name, a.index, VarToD3D(a.format.typ, a.format.components, a.format.integer), a.format.offset)
    ensures forall i :: 0 <= i < 15 ==>
      (Attributes(d)[i].format.enable <==> exists j :: 0 <= j < |Elements(d)| && ElemRank(Elements(d)[j]) == i)
    ensures forall j, k :: 0 <= j < k < |Elements(d)| ==> ElemRank(Elements(d)[j]) < ElemRank(Elements(d)[k])
  {
    var attrs := Attributes(d);
    AttributeRanks(d);
    EnabledByRank(attrs);
    RanksBound(Elements(d));
  }

  /** Strictly increasing ranks below 15 number at most 15. */
  lemma {:induction false} RanksBound(es: seq<ElementDesc>)
    requires forall j :: 0 <= j < |es| ==> ElemRank(es[j]) < 15
    requires forall j, k :: 0 <= j < k < |es| ==> ElemRank(es[j]) < ElemRank(es[k])
    ensures |es| <= 15
  {
    if |es| > 15 {
      RanksGrow(es, 15);
    }
  }

  /** The `k`-th of strictly increasing ranks is at least `k`. */
  lemma {:induction false} RanksGrow(es: seq<ElementDesc>, k: nat)
    requires k < |es|
    requires forall j, l :: 0 <= j < l < |es| ==> ElemRank(es[j]) < ElemRank(es[l])
    ensures ElemRank(es[k]) >= k
  {
    if k > 0 {
      RanksGrow(es, k - 1);
    }
  }

  /** `D3DVertexFormat`: the element array, its count, the stride and the lazily created layout. */
  class D3DVertexFormat {
    /** `m_elems[32]`. */
    const elems: array<ElementDesc>
    /** `m_input_layout`. */
    const layout: UniquePtr
    /** `m_num_elems`. */
    var numElems: nat
    /** `vertex_stride`. */
    var vertexStride: nat

    ghost predicate Valid()
      reads this
    {
      elems.Length == 32 && numElems <= 32
    }

    /** `CreateNativeVertexFormat`: a new format with no elements and no layout. */
    constructor ()
      ensures Valid() && fresh(elems) && fresh(layout)
      ensures numElems == 0 && elems[..] == Zeros(32) && layout.ptr == Null
    {
      elems := new ElementDesc[32](_ => Zero);
      layout := new UniquePtr.Empty();
      numElems := 0;
      vertexStride := 0;
    }

    /**
     * The first `k` of `attrs` are written: the enabled ones among them fill
     * the slots from `n0` on, and every other slot is zero.
     */
    ghost predicate Written(n0: nat, attrs: seq<Attribute>, k: nat)
      reads this, elems
    {
      && Valid() && Readable(attrs) && k <= |attrs| && n0 + |Enabled(attrs)| <= 32
      && numElems == n0 + |Enabled(attrs[..k])|
      && elems[..] == Layout(n0, Enabled(attrs[..k]))
    }

    /**
     * `Initialize`: zero the array, then append one element per enabled
     * attribute, from slot `m_num_elems` on, which `Initialize` does not
     * reset; on a new format that is slot 0.
     */
    method Initialize(d: Declaration)
      requires Valid() && WellFormed(d)
      requires numElems + |Elements(d)| <= 32
      modifies this, elems
      ensures Valid() && vertexStride == d.stride
      ensures numElems == old(numElems) + |Elements(d)|
      ensures elems[..] == Layout(old(numElems), Elements(d))
    {
      vertexStride := d.stride;
      ZeroElements();
      ghost var n0 := numElems;
      ghost var attrs := Attributes(d);
      LayoutOfNothing(n0);
      assert attrs[..0] == [];
      assert Written(n0, attrs, 0);

      AttributesAt(d);
      AppendFront(d, n0, attrs);
      AppendBack(d, n0, attrs);
      assert attrs[..15] == attrs;
    }

    /** The position and the normals: `attrs[0..4]`. */
    method AppendFront(d: Declaration, ghost n0: nat, ghost attrs: seq<Attribute>)
      requires Shaped(d) && attrs == Attributes(d) && Written(n0, attrs, 0)
      requires attrs[0] == Attribute(Position, 0, d.position)
      requires forall i :: 0 <= i < 3 ==> attrs[1 + i] == Attribute(Normal, i, d.normals[i])
      modifies this, elems
      ensures Written(n0, attrs, 4) && vertexStride == old(vertexStride)
    {
      Append(Attribute(Position, 0, d.position), n0, attrs, 0);
      AppendIndexed(Normal, d.normals, n0, attrs, 1);
    }

    /** The colours, the texture coordinates and the matrix index: `attrs[4..15]`. */
    method AppendBack(d: Declaration, ghost n0: nat, ghost attrs: seq<Attribute>)
      requires Shaped(d) && attrs == Attributes(d) && Written(n0, attrs, 4)
      requires forall i :: 0 <= i < 2 ==> attrs[4 + i] == Attribute(Color, i, d.colors[i])
      requires forall i :: 0 <= i < 8 ==> attrs[6 + i] == Attribute(Texcoord, i, d.texcoords[i])
      requires attrs[14] == Attribute(BlendIndices, 0, d.posmtx)
      modifies this, elems
      ensures Written(n0, attrs, 15) && vertexStride == old(vertexStride)
    {
      AppendIndexed(Color, d.colors, n0, attrs, 4);
      AppendIndexed(Texcoord, d.texcoords, n0, attrs, 6);
      Append(Attribute(BlendIndices, 0, d.posmtx), n0, attrs, 14);
    }

    /** `memset(m_elems, 0, sizeof(m_elems))`. */
    method ZeroElements()
      requires Valid()
      modifies elems
      ensures elems[..] == Zeros(32)
    {
      forall i | 0 <= i < 32 {
        elems[i] := Zero;
      }
      assert elems[..] == Zeros(32);
    }

    /**
     * One of the `for` loops: the attributes `name` 0, 1, ... over `fs`,
     * which sit at `attrs[k0..]`, in order.
     */
    method AppendIndexed(name: SemanticName, fs: seq<AttributeFormat>, ghost n0: nat, ghost attrs: seq<Attribute>, ghost k0: nat)
      requires Written(n0, attrs, k0) && k0 + |fs| <= |attrs|
      requires forall i :: 0 <= i < |fs| ==> attrs[k0 + i] == Attribute(name, i, fs[i])
      modifies this, elems
      ensures Written(n0, attrs, k0 + |fs|) && vertexStride == old(vertexStride)
    {
      for i := 0 to |fs|
        invariant Written(n0, attrs, k0 + i) && vertexStride == old(vertexStride)
      {
        Append(Attribute(name, i, fs[i]), n0, attrs, k0 + i);
      }
    }

    /** One `if (format->enable)` block: the attribute `attrs[k]`, written at `m_num_elems`. */
    method Append(a: Attribute, ghost n0: nat, ghost attrs: seq<Attribute>, ghost k: nat)
      requires Written(n0, attrs, k) && k < |attrs| && attrs[k] == a
      modifies this, elems
      ensures Written(n0, attrs, k + 1) && vertexStride == old(vertexStride)
    {
      EnabledPrefix(attrs, k + 1);
      EnabledPrefix(attrs, k);
      assert attrs[..k + 1][..k] == attrs[..k];
      if a.format.enable {
        var e := ElementDesc(a.name, a.index, VarToD3D(a.format.typ, a.format.components, a.format.integer), a.format.offset);
        LayoutPush(n0, Enabled(attrs[..k]), e);
        elems[numElems] := e;
        numElems := numElems + 1;
      }
    }

    /** `Equal`: the same count, and the same elements in the used slots. */
    predicate Equal(other: D3DVertexFormat)
      requires Valid() && other.Valid()
      reads this, other, elems, other.elems
    {
      numElems == other.numElems && elems[..numElems] == other.elems[..numElems]
    }

    /**
     * `SetupVertexPointers`: create the input layout from the elements and
     * the active vertex shader's bytecode unless there already is one (the
     * creation may fail, leaving none), then bind it.
     */
    method SetupVertexPointers(bytecode: Bytecode, createLayout: (seq<ElementDesc>, Bytecode) -> Ptr, log: RefLog)
      returns (bound: Ptr)
      requires Valid()
      modifies layout, log
      ensures old(layout.ptr).Obj? ==> layout.ptr == old(layout.ptr)
      ensures old(layout.ptr).Null? ==> layout.ptr == createLayout(elems[..numElems], bytecode)
      ensures log.events == old(log.events)
      ensures bound == layout.ptr
    {
      if !layout.IsSet() {
        var out := new ToAddr(layout);
        out.Write(createLayout(elems[..numElems], bytecode));
        out.Destroy(log);
      }
      bound := layout.Get();
    }
  }

  /** Formats initialized on new objects compare equal iff their declarations have the same elements. */
  lemma InitializedFormatsEqual(a: D3DVertexFormat, da: Declaration, b: D3DVertexFormat, db: Declaration)
    requires a.Valid() && b.Valid() && WellFormed(da) && WellFormed(db)
    requires a.numElems == |Elements(da)| && a.elems[..] == Layout(0, Elements(da))
    requires b.numElems == |Elements(db)| && b.elems[..] == Layout(0, Elements(db))
    ensures a.Equal(b) <==> Elements(da) == Elements(db)
  {
    assert a.elems[..a.numElems] == a.elems[..][..a.numElems] == Elements(da);
    assert b.elems[..b.numElems] == b.elems[..][..b.numElems] == Elements(db);
  }

  /** `Equal` is an equivalence. */
  lemma EqualIsEquivalence(a: D3DVertexFormat, b: D3DVertexFormat, c: D3DVertexFormat)
    requires a.Valid() && b.Valid() && c.Valid()
    ensures a.Equal(a)
    ensures a.Equal(b) ==> b.Equal(a)
    ensures a.Equal(b) && b.Equal(c) ==> a.Equal(c)
  {
  }
}
