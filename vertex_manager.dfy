/**
 * The streaming vertex/index ring of the D3D11 backend (VertexManager.cpp).
 *
 * Each flush copies the staged vertices and 16-bit indices of one batch into
 * one of N dynamic GPU buffers of VBUFFER_SIZE bytes.  A write cursor is
 * rounded up to the vertex stride, the vertex and index regions are each
 * 16-byte aligned, and when the batch would run past the end of the buffer
 * the ring moves to the next buffer, which is mapped with DISCARD; otherwise
 * the batch is appended behind the previous one with NO_OVERWRITE.
 */
module VertexManager {
  import opened Alignment
  import opened D3DPtr
  import opened D3DShader
  import opened ShaderCache
  import PS = PixelShaderCache
  import VS = VertexShaderCache
  import NVF = NativeVertexFormat

  /** `VBUFFER_SIZE = 4u<<20u`: the size in bytes of each ring buffer. */
  const VBUFFER_SIZE: nat := 4 * 1024 * 1024

  /** The map type `PrepareDrawBuffers` passes to `Map`. */
  datatype MapType = Discard | NoOverwrite

  /** The end of the batch computed from the current cursor, before the wrap test. */
  function TestedEnd(cursor: nat, stride: nat, vSize: nat, iSize: nat): nat
    requires stride > 0
  {
    RoundUp(Align16(RoundUp(cursor, stride) + vSize) + iSize, 16)
  }

  /**
   * Where one batch goes: the map type, the buffer, the vertex region
   * `[vbStart, vbStart + vSize)` copied from `vbAlignedStart` to `vbEnd`,
   * and the index region copied from `vbEnd` to `ibEnd`.
   */
  datatype Placement = Placement(
    mapType: MapType, buffer: nat,
    vbStart: nat, vbAlignedStart: nat, vbEnd: nat, ibEnd: nat)

  /**
   * The placement `PrepareDrawBuffers` computes from the ring position
   * (`current`, `cursor`), the number of buffers and the batch.
   */
  function Place(current: nat, cursor: nat, count: nat, stride: nat, vSize: nat, iSize: nat): (p: Placement)
    requires count > 0 && stride > 0
    // wrap rule
    ensures p.mapType == Discard <==> TestedEnd(cursor, stride, vSize, iSize) > VBUFFER_SIZE
    ensures p.mapType == Discard ==> p.buffer == (current + 1) % count
    ensures p.mapType == NoOverwrite ==> p.buffer == current
    ensures p.mapType == NoOverwrite ==> p.ibEnd == TestedEnd(cursor, stride, vSize, iSize) <= VBUFFER_SIZE
    // vertex region: the start cursor rounded up to the stride
    ensures var start := if p.mapType == Discard then 0 else cursor;
      p.vbStart % stride == 0 && start <= p.vbStart < start + stride
    ensures p.vbAlignedStart % 16 == 0 && p.vbAlignedStart <= p.vbStart <= p.vbAlignedStart + 15
    ensures p.vbEnd % 16 == 0 && p.vbStart + vSize <= p.vbEnd < p.vbStart + vSize + 16
    // index region: directly behind the vertices, the whole batch 16-aligned
    ensures p.ibEnd % 16 == 0 && p.vbEnd + iSize <= p.ibEnd < p.vbEnd + iSize + 16
  {
    var wraps := TestedEnd(cursor, stride, vSize, iSize) > VBUFFER_SIZE;
    var start := if wraps then 0 else cursor;
    var vbStart := RoundUp(start, stride);
    var vbEnd := Align16(vbStart + vSize);
    RoundUp16IsAlign16(vbEnd + iSize);
    Placement(
      if wraps then Discard else NoOverwrite,
      if wraps then (current + 1) % count else current,
      vbStart, Floor16(vbStart), vbEnd, Align16(vbEnd + iSize))
  }

  /**
   * The byte at offset `k` of a buffer after the two copies of a placement:
   * the staged vertex bytes over `[vbAlignedStart, vbEnd)`, read from 16
   * bytes into the staging buffer minus the alignment slack, then the
   * staged index bytes over `[vbEnd, ibEnd)`, and the old byte elsewhere.
   */
  function Streamed(before: bv8, k: nat, p: Placement, vertices: seq<bv8>, indices: seq<bv8>): bv8
  {
    if p.vbAlignedStart <= k < p.vbEnd && 0 <= 16 + k - p.vbStart < |vertices| then vertices[16 + k - p.vbStart]
    else if p.vbEnd <= k < p.ibEnd && k - p.vbEnd < |indices| then indices[k - p.vbEnd]
    else before
  }

  /**
   * An append never writes below the cursor: with a 16-aligned cursor, the
   * aligned vertex start of a NO_OVERWRITE placement is at or above it.
   */
  lemma AppendStartsAtCursor(current: nat, cursor: nat, count: nat, stride: nat, vSize: nat, iSize: nat)
    requires count > 0 && stride > 0 && cursor % 16 == 0
    requires Place(current, cursor, count, stride, vSize, iSize).mapType == NoOverwrite
    ensures cursor <= Place(current, cursor, count, stride, vSize, iSize).vbAlignedStart
  {
    var p := Place(current, cursor, count, stride, vSize, iSize);
    if p.vbAlignedStart < cursor {
      Apart16(p.vbAlignedStart, cursor);
    }
  }

  /** The initial ring state, `CreateDeviceObjects`: the last buffer, cursor at its end. */
  lemma FirstFlushDiscardsToBufferZero(count: nat, stride: nat, vSize: nat, iSize: nat)
    requires count > 0 && stride > 0 && vSize + iSize > 0
    ensures var p := Place(count - 1, VBUFFER_SIZE, count, stride, vSize, iSize);
      p.mapType == Discard && p.buffer == 0 && p.vbStart == 0
  {
    var c := RoundUp(VBUFFER_SIZE, stride);
    var v := Align16(c + vSize);
    assert TestedEnd(VBUFFER_SIZE, stride, vSize, iSize) >= v + iSize > VBUFFER_SIZE;
    assert (count - 1 + 1) % count == 0 by {
      DivModUnique(count, count, 1, 0);
    }
    assert RoundUp(0, stride) == 0;
  }

  /**
   * A batch that fits into an empty buffer never leaves the buffer: the new
   * cursor stays within VBUFFER_SIZE, whichever way the wrap test goes.
   */
  lemma FittingBatchStaysInBuffer(current: nat, cursor: nat, count: nat, stride: nat, vSize: nat, iSize: nat)
    requires count > 0 && stride > 0
    requires TestedEnd(0, stride, vSize, iSize) <= VBUFFER_SIZE
    ensures Place(current, cursor, count, stride, vSize, iSize).ibEnd <= VBUFFER_SIZE
  {
    var p := Place(current, cursor, count, stride, vSize, iSize);
    if p.mapType == Discard {
      assert RoundUp(0, stride) == 0;
      RoundUp16IsAlign16(Align16(vSize) + iSize);
    }
  }

  /** The placement field by field, from the start the wrap step leaves the cursor at. */
  lemma PlaceFrom(current: nat, cursor: nat, count: nat, stride: nat, vSize: nat, iSize: nat, start: nat)
    requires count > 0 && stride > 0
    requires start == if Place(current, cursor, count, stride, vSize, iSize).mapType == Discard then 0 else cursor
    ensures var p := Place(current, cursor, count, stride, vSize, iSize);
      var vbStart := RoundUp(start, stride);
      var vbEnd := Align16(vbStart + vSize);
      p == Placement(p.mapType, p.buffer, vbStart, Floor16(vbStart), vbEnd, Align16(vbEnd + iSize))
  {
  }

  /** A batch that fits an empty buffer, with staging buffers large enough, can be copied where it is placed. */
  lemma PlaceIsCopyable(current: nat, cursor: nat, count: nat, stride: nat, vSize: nat, iSize: nat, vLen: nat, iLen: nat)
    requires count > 0 && stride > 0
    requires TestedEnd(0, stride, vSize, iSize) <= VBUFFER_SIZE
    requires var p := Place(current, cursor, count, stride, vSize, iSize); 16 + (p.vbEnd - p.vbStart) <= vLen
    requires Align16(iSize) <= iLen
    ensures Copyable(Place(current, cursor, count, stride, vSize, iSize), VBUFFER_SIZE, vLen, iLen)
  {
    FittingBatchStaysInBuffer(current, cursor, count, stride, vSize, iSize);
    Align16Shift(Place(current, cursor, count, stride, vSize, iSize).vbEnd, iSize);
  }

  /**
   * The staging sizes the constructor allocates: `MAXVBUFFERSIZE + 16`
   * vertex bytes, 16 of them of slack before the base pointer, and
   * `MAXIBUFFERSIZE` 16-bit indices.
   */
  function StagingAsWritten(maxV: nat, maxI: nat): (nat, nat)
  {
    (maxV + 16, 2 * maxI)
  }

  /** The staging sizes with 16 more bytes behind each, for the copies' round-up to 16. */
  function StagingPadded(maxV: nat, maxI: nat): (nat, nat)
  {
    (maxV + 32, 2 * maxI + 16)
  }

  /**
   * The copies read past the staging buffers as allocated: a full vertex
   * batch whose end in the ring is not 16-aligned is copied up to the next
   * multiple of 16, beyond the `MAXVBUFFERSIZE + 16` bytes; a full index
   * batch whose count is not a multiple of 8 is read up to the next 16
   * bytes, beyond the `MAXIBUFFERSIZE` indices.  The batch fits an empty
   * ring buffer, so the ring bound holds and the staging bounds alone fail.
   */
  lemma StagingOverReadAsWritten(current: nat, cursor: nat, count: nat, stride: nat, maxV: nat, maxI: nat)
    requires count > 0 && stride > 0
    requires TestedEnd(0, stride, maxV, 2 * maxI) <= VBUFFER_SIZE
    requires (Place(current, cursor, count, stride, maxV, 2 * maxI).vbStart + maxV) % 16 != 0 || maxI % 8 != 0
    ensures var p := Place(current, cursor, count, stride, maxV, 2 * maxI);
      var (vLen, iLen) := StagingAsWritten(maxV, maxI);
      && p.ibEnd <= VBUFFER_SIZE
      && (16 + (p.vbEnd - p.vbStart) > vLen || p.ibEnd - p.vbEnd > iLen)
      && !Copyable(p, VBUFFER_SIZE, vLen, iLen)
  {
    var p := Place(current, cursor, count, stride, maxV, 2 * maxI);
    FittingBatchStaysInBuffer(current, cursor, count, stride, maxV, 2 * maxI);
    if (p.vbStart + maxV) % 16 == 0 {
      UnalignedGap(p.vbEnd, p.ibEnd, 2 * maxI, maxI);
    }
  }

  /** Between two multiples of 16, a gap of `2 * n` bytes with `n % 8 != 0` leaves room to spare. */
  lemma UnalignedGap(a: nat, b: nat, size: nat, n: nat)
    requires a % 16 == 0 && b % 16 == 0 && a + size <= b
    requires size == 2 * n && n % 8 != 0
    ensures a + size < b
  {
  }

  /**
   * With 16 bytes of padding behind each staging buffer, every batch the
   * staging can hold that fits an empty ring buffer can be copied where it
   * is placed.
   */
  lemma PaddedStagingIsCopyable(current: nat, cursor: nat, count: nat, stride: nat,
                                vSize: nat, indexLen: nat, maxV: nat, maxI: nat)
    requires count > 0 && stride > 0
    requires TestedEnd(0, stride, vSize, 2 * indexLen) <= VBUFFER_SIZE
    requires vSize <= maxV && indexLen <= maxI
    ensures var (vLen, iLen) := StagingPadded(maxV, maxI);
      Copyable(Place(current, cursor, count, stride, vSize, 2 * indexLen), VBUFFER_SIZE, vLen, iLen)
  {
    var (vLen, iLen) := StagingPadded(maxV, maxI);
    PlaceIsCopyable(current, cursor, count, stride, vSize, 2 * indexLen, vLen, iLen);
  }

  /** A vertex stride in bytes. */
  type Stride = x: nat | x > 0 witness 1

  /** One batch handed to `PrepareDrawBuffers`: its vertex stride and byte sizes. */
  datatype Batch = Batch(stride: Stride, vSize: nat, iSize: nat)

  /** The ring position: `m_currentBuffer` and `m_bufferCursor`. */
  datatype Ring = Ring(current: nat, cursor: nat)

  predicate BatchFits(b: Batch)
  {
    TestedEnd(0, b.stride, b.vSize, b.iSize) <= VBUFFER_SIZE
  }

  function Advance(r: Ring, count: nat, b: Batch): Ring
    requires count > 0
  {
    var p := Place(r.current, r.cursor, count, b.stride, b.vSize, b.iSize);
    Ring(p.buffer, p.ibEnd)
  }

  /** The ring position after a run of successfully mapped flushes. */
  function Run(r: Ring, count: nat, bs: seq<Batch>): Ring
    requires count > 0
    decreases |bs|
  {
    if |bs| == 0 then r else Run(Advance(r, count, bs[0]), count, bs[1..])
  }

  /** 1 when the flush of `b` maps with DISCARD, 0 when it appends. */
  function DiscardFlag(r: Ring, count: nat, b: Batch): nat
    requires count > 0
  {
    if Place(r.current, r.cursor, count, b.stride, b.vSize, b.iSize).mapType == Discard then 1 else 0
  }

  /** How many flushes of the run used a DISCARD map. */
  function Discards(r: Ring, count: nat, bs: seq<Batch>): nat
    requires count > 0
    decreases |bs|
  {
    if |bs| == 0 then 0
    else DiscardFlag(r, count, bs[0]) + Discards(Advance(r, count, bs[0]), count, bs[1..])
  }

  /** One flush moves the current buffer forward by one exactly when it discards. */
  lemma AdvanceStep(r: Ring, count: nat, b: Batch)
    requires count > 0 && r.current < count
    ensures Advance(r, count, b).current == (r.current + DiscardFlag(r, count, b)) % count
  {
    DivModUnique(r.current, count, 0, r.current);
  }

  /** Two steps around the ring add up: `((a + d) % n + k) % n == (a + d + k) % n`. */
  lemma ModAddChain(a: nat, d: nat, k: nat, n: nat, c: nat, e: nat)
    requires n > 0 && c == (a + d) % n && e == (c + k) % n
    ensures e == (a + d + k) % n
  {
    ModAdd(a, d, k, n);
  }

  /**
   * Buffers are visited round-robin: after a run, the current buffer is the
   * starting one advanced by the number of DISCARD maps, modulo N.
   */
  lemma {:induction false} RunVisitsBuffersRoundRobin(r: Ring, count: nat, bs: seq<Batch>)
    requires count > 0 && r.current < count
    ensures Run(r, count, bs).current == (r.current + Discards(r, count, bs)) % count
    decreases |bs|
  {
    if |bs| > 0 {
      var next := Advance(r, count, bs[0]);
      var d := DiscardFlag(r, count, bs[0]);
      AdvanceStep(r, count, bs[0]);
      RunVisitsBuffersRoundRobin(next, count, bs[1..]);
      var k := Discards(next, count, bs[1..]);
      assert Run(r, count, bs) == Run(next, count, bs[1..]);
      assert Discards(r, count, bs) == d + k;
      ModAddChain(r.current, d, k, count, next.current, Run(next, count, bs[1..]).current);
    }
  }

  /**
   * With batches that fit an empty buffer, the cursor stays a multiple of 16
   * within VBUFFER_SIZE and the current buffer stays in range.
   */
  lemma {:induction false} RunKeepsRingValid(r: Ring, count: nat, bs: seq<Batch>)
    requires count > 0 && r.current < count
    requires r.cursor <= VBUFFER_SIZE && r.cursor % 16 == 0
    requires forall i :: 0 <= i < |bs| ==> BatchFits(bs[i])
    ensures var e := Run(r, count, bs);
      e.current < count && e.cursor <= VBUFFER_SIZE && e.cursor % 16 == 0
    decreases |bs|
  {
    if |bs| > 0 {
      FittingBatchStaysInBuffer(r.current, r.cursor, count, bs[0].stride, bs[0].vSize, bs[0].iSize);
      assert forall i :: 0 <= i < |bs[1..]| ==> BatchFits(bs[1..][i]) by {
        forall i | 0 <= i < |bs[1..]| ensures BatchFits(bs[1..][i]) {
          assert bs[1..][i] == bs[i + 1];
        }
      }
      RunKeepsRingValid(Advance(r, count, bs[0]), count, bs[1..]);
    }
  }

  /**
   * `Memcpy16`: copies `size / 16` whole 16-byte blocks from `src` to the
   * 16-aligned `dst`, eight blocks per iteration and then one at a time, and
   * writes nothing else.
   */
  method Memcpy16(dst: array<bv8>, dstOff: nat, src: array<bv8>, srcOff: nat, size: nat)
    requires dst != src
    requires dstOff % 16 == 0
    requires dstOff + size / 16 * 16 <= dst.Length
    requires srcOff + size / 16 * 16 <= src.Length
    modifies dst
    ensures forall k :: 0 <= k < dst.Length ==>
      dst[k] == if dstOff <= k < dstOff + size / 16 * 16 then src[srcOff + (k - dstOff)] else old(dst[k])
  {
    var blocks: nat := size / 16;
    var remainder: nat := blocks % 8;
    var loop: nat := blocks / 8;
    assert 16 * blocks == size / 16 * 16;
    var d, s := dstOff, srcOff;
    while loop != 0
      invariant loop <= blocks / 8 && remainder == blocks % 8
      invariant d + 128 * loop + 16 * remainder == dstOff + 16 * blocks && s - srcOff == d - dstOff
      invariant forall k :: 0 <= k < dst.Length ==>
        dst[k] == if dstOff <= k < d then src[srcOff + (k - dstOff)] else old(dst[k])
    {
      // eight unaligned loads, then eight streaming stores
      forall j | 0 <= j < 128 {
        dst[d + j] := src[s + j];
      }
      d, s := d + 128, s + 128;
      loop := loop - 1;
    }
    while remainder != 0
      invariant d + 16 * remainder == dstOff + 16 * blocks && s - srcOff == d - dstOff
      invariant forall k :: 0 <= k < dst.Length ==>
        dst[k] == if dstOff <= k < d then src[srcOff + (k - dstOff)] else old(dst[k])
    {
      forall j | 0 <= j < 16 {
        dst[d + j] := src[s + j];
      }
      d, s := d + 16, s + 16;
      remainder := remainder - 1;
    }
  }

  /**
   * The bounds the two copies of placement `p` need: aligned regions, the
   * whole batch inside a target of `targetLen` bytes, and staging buffers
   * of `vLen` and `iLen` bytes holding the 16 bytes of slack and the regions.
   */
  predicate Copyable(p: Placement, targetLen: nat, vLen: nat, iLen: nat)
  {
    && p.vbAlignedStart % 16 == 0 && p.vbEnd % 16 == 0 && p.ibEnd % 16 == 0
    && p.vbAlignedStart <= p.vbStart <= p.vbAlignedStart + 15
    && p.vbStart <= p.vbEnd <= p.ibEnd <= targetLen
    && 16 + (p.vbEnd - p.vbStart) <= vLen
    && p.ibEnd - p.vbEnd <= iLen
  }

  /**
   * The two copies of a flush into the mapped buffer: the vertex region from
   * its 16-aligned start, reading from up to 15 bytes before the staged
   * vertices, then the index region behind it.
   */
  method CopyBatch(target: array<bv8>, p: Placement, vertices: array<bv8>, indices: array<bv8>)
    requires target != vertices && target != indices
    requires Copyable(p, target.Length, vertices.Length, indices.Length)
    modifies target
    ensures forall k :: 0 <= k < target.Length ==>
      target[k] == Streamed(old(target[k]), k, p, vertices[..], indices[..])
  {
    Memcpy16(target, p.vbAlignedStart, vertices, 16 - (p.vbStart - p.vbAlignedStart), p.vbEnd - p.vbAlignedStart);
    Memcpy16(target, p.vbEnd, indices, 0, p.ibEnd - p.vbEnd);
  }

  /**
   * The calls `vFlush` makes around the streaming: `FlushTextures` with the
   * active pixel shader's texture mask, the renderer's `ApplyState`, the
   * draw of the streamed batch, and `RestoreState`.
   */
  datatype RenderCall = FlushTextures(mask: bv32) | ApplyState(useDstAlpha: bool) | Draw(stride: nat) | RestoreState

  /**
   * The D3D11 vertex manager: N ring buffers in GPU-visible memory, the
   * position in the ring, the draw offsets of the last batch, and the staging
   * buffers the vertex loader and the index generator fill.
   */
  class VertexManager {
    /** `m_buffers`: each VBUFFER_SIZE bytes, as seen through `Map`. */
    const buffers: seq<array<bv8>>
    /** `LocalVBuffer`: staged vertices start at byte 16 (`s_pBaseBufferPointer`). */
    const localVBuffer: array<bv8>
    /** `LocalIBuffer`: the staged 16-bit indices, as bytes. */
    const localIBuffer: array<bv8>
    /** `MAXVBUFFERSIZE` and `MAXIBUFFERSIZE`: what the vertex loader may stage. */
    const maxVBufferSize: nat
    const maxIBufferSize: nat

    var currentBuffer: nat
    var bufferCursor: nat
    var vertexDrawOffset: nat
    var indexDrawOffset: nat
    /** `s_pCurBufferPointer - s_pBaseBufferPointer`: staged vertex bytes. */
    var vSize: nat
    /** `IndexGenerator::GetIndexLen()`: staged indices. */
    var indexLen: nat
    /** The renderer calls issued by flushes, in order. */
    var calls: seq<RenderCall>

    ghost predicate Valid()
      reads this
    {
      && |buffers| > 0
      && (forall i :: 0 <= i < |buffers| ==> buffers[i].Length == VBUFFER_SIZE)
      && (forall i, j :: 0 <= i < j < |buffers| ==> buffers[i] != buffers[j])
      && localVBuffer !in buffers && localIBuffer !in buffers && localVBuffer != localIBuffer
      && currentBuffer < |buffers|
      && bufferCursor <= VBUFFER_SIZE && bufferCursor % 16 == 0
      && localVBuffer.Length == maxVBufferSize + 32
      && localIBuffer.Length == 2 * maxIBufferSize + 16
      && vSize <= maxVBufferSize && indexLen <= maxIBufferSize
    }

    /**
     * The constructor and `CreateDeviceObjects`: staging buffers with 16
     * bytes of slack before the vertices and 16 of padding behind each
     * buffer, `count` ring buffers, and the ring positioned at the end of
     * the last buffer so that the first flush wraps.
     */
    constructor (count: nat, maxVBufferSize: nat, maxIBufferSize: nat)
      requires count > 0
      ensures Valid() && fresh(buffers) && fresh(localVBuffer) && fresh(localIBuffer)
      ensures this.maxVBufferSize == maxVBufferSize && this.maxIBufferSize == maxIBufferSize
      ensures |buffers| == count
      ensures (localVBuffer.Length, localIBuffer.Length) == StagingPadded(maxVBufferSize, maxIBufferSize)
      ensures currentBuffer == count - 1 && bufferCursor == VBUFFER_SIZE
      ensures vSize == 0 && indexLen == 0 && calls == []
    {
      var created: seq<array<bv8>> := [];
      while |created| < count
        invariant |created| <= count
        invariant forall i :: 0 <= i < |created| ==> fresh(created[i]) && created[i].Length == VBUFFER_SIZE
        invariant forall i, j :: 0 <= i < j < |created| ==> created[i] != created[j]
      {
        var b := new bv8[VBUFFER_SIZE];
        created := created + [b];
      }
      var (vLen, iLen) := StagingPadded(maxVBufferSize, maxIBufferSize);
      localVBuffer := new bv8[vLen];
      localIBuffer := new bv8[iLen];
      this.maxVBufferSize := maxVBufferSize;
      this.maxIBufferSize := maxIBufferSize;
      calls := [];
      buffers := created;
      currentBuffer := count - 1;
      bufferCursor := VBUFFER_SIZE;
      vertexDrawOffset, indexDrawOffset := 0, 0;
      vSize, indexLen := 0, 0;
    }

    /** The placement of the staged batch from the current ring position. */
    function Plan(stride: Stride): Placement
      reads this
      requires |buffers| > 0
    {
      Place(currentBuffer, bufferCursor, |buffers|, stride, vSize, 2 * indexLen)
    }

    /**
     * `PrepareDrawBuffers`: places the staged batch, maps the chosen buffer
     * (the map succeeds when `mapSucceeds`), copies the vertex region from
     * its 16-aligned start and the index region behind it, and records the
     * new cursor and the draw offsets.  When the map fails it returns after
     * the wrap step, which it has already applied.
     */
    method PrepareDrawBuffers(stride: Stride, mapSucceeds: bool) returns (mapType: MapType)
      requires Valid()
      requires TestedEnd(0, stride, vSize, 2 * indexLen) <= VBUFFER_SIZE
      modifies this, buffers[Plan(stride).buffer]
      ensures Valid()
      ensures vSize == old(vSize) && indexLen == old(indexLen) && calls == old(calls)
      ensures var p := old(Plan(stride));
        && mapType == p.mapType
        && currentBuffer == p.buffer
        && (mapSucceeds ==>
              bufferCursor == p.ibEnd
              && vertexDrawOffset == p.vbStart / stride
              && indexDrawOffset == p.vbEnd / 2)
        && (!mapSucceeds ==>
              bufferCursor == (if p.mapType == Discard then 0 else old(bufferCursor))
              && vertexDrawOffset == old(vertexDrawOffset)
              && indexDrawOffset == old(indexDrawOffset))
      // only the chosen buffer is written, and only between the aligned vertex start and the new cursor
      ensures forall i :: 0 <= i < |buffers| && (i != old(Plan(stride)).buffer || !mapSucceeds) ==>
        buffers[i][..] == old(buffers[i][..])
      ensures var p := old(Plan(stride));
        mapSucceeds ==> forall k :: 0 <= k < VBUFFER_SIZE ==>
          buffers[p.buffer][k] == Streamed(old(buffers[p.buffer][k]), k, p, localVBuffer[..], localIBuffer[..])
    {
      ghost var p := Plan(stride);
      mapType := WrapRing(stride);
      var vbStart := RoundUp(bufferCursor, stride);
      var vbAlignedStart := Floor16(vbStart);
      var vbEnd := Align16(vbStart + vSize);
      if !mapSucceeds {
        return;
      }
      var iSize := 2 * indexLen;
      var ibEnd := Align16(vbEnd + iSize);
      var placed := Placement(mapType, currentBuffer, vbStart, vbAlignedStart, vbEnd, ibEnd);
      PlaceFrom(old(currentBuffer), old(bufferCursor), |buffers|, stride, vSize, iSize, bufferCursor);
      PaddedStagingIsCopyable(old(currentBuffer), old(bufferCursor), |buffers|, stride, vSize, indexLen,
        maxVBufferSize, maxIBufferSize);
      assert placed == p;
      StreamPlaced(stride, placed);
    }

    /**
     * The start of `PrepareDrawBuffers`: the end of the batch from the
     * current cursor, and the move to the next buffer, with DISCARD, when
     * that end passes VBUFFER_SIZE.
     */
    method WrapRing(stride: Stride) returns (mapType: MapType)
      requires Valid()
      modifies this
      ensures Valid()
      ensures var p := old(Plan(stride));
        && mapType == p.mapType && currentBuffer == p.buffer
        && bufferCursor == (if p.mapType == Discard then 0 else old(bufferCursor))
      ensures vSize == old(vSize) && indexLen == old(indexLen) && calls == old(calls)
      ensures vertexDrawOffset == old(vertexDrawOffset) && indexDrawOffset == old(indexDrawOffset)
    {
      var iSize := 2 * indexLen;
      var cursor := RoundUp(bufferCursor, stride);
      cursor := cursor + vSize;
      cursor := Align16(cursor);
      cursor := cursor + iSize;
      cursor := RoundUp(cursor, 16);
      assert cursor == TestedEnd(bufferCursor, stride, vSize, iSize);

      mapType := NoOverwrite;
      if cursor > VBUFFER_SIZE {
        currentBuffer := (currentBuffer + 1) % |buffers|;
        bufferCursor := 0;
        mapType := Discard;
      }
    }

    /**
     * The rest of `PrepareDrawBuffers` once the buffer is mapped: the two
     * copies of placement `p` into the current buffer, then the new cursor
     * and the draw offsets, in vertices and in 16-bit indices.
     */
    method StreamPlaced(stride: Stride, p: Placement)
      requires Valid() && p.buffer == currentBuffer
      requires Copyable(p, VBUFFER_SIZE, localVBuffer.Length, localIBuffer.Length)
      modifies this, buffers[currentBuffer]
      ensures Valid()
      ensures bufferCursor == p.ibEnd && vertexDrawOffset == p.vbStart / stride && indexDrawOffset == p.vbEnd / 2
      ensures currentBuffer == old(currentBuffer) && vSize == old(vSize) && indexLen == old(indexLen)
      ensures calls == old(calls)
      ensures forall k :: 0 <= k < VBUFFER_SIZE ==>
        buffers[p.buffer][k] == Streamed(old(buffers[p.buffer][k]), k, p, localVBuffer[..], localIBuffer[..])
    {
      var target := buffers[currentBuffer];
      CopyBatch(target, p, localVBuffer, localIBuffer);
      bufferCursor := p.ibEnd;
      DivIsNat(p.vbStart, stride);
      vertexDrawOffset := p.vbStart / stride;
      indexDrawOffset := p.vbEnd / 2;
    }

    /** `ResetBuffer`: the vertex pointer back at the base, the index generator restarted. */
    method ResetBuffer(stride: Stride)
      requires Valid()
      modifies this
      ensures Valid() && vSize == 0 && indexLen == 0 && calls == old(calls)
      ensures currentBuffer == old(currentBuffer) && bufferCursor == old(bufferCursor)
      ensures vertexDrawOffset == old(vertexDrawOffset) && indexDrawOffset == old(indexDrawOffset)
    {
      vSize := 0;
      indexLen := 0;
    }

    /**
     * `vFlush`: select the pixel shader, then the vertex shader, stopping at
     * the first that fails; with both set up, flush the textures the active
     * pixel shader samples, stream the batch with the vertex format's
     * stride, set up the format's input layout against the active vertex
     * shader's bytecode, and apply the render state around the draw.
     */
    method Flush(useDstAlpha: bool, ps: PS.PixelShaderCache, psUid: Uid, vs: VS.VertexShaderCache, vsUid: Uid,
                 format: NVF.D3DVertexFormat, mapSucceeds: bool,
                 createLayout: (seq<NVF.ElementDesc>, Bytecode) -> Ptr, log: RefLog)
      returns (psOk: bool, vsOk: bool)
      requires Valid() && ps.Valid() && vs.Valid() && format.Valid() && format.vertexStride > 0
      requires TestedEnd(0, format.vertexStride, vSize, 2 * indexLen) <= VBUFFER_SIZE
      modifies this, buffers[Plan(format.vertexStride).buffer], ps, ps.shaders.Values, vs, vs.shaders.Values, format.layout, log
      ensures Valid() && ps.Valid() && vs.Valid()
      ensures (ps.View(), psOk) == PS.Select(old(ps.View()), psUid, ps.backend)
      ensures !psOk ==> !vsOk && vs.View() == old(vs.View())
      ensures psOk ==> (vs.View(), vsOk) == VS.Select(old(vs.View()), vsUid, vs.backend)
      // without both shaders nothing is streamed and the layout is untouched
      ensures !(psOk && vsOk) ==>
        && currentBuffer == old(currentBuffer) && bufferCursor == old(bufferCursor)
        && vertexDrawOffset == old(vertexDrawOffset) && indexDrawOffset == old(indexDrawOffset)
        && (forall i :: 0 <= i < |buffers| ==> buffers[i][..] == old(buffers[i][..]))
        && format.layout.ptr == old(format.layout.ptr)
        && calls == old(calls)
      ensures vSize == old(vSize) && indexLen == old(indexLen)
      // with both shaders, the batch is streamed as `PrepareDrawBuffers` places it
      ensures psOk && vsOk ==> var p := old(Plan(format.vertexStride));
        && currentBuffer == p.buffer
        && (mapSucceeds ==>
              bufferCursor == p.ibEnd
              && vertexDrawOffset == p.vbStart / format.vertexStride
              && indexDrawOffset == p.vbEnd / 2)
        && (!mapSucceeds ==>
              bufferCursor == (if p.mapType == Discard then 0 else old(bufferCursor))
              && vertexDrawOffset == old(vertexDrawOffset)
              && indexDrawOffset == old(indexDrawOffset))
      ensures psOk && vsOk ==>
        forall i :: 0 <= i < |buffers| && (i != old(Plan(format.vertexStride)).buffer || !mapSucceeds) ==>
          buffers[i][..] == old(buffers[i][..])
      ensures psOk && vsOk && mapSucceeds ==> var p := old(Plan(format.vertexStride));
        forall k :: 0 <= k < VBUFFER_SIZE ==>
          buffers[p.buffer][k] == Streamed(old(buffers[p.buffer][k]), k, p, localVBuffer[..], localIBuffer[..])
      ensures psOk && vsOk ==>
        && vs.lastEntry != null && vs.GetActiveShaderBytecode().Some?
        && format.layout.ptr == (if old(format.layout.ptr).Obj? then old(format.layout.ptr)
                                 else createLayout(format.elems[..format.numElems], vs.GetActiveShaderBytecode().value))
      ensures psOk && vsOk ==>
        && ps.lastEntry != null
        && calls == old(calls) + [FlushTextures(ps.GetActiveMask()), ApplyState(useDstAlpha),
                                  Draw(format.vertexStride), RestoreState]
      // no shader is released on the way
      ensures log.events == old(log.events)
    {
      psOk, vsOk := SelectShaders(ps, psUid, vs, vsUid, log);
      RingUntouched();
      if psOk && vsOk {
        var bytecode := vs.GetActiveShaderBytecode();
        StreamBatch(useDstAlpha, ps.GetActiveMask(), format, mapSucceeds, bytecode.value, createLayout, log, ps, vs);
      }
    }

    /** Shader selection writes neither the ring position nor the ring buffers. */
    twostate lemma RingUntouched()
      requires old(Valid()) && unchanged(this)
      requires forall i :: 0 <= i < |buffers| ==> unchanged(buffers[i])
      ensures Valid()
      ensures forall i :: 0 <= i < |buffers| ==> buffers[i][..] == old(buffers[i][..])
    {
    }

    /**
     * The rest of `vFlush` once both shaders are set up: flush the textures
     * of `mask`, stream the batch with the format's stride, set up the
     * format's input layout against the active vertex shader's bytecode,
     * and draw between `ApplyState` and `RestoreState`.
     */
    method StreamBatch(useDstAlpha: bool, mask: bv32, format: NVF.D3DVertexFormat, mapSucceeds: bool, bytecode: Bytecode,
                       createLayout: (seq<NVF.ElementDesc>, Bytecode) -> Ptr, log: RefLog,
                       ghost ps: PS.PixelShaderCache, ghost vs: VS.VertexShaderCache)
      requires Valid() && format.Valid() && format.vertexStride > 0
      requires ps.Valid() && vs.Valid() && vs.lastEntry != null
      requires TestedEnd(0, format.vertexStride, vSize, 2 * indexLen) <= VBUFFER_SIZE
      modifies this, buffers[Plan(format.vertexStride).buffer], format.layout, log
      ensures Valid()
      // the shader caches are left as they were
      ensures ps.Valid() && ps.View() == old(ps.View())
      ensures vs.Valid() && vs.View() == old(vs.View())
      ensures vs.lastEntry != null && vs.GetActiveShaderBytecode() == old(vs.GetActiveShaderBytecode())
      ensures vSize == old(vSize) && indexLen == old(indexLen)
      ensures var p := old(Plan(format.vertexStride));
        && currentBuffer == p.buffer
        && (mapSucceeds ==>
              bufferCursor == p.ibEnd
              && vertexDrawOffset == p.vbStart / format.vertexStride
              && indexDrawOffset == p.vbEnd / 2)
        && (!mapSucceeds ==>
              bufferCursor == (if p.mapType == Discard then 0 else old(bufferCursor))
              && vertexDrawOffset == old(vertexDrawOffset)
              && indexDrawOffset == old(indexDrawOffset))
      // the staged batch lands in the chosen buffer, and nothing else is written
      ensures forall i :: 0 <= i < |buffers| && (i != old(Plan(format.vertexStride)).buffer || !mapSucceeds) ==>
        buffers[i][..] == old(buffers[i][..])
      ensures var p := old(Plan(format.vertexStride));
        mapSucceeds ==> forall k :: 0 <= k < VBUFFER_SIZE ==>
          buffers[p.buffer][k] == Streamed(old(buffers[p.buffer][k]), k, p, localVBuffer[..], localIBuffer[..])
      ensures format.layout.ptr == (if old(format.layout.ptr).Obj? then old(format.layout.ptr)
                                    else createLayout(format.elems[..format.numElems], bytecode))
      ensures calls == old(calls) + [FlushTextures(mask), ApplyState(useDstAlpha), Draw(format.vertexStride), RestoreState]
      ensures log.events == old(log.events)
    {
      var stride: Stride := format.vertexStride;
      var _ := PrepareDrawBuffers(stride, mapSucceeds);
      var _ := format.SetupVertexPointers(bytecode, createLayout, log);
      calls := calls + [FlushTextures(mask), ApplyState(useDstAlpha), Draw(stride), RestoreState];
      PS.Untouched(ps);
      VS.Untouched(vs);
    }
  }

  /**
   * The shader selection at the start of `vFlush`: the pixel shader, then,
   * only if that succeeded, the vertex shader.
   */
  method SelectShaders(ps: PS.PixelShaderCache, psUid: Uid, vs: VS.VertexShaderCache, vsUid: Uid, log: RefLog)
    returns (psOk: bool, vsOk: bool)
    requires ps.Valid() && vs.Valid()
    modifies ps, ps.shaders.Values, vs, vs.shaders.Values, log
    ensures ps.Valid() && vs.Valid() && log.events == old(log.events)
    ensures (ps.View(), psOk) == PS.Select(old(ps.View()), psUid, ps.backend)
    ensures !psOk ==> !vsOk && vs.View() == old(vs.View())
    ensures psOk ==> (vs.View(), vsOk) == VS.Select(old(vs.View()), vsUid, vs.backend)
  {
    psOk := SelectPixelShader(ps, psUid, vs);
    if !psOk {
      return false, false;
    }
    vsOk := SelectVertexShader(ps, vs, vsUid, log);
  }

  /** The pixel shader selection, which leaves the vertex shader cache as it is. */
  method SelectPixelShader(ps: PS.PixelShaderCache, psUid: Uid, ghost vs: VS.VertexShaderCache) returns (psOk: bool)
    requires ps.Valid() && vs.Valid()
    modifies ps, ps.shaders.Values
    ensures vs.Valid() && vs.View() == old(vs.View())
    ensures ps.Valid() && (ps.View(), psOk) == PS.Select(old(ps.View()), psUid, ps.backend)
  {
    psOk := ps.SetShader(psUid);
  }

  /** The vertex shader selection, which leaves the pixel shader cache as it is. */
  method SelectVertexShader(ghost ps: PS.PixelShaderCache, vs: VS.VertexShaderCache, vsUid: Uid, log: RefLog)
    returns (vsOk: bool)
    requires ps.Valid() && vs.Valid()
    modifies vs, vs.shaders.Values, log
    ensures ps.Valid() && ps.View() == old(ps.View()) && log.events == old(log.events)
    ensures vs.Valid() && (vs.View(), vsOk) == VS.Select(old(vs.View()), vsUid, vs.backend)
  {
    vsOk := vs.SetShader(vsUid, log);
  }
}
