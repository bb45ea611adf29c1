/**
 * The pixel shader cache of the D3D11 backend (PixelShaderCache.h/.cpp).
 *
 * Generated pixel shaders are kept in an ordered map from their uid to an
 * entry holding the shader object and the texture-slot mask of its
 * bytecode.  A one-slot memo (`last_entry`, `last_uid`) short-cuts the
 * lookup when the same uid is selected twice in a row.  A miss generates
 * and compiles the shader, appends the bytecode to the disk cache and
 * inserts it.  The file also owns a handful of helper programs (clear,
 * colour copy, colour matrix, depth matrix, format reinterpretation),
 * whose multisampled variants are built lazily, and the shadow copy that
 * decides when the pixel constants are uploaded.
 */
module PixelShaderCache {
  import opened Wrappers
  import opened D3DPtr
  import opened D3DShader
  import opened Alignment
  import opened ShaderCache

  /**
   * The native services the cache relies on: generating and compiling the
   * shader of a uid, creating a shader object from bytecode, and reflecting
   * the bytecode's bound resources.
   */
  datatype Backend = Backend(
    compile: Uid -> CompilerOutput,
    device: Bytecode -> DeviceResult,
    reflect: Bytecode -> Reflection)

  /** Reflection reports texture bind points that a 32-bit mask can hold. */
  ghost predicate Sound(b: Backend)
  {
    forall code :: ReflectionFits(b.reflect(code))
  }

  /** The shader `InsertByteCode` creates from `code`. */
  function Created(b: Backend, code: Bytecode): Ptr
  {
    CreatePixelShaderFromByteCode(b.device(code))
  }

  /** What a `PSCacheEntry` holds, as seen through the map. */
  datatype EntryValue = EntryValue(shader: Ptr, mask: bv32)

  /**
   * The cache's state: the map, the key of the entry `last_entry` points to
   * (nodes of a `std::map` never move), `last_uid`, the disk log, and the
   * uids compiled so far.
   */
  datatype CacheState = CacheState(
    entries: map<Uid, EntryValue>,
    last: Option<Uid>,
    lastUid: Uid,
    disk: seq<Record>,
    compiles: seq<Uid>)

  /** `last_entry` is null or points into the map. */
  predicate Consistent(s: CacheState)
  {
    s.last.Some? ==> s.last.value in s.entries
  }

  /** The memo the fast path trusts: `last_entry` is the entry of `last_uid`. */
  predicate MemoSound(s: CacheState)
  {
    s.last.Some? ==> s.last.value in s.entries && s.last.value == s.lastUid
  }

  /**
   * `InsertByteCode`: a null shader leaves everything as it was; otherwise
   * the uid's entry holds the shader and its texture mask, and the memo
   * points to it.  The result reports success.
   */
  function Insert(s: CacheState, uid: Uid, code: Bytecode, b: Backend): (r: (CacheState, bool))
    requires Sound(b)
    ensures r.1 <==> Created(b, code).Obj?
    ensures !r.1 ==> r.0 == s
    ensures r.1 ==> uid in r.0.entries && r.0.entries[uid] == EntryValue(Created(b, code), TextureMask(b.reflect(code)))
    ensures r.1 ==> r.0.last == Some(uid)
    ensures forall k :: k in s.entries && k != uid ==> k in r.0.entries && r.0.entries[k] == s.entries[k]
    ensures r.0.entries.Keys <= s.entries.Keys + {uid}
    ensures r.0.lastUid == s.lastUid && r.0.disk == s.disk && r.0.compiles == s.compiles
  {
    var shader := Created(b, code);
    if shader.Null? then (s, false)
    else
      var entry := EntryValue(shader, TextureMask(b.reflect(code)));
      (s.(entries := s.entries[uid := entry], last := Some(uid)), true)
  }

  /**
   * `SetShader` as written: the fast path trusts the memo, a hit moves the
   * memo, a miss compiles, appends to the disk log and inserts.  `last_uid`
   * is updated before the lookup, also when the compile then fails.
   */
  function Select(s: CacheState, uid: Uid, b: Backend): (r: (CacheState, bool))
    requires Sound(b) && Consistent(s)
    ensures Consistent(r.0)
    ensures r.0.lastUid == uid
    ensures r.1 ==> r.0.last.Some? && r.0.entries[r.0.last.value].shader.Obj?
    ensures forall k :: k in s.entries && k != uid ==> k in r.0.entries && r.0.entries[k] == s.entries[k]
    ensures r.0.entries.Keys <= s.entries.Keys + {uid}
    ensures r.0.compiles == s.compiles || r.0.compiles == s.compiles + [uid]
    ensures r.0.compiles != s.compiles <==> uid !in s.entries && !(s.last.Some? && uid == s.lastUid)
    ensures r.0.compiles == s.compiles ==> r.0.disk == s.disk && r.0.entries == s.entries
    ensures r.0.disk == s.disk ||
            (b.compile(uid).Compiled? && r.0.disk == s.disk + [Record(uid, b.compile(uid).code)])
    // The fast path: nothing changes and the memo's shader decides.
    ensures s.last.Some? && uid == s.lastUid ==> r == (s, s.entries[s.last.value].shader.Obj?)
    // A hit: the memo moves to the uid's entry, nothing is compiled or appended.
    ensures !(s.last.Some? && uid == s.lastUid) && uid in s.entries ==>
      r.0 == s.(lastUid := uid, last := Some(uid)) && (r.1 <==> s.entries[uid].shader.Obj?)
    // A miss whose compile fails: only `last_uid` and the compile count move.
    ensures !(s.last.Some? && uid == s.lastUid) && uid !in s.entries && b.compile(uid).Failed? ==>
      !r.1 && r.0 == s.(lastUid := uid, compiles := s.compiles + [uid])
    // A miss whose compile succeeds: the record is appended whatever the
    // creation gives, and the result is whether a shader was created.
    ensures !(s.last.Some? && uid == s.lastUid) && uid !in s.entries && b.compile(uid).Compiled? ==>
      var code := b.compile(uid).code;
      && r.0.disk == s.disk + [Record(uid, code)]
      && (r.1 <==> Created(b, code).Obj?)
      && (r.1 ==> r.0.entries == s.entries[uid := EntryValue(Created(b, code), TextureMask(b.reflect(code)))]
                  && r.0.last == Some(uid))
      && (!r.1 ==> r.0 == s.(lastUid := uid, compiles := s.compiles + [uid], disk := s.disk + [Record(uid, code)]))
  {
    if s.last.Some? && uid == s.lastUid then
      (s, s.entries[s.last.value].shader.Obj?)
    else if uid in s.entries then
      (s.(lastUid := uid, last := Some(uid)), s.entries[uid].shader.Obj?)
    else
      var s1 := s.(lastUid := uid, compiles := s.compiles + [uid]);
      match b.compile(uid)
      case Failed => (s1, false)
      case Compiled(code) => Insert(s1.(disk := s.disk + [Record(uid, code)]), uid, code, b)
  }

  /**
   * A failed compile adds no entry and no disk record and leaves the memo
   * where it was, while `last_uid` already names the new uid.  Selecting
   * the uid again then compiles it again when the memo is empty, and
   * otherwise takes the fast path on the old memo.
   */
  lemma FailedCompileIsNotMemoized(s: CacheState, uid: Uid, b: Backend)
    requires Sound(b) && Consistent(s)
    requires uid !in s.entries && !(s.last.Some? && uid == s.lastUid) && b.compile(uid).Failed?
    ensures var (s1, ok1) := Select(s, uid, b);
      && !ok1 && s1 == s.(lastUid := uid, compiles := s.compiles + [uid])
      && (s.last.None? ==> Select(s1, uid, b) == (s1.(compiles := s.compiles + [uid, uid]), false))
      && (s.last.Some? ==> Select(s1, uid, b) == (s1, s.entries[s.last.value].shader.Obj?))
  {
    var s1 := Select(s, uid, b).0;
    assert s1.compiles + [uid] == s.compiles + [uid, uid];
  }

  /**
   * The stale memo: after `A` is selected, a uid `B` whose compile fails
   * leaves `last_entry` on `A` but sets `last_uid` to `B`.  Selecting `B` a
   * second time takes the fast path, reports success and leaves `A`'s
   * shader active although `B` has no entry.
   */
  lemma StaleMemoAfterFailedCompile(s: CacheState, a: Uid, uid: Uid, b: Backend)
    requires Sound(b) && Consistent(s)
    requires s.last == Some(a) && s.lastUid == a && s.entries[a].shader.Obj?
    requires uid != a && uid !in s.entries && b.compile(uid).Failed?
    ensures var (s1, ok1) := Select(s, uid, b);
      var (s2, ok2) := Select(s1, uid, b);
      !ok1 && ok2 && uid !in s2.entries && s2.last == Some(a)
  {
  }

  /**
   * `SetShader` with the memo kept sound: `last_uid` is assigned together
   * with `last_entry` (on a hit and after a successful insert), so a failed
   * compile or creation leaves both as they were.
   */
  function SelectFixed(s: CacheState, uid: Uid, b: Backend): (r: (CacheState, bool))
    requires Sound(b) && MemoSound(s)
    ensures MemoSound(r.0)
    ensures r.1 <==> uid in r.0.entries && r.0.entries[uid].shader.Obj?
    ensures r.1 ==> r.0.last == Some(uid)
    ensures forall k :: k in s.entries && k != uid ==> k in r.0.entries && r.0.entries[k] == s.entries[k]
    ensures r.0.entries.Keys <= s.entries.Keys + {uid}
    ensures r.0.compiles != s.compiles <==> uid !in s.entries
    ensures r.0.compiles == s.compiles ==> r.0.disk == s.disk && r.0.entries == s.entries
  {
    if s.last.Some? && uid == s.lastUid then
      (s, s.entries[s.last.value].shader.Obj?)
    else if uid in s.entries then
      (s.(lastUid := uid, last := Some(uid)), s.entries[uid].shader.Obj?)
    else
      var s1 := s.(compiles := s.compiles + [uid]);
      match b.compile(uid)
      case Failed => (s1, false)
      case Compiled(code) =>
        var (s2, ok) := Insert(s1.(disk := s.disk + [Record(uid, code)]), uid, code, b);
        (if ok then s2.(lastUid := uid) else s2, ok)
  }

  /**
   * With the sound memo, selecting the same uid twice gives the same answer,
   * and a successful selection is not compiled again.
   */
  lemma {:induction false} SelectFixedIsStable(s: CacheState, uid: Uid, b: Backend)
    requires Sound(b) && MemoSound(s)
    ensures var (s1, ok1) := SelectFixed(s, uid, b);
      var (s2, ok2) := SelectFixed(s1, uid, b);
      ok2 == ok1 && (ok1 ==> s2 == s1)
  {
    var (s1, ok1) := SelectFixed(s, uid, b);
    if uid in s.entries {
      assert s1.entries == s.entries;
    } else if b.compile(uid).Compiled? {
      var code := b.compile(uid).code;
      assert ok1 <==> Created(b, code).Obj?;
    }
  }

  /** Loading disk records through the inserter: `InsertByteCode` for each, in order. */
  function Load(s: CacheState, records: seq<Record>, b: Backend): (r: CacheState)
    requires Sound(b)
    ensures r.disk == s.disk && r.compiles == s.compiles && r.lastUid == s.lastUid
  {
    if |records| == 0 then s
    else
      var last := records[|records| - 1];
      Insert(Load(s, records[..|records| - 1], b), last.uid, last.code, b).0
  }

  /** A uid is in the loaded map iff it was there or some record of it yields a shader. */
  lemma {:induction false} LoadedKeys(s: CacheState, records: seq<Record>, b: Backend, uid: Uid)
    requires Sound(b)
    ensures uid in Load(s, records, b).entries <==>
      uid in s.entries || exists i :: 0 <= i < |records| && records[i].uid == uid && Created(b, records[i].code).Obj?
  {
    if |records| > 0 {
      var init := records[..|records| - 1];
      LoadedKeys(s, init, b, uid);
      if exists i :: 0 <= i < |records| && records[i].uid == uid && Created(b, records[i].code).Obj? {
        var i :| 0 <= i < |records| && records[i].uid == uid && Created(b, records[i].code).Obj?;
        if i < |records| - 1 {
          assert init[i] == records[i];
        }
      }
      if exists i :: 0 <= i < |init| && init[i].uid == uid && Created(b, init[i].code).Obj? {
        var i :| 0 <= i < |init| && init[i].uid == uid && Created(b, init[i].code).Obj?;
        assert records[i] == init[i];
      }
    }
  }

  /**
   * The entry a load leaves for a uid is the one its last successful record
   * made: that record's shader and the texture mask of its bytecode.
   */
  lemma {:induction false} LoadedValue(s: CacheState, records: seq<Record>, b: Backend, i: nat)
    requires Sound(b) && i < |records| && Created(b, records[i].code).Obj?
    requires forall j :: i < j < |records| && records[j].uid == records[i].uid ==> Created(b, records[j].code).Null?
    ensures var e := Load(s, records, b).entries;
      records[i].uid in e &&
      e[records[i].uid] == EntryValue(Created(b, records[i].code), TextureMask(b.reflect(records[i].code)))
  {
    if i < |records| - 1 {
      var init := records[..|records| - 1];
      assert init[i] == records[i];
      forall j | i < j < |init| && init[j].uid == init[i].uid
        ensures Created(b, init[j].code).Null?
      {
        assert init[j] == records[j];
      }
      LoadedValue(s, init, b, i);
    }
  }

  /** A uid none of whose records yields a shader keeps the entry it had before the load. */
  lemma {:induction false} LoadKeepsUntouched(s: CacheState, records: seq<Record>, b: Backend, uid: Uid)
    requires Sound(b) && uid in s.entries
    requires forall j :: 0 <= j < |records| && records[j].uid == uid ==> Created(b, records[j].code).Null?
    ensures uid in Load(s, records, b).entries && Load(s, records, b).entries[uid] == s.entries[uid]
  {
    if |records| > 0 {
      var init := records[..|records| - 1];
      forall j | 0 <= j < |init| && init[j].uid == uid
        ensures Created(b, init[j].code).Null?
      {
        assert init[j] == records[j];
      }
      LoadKeepsUntouched(s, init, b, uid);
    }
  }

  /**
   * A shader compiled by `SetShader` in one session is recreated from the
   * disk log by the next session's `Init`, whenever its bytecode yields a
   * shader object: the reloaded entry holds that shader and its mask.
   */
  lemma CompiledShaderSurvivesReload(s: CacheState, uid: Uid, b: Backend, start: CacheState)
    requires Sound(b) && Consistent(s)
    requires uid !in s.entries && !(s.last.Some? && uid == s.lastUid)
    requires b.compile(uid).Compiled? && Created(b, b.compile(uid).code).Obj?
    ensures var code := b.compile(uid).code;
      var e := Load(start, Select(s, uid, b).0.disk, b).entries;
      uid in e && e[uid] == EntryValue(Created(b, code), TextureMask(b.reflect(code)))
  {
    var disk := Select(s, uid, b).0.disk;
    assert disk == s.disk + [Record(uid, b.compile(uid).code)];
    LoadedValue(start, disk, b, |disk| - 1);
  }

  /** `PSCacheEntry`: one cached pixel shader and its texture mask. */
  class PSCacheEntry {
    var shader: Ptr
    var mask: bv32

    /** A fresh entry: no shader, empty mask. */
    constructor ()
      ensures shader == Null && mask == 0
    {
      shader := Null;
      mask := 0;
    }

    /** `SAFE_RELEASE(shader)`: release a non-null shader and null the field. */
    method Destroy(log: RefLog)
      modifies this, log
      ensures shader == Null && mask == old(mask)
      ensures log.events == old(log.events) + ReleaseOf(old(shader))
    {
      log.events := log.events + ReleaseOf(shader);
      shader := Null;
    }
  }

  /** The helper programs the file owns. */
  datatype Program = ColorCopy | ColorMatrix | DepthMatrix | Rgba6ToRgb8 | Rgb8ToRgba6
  {
    /** The reinterpretation programs also build their single-sampled variant lazily. */
    predicate IsReinterp()
    {
      this == Rgba6ToRgb8 || this == Rgb8ToRgba6
    }
  }

  /** Which text a helper program is built from: single-sampled, or MSAA for a sample count. */
  datatype Variant = SingleSample | MultiSample(samples: nat)

  /** The value of a program slot; a slot never filled is null. */
  function SlotOf(slots: map<Program, Ptr>, p: Program): Ptr
  {
    if p in slots then slots[p] else Null
  }

  /** The static program slots of PixelShaderCache.cpp: slot 0 single-sampled, slot 1 MSAA. */
  class HelperPrograms {
    /** `CompileAndCreatePixelShader` on a program's text. */
    const build: (Program, Variant) -> Ptr
    /** The same for the clear program. */
    const buildClear: Ptr

    var clear: Ptr
    var single: map<Program, Ptr>
    var multi: map<Program, Ptr>
    /** The programs built so far, in order. */
    ghost var builds: seq<(Program, Variant)>

    constructor (build: (Program, Variant) -> Ptr, buildClear: Ptr)
      ensures this.build == build && this.buildClear == buildClear
      ensures clear == Null && single == map[] && multi == map[] && builds == []
    {
      this.build := build;
      this.buildClear := buildClear;
      clear := Null;
      single := map[];
      multi := map[];
      builds := [];
    }

    /** The part of `Init` that builds the clear program and slot 0 of copy and matrix programs. */
    method Init()
      modifies this
      ensures clear == buildClear
      ensures single == old(single)[ColorCopy := build(ColorCopy, SingleSample)]
        [ColorMatrix := build(ColorMatrix, SingleSample)][DepthMatrix := build(DepthMatrix, SingleSample)]
      ensures multi == old(multi)
      ensures builds == old(builds) + [(ColorCopy, SingleSample), (ColorMatrix, SingleSample), (DepthMatrix, SingleSample)]
    {
      clear := buildClear;
      single := single[ColorCopy := build(ColorCopy, SingleSample)];
      single := single[ColorMatrix := build(ColorMatrix, SingleSample)];
      single := single[DepthMatrix := build(DepthMatrix, SingleSample)];
      builds := builds + [(ColorCopy, SingleSample), (ColorMatrix, SingleSample), (DepthMatrix, SingleSample)];
    }

    /**
     * `GetColorCopyProgram`, `GetColorMatrixProgram`, `GetDepthMatrixProgram`,
     * `ReinterpRGBA6ToRGB8` and `ReinterpRGB8ToRGBA6`.  Single-sampled
     * requests read slot 0 (the reinterpretation programs build it on first
     * use); MSAA requests build slot 1 for the sample count only while it is
     * empty and reuse it afterwards.
     */
    method Get(p: Program, multisampled: bool, samples: nat) returns (r: Ptr)
      modifies this
      ensures clear == old(clear)
      ensures !multisampled || samples == 1 ==>
        multi == old(multi) && r == SlotOf(single, p) &&
        if p.IsReinterp() && SlotOf(old(single), p).Null? then
          single == old(single)[p := build(p, SingleSample)] && builds == old(builds) + [(p, SingleSample)]
        else
          single == old(single) && builds == old(builds)
      ensures multisampled && samples != 1 ==>
        single == old(single) && r == SlotOf(multi, p) &&
        if SlotOf(old(multi), p).Null? then
          multi == old(multi)[p := build(p, MultiSample(samples))] && builds == old(builds) + [(p, MultiSample(samples))]
        else
          multi == old(multi) && builds == old(builds)
    {
      if !multisampled || samples == 1 {
        if p.IsReinterp() && SlotOf(single, p).Null? {
          single := single[p := build(p, SingleSample)];
          builds := builds + [(p, SingleSample)];
        }
        r := SlotOf(single, p);
      } else {
        if SlotOf(multi, p).Null? {
          multi := multi[p := build(p, MultiSample(samples))];
          builds := builds + [(p, MultiSample(samples))];
        }
        r := SlotOf(multi, p);
      }
    }

    /** `InvalidateMSAAShaders`: reset slot 1 of every program, releasing what it held. */
    method InvalidateMSAAShaders(log: RefLog)
      modifies this, log
      ensures clear == old(clear) && single == old(single) && builds == old(builds)
      ensures forall p :: SlotOf(multi, p) == Null
      ensures log.events == old(log.events)
        + ReleaseOf(SlotOf(old(multi), ColorCopy)) + ReleaseOf(SlotOf(old(multi), ColorMatrix))
        + ReleaseOf(SlotOf(old(multi), DepthMatrix)) + ReleaseOf(SlotOf(old(multi), Rgb8ToRgba6))
        + ReleaseOf(SlotOf(old(multi), Rgba6ToRgb8))
    {
      log.events := log.events
        + ReleaseOf(SlotOf(multi, ColorCopy)) + ReleaseOf(SlotOf(multi, ColorMatrix))
        + ReleaseOf(SlotOf(multi, DepthMatrix)) + ReleaseOf(SlotOf(multi, Rgb8ToRgba6))
        + ReleaseOf(SlotOf(multi, Rgba6ToRgb8));
      multi := map[];
    }
  }

  /** The two pixel constant buffers: with and without per-pixel lighting. */
  datatype ConstantBuffer = LitBuffer | UnlitBuffer

  /** One `UpdateSubresource` call: the buffer and the bytes uploaded. */
  datatype Upload = Upload(target: ConstantBuffer, data: seq<bv8>)

  /**
   * The pixel constants: `PixelShaderManager::dirty` and `::constants`, the
   * shadow copy `s_shadow`, the uploads issued, and the buffer widths.
   */
  class PixelConstants {
    /** `sizeof(PixelShaderConstants)` and `sizeof(PixelShaderNoLightConstants)`. */
    const litSize: nat
    const unlitSize: nat

    var dirty: bool
    var constants: seq<bv8>
    var shadow: seq<bv8>
    var uploads: seq<Upload>
    var litWidth: nat
    var unlitWidth: nat

    ghost predicate Valid()
      reads this
    {
      unlitSize <= litSize && |constants| == litSize && |shadow| == litSize
    }

    constructor (litSize: nat, unlitSize: nat)
      requires unlitSize <= litSize
      ensures this.litSize == litSize && this.unlitSize == unlitSize && Valid()
      ensures !dirty && uploads == [] && litWidth == 0 && unlitWidth == 0
    {
      this.litSize := litSize;
      this.unlitSize := unlitSize;
      dirty := false;
      constants := seq(litSize, _ => 0);
      shadow := seq(litSize, _ => 0);
      uploads := [];
      litWidth := 0;
      unlitWidth := 0;
    }

    /** The buffer creation in `Init`: each width is its size rounded up to 16. */
    method CreateBuffers()
      requires Valid()
      modifies this
      ensures Valid()
      ensures litWidth == Align16(litSize) && unlitWidth == Align16(unlitSize)
      ensures dirty == old(dirty) && constants == old(constants) && shadow == old(shadow) && uploads == old(uploads)
    {
      litWidth := Align16(litSize);
      unlitWidth := Align16(unlitSize);
    }

    /**
     * `GetConstantBuffer`: when dirty, clear the flag and, only if the first
     * `sz` bytes of the constants differ from the shadow, copy them into the
     * shadow and upload them.  When not dirty, nothing changes.
     */
    method GetConstantBuffer(pixelLighting: bool) returns (buf: ConstantBuffer)
      requires Valid()
      modifies this
      ensures Valid()
      ensures buf == (if pixelLighting then LitBuffer else UnlitBuffer)
      ensures constants == old(constants) && litWidth == old(litWidth) && unlitWidth == old(unlitWidth)
      ensures !old(dirty) ==> !dirty && shadow == old(shadow) && uploads == old(uploads)
      ensures old(dirty) ==> (
        var sz := if pixelLighting then litSize else unlitSize;
        !dirty && shadow[..sz] == constants[..sz] && shadow[sz..] == old(shadow)[sz..] &&
        if old(shadow)[..sz] == constants[..sz] then uploads == old(uploads)
        else uploads == old(uploads) + [Upload(buf, constants[..sz])])
    {
      buf := if pixelLighting then LitBuffer else UnlitBuffer;
      if dirty {
        dirty := false;
        var sz := if pixelLighting then litSize else unlitSize;
        if shadow[..sz] != constants[..sz] {
          shadow := constants[..sz] + shadow[sz..];
          uploads := uploads + [Upload(buf, shadow[..sz])];
        }
      }
    }
  }

  /** No two uids share an entry object. */
  predicate Distinct(shaders: map<Uid, PSCacheEntry>)
  {
    forall a, b :: a in shaders && b in shaders && a != b ==> shaders[a] != shaders[b]
  }

  /** `e` still holds `shader` and `mask`. */
  ghost predicate Unchanged(e: PSCacheEntry, shader: Ptr, mask: bv32)
    reads e
  {
    e.shader == shader && e.mask == mask
  }

  /** Writing one entry of the map changes the view at that uid only. */
  lemma StoredView(c: PixelShaderCache, uid: Uid, before: map<Uid, EntryValue>)
    requires uid in c.shaders
    requires c.shaders.Keys == before.Keys + {uid}
    requires forall k :: k in before && k != uid ==>
      EntryValue(c.shaders[k].shader, c.shaders[k].mask) == before[k]
    ensures c.View().entries == before[uid := EntryValue(c.shaders[uid].shader, c.shaders[uid].mask)]
  {
  }

  /** A cache none of whose objects changed keeps its validity and its view. */
  twostate lemma Untouched(c: PixelShaderCache)
    requires old(c.Valid()) && unchanged(c)
    requires forall e | e in old(c.shaders).Values :: unchanged(e)
    ensures c.Valid() && c.View() == old(c.View())
  {
  }

  /** Changing nothing but the cache's own fields keeps the view's entries. */
  twostate lemma EntriesKept(c: PixelShaderCache)
    requires c.shaders == old(c.shaders)
    requires forall k :: k in c.shaders ==> Unchanged(c.shaders[k], old(c.shaders[k].shader), old(c.shaders[k].mask))
    ensures c.View().entries == old(c.View()).entries
  {
  }

  /** The cache proper: the map, the memo and the disk log. */
  class PixelShaderCache {
    const backend: Backend
    const programs: HelperPrograms
    const cbuf: PixelConstants

    var shaders: map<Uid, PSCacheEntry>
    var lastEntry: PSCacheEntry?
    /** The key of the node `lastEntry` points to. */
    ghost var lastKey: Option<Uid>
    var lastUid: Uid
    /** The disk cache file: the records it holds, in the order appended. */
    var disk: seq<Record>
    ghost var compiles: seq<Uid>

    ghost predicate Valid()
      reads this, shaders.Values
    {
      Sound(backend) && Distinct(shaders) &&
      (lastEntry == null <==> lastKey.None?) &&
      (lastKey.Some? ==> lastKey.value in shaders && shaders[lastKey.value] == lastEntry)
    }

    /** The abstract state of the cache. */
    ghost function View(): CacheState
      reads this, shaders.Values
    {
      CacheState(map k | k in shaders :: EntryValue(shaders[k].shader, shaders[k].mask),
        lastKey, lastUid, disk, compiles)
    }

    /** The statics before `Init`: an empty map, no memo, and the disk file as found. */
    constructor (backend: Backend, programs: HelperPrograms, cbuf: PixelConstants, disk: seq<Record>)
      requires Sound(backend)
      ensures this.backend == backend && this.programs == programs && this.cbuf == cbuf
      ensures Valid() && View() == CacheState(map[], None, 0, disk, [])
      ensures lastEntry == null
    {
      this.backend := backend;
      this.programs := programs;
      this.cbuf := cbuf;
      shaders := map[];
      lastEntry := null;
      lastKey := None;
      lastUid := 0;
      this.disk := disk;
      compiles := [];
    }

    /** `GetActiveShader`: the shader of the entry `last_entry` points to. */
    function GetActiveShader(): (r: Ptr)
      requires Valid() && lastEntry != null
      reads this, lastEntry, shaders.Values
      ensures lastKey.Some? && r == View().entries[lastKey.value].shader
    {
      lastEntry.shader
    }

    /** `GetActiveMask`: the texture mask of that entry. */
    function GetActiveMask(): (r: bv32)
      requires Valid() && lastEntry != null
      reads this, lastEntry, shaders.Values
      ensures lastKey.Some? && r == View().entries[lastKey.value].mask
    {
      lastEntry.mask
    }

    /** `InsertByteCode`, reporting success when the shader was created. */
    method InsertByteCode(uid: Uid, code: Bytecode) returns (ok: bool)
      requires Valid()
      modifies this, shaders.Values
      ensures Valid()
      ensures (View(), ok) == Insert(old(View()), uid, code, backend)
      ensures forall k :: k in shaders ==> (k in old(shaders) && shaders[k] == old(shaders[k])) || fresh(shaders[k])
    {
      var shader := Created(backend, code);
      if shader.Null? {
        return false;
      }
      var mask := ReflectTextureMask(backend.reflect(code));
      Store(uid, shader, mask);
      ok := true;
    }

    /**
     * The table update of `InsertByteCode`: the entry for `uid`, made if
     * missing, takes the shader and the mask and becomes the memo.
     */
    method Store(uid: Uid, shader: Ptr, mask: bv32)
      requires Valid()
      modifies this, shaders.Values
      ensures Valid()
      ensures View() == old(View()).(entries := old(View()).entries[uid := EntryValue(shader, mask)], last := Some(uid))
      ensures forall k :: k in shaders ==> (k in old(shaders) && shaders[k] == old(shaders[k])) || fresh(shaders[k])
    {
      ghost var before := View().entries;
      var entry: PSCacheEntry;
      if uid in shaders {
        entry := shaders[uid];
      } else {
        entry := new PSCacheEntry();
        shaders := shaders[uid := entry];
      }
      entry.shader := shader;
      entry.mask := mask;
      lastEntry := entry;
      lastKey := Some(uid);
      forall k | k in before && k != uid
        ensures shaders[k] == old(shaders[k]) && EntryValue(shaders[k].shader, shaders[k].mask) == before[k]
      {
        assert shaders[k] != entry;
      }
      StoredView(this, uid, before);
    }

    /** `SetShader` for the uid `GetPixelShaderUid` computed. */
    method SetShader(uid: Uid) returns (ok: bool)
      requires Valid()
      modifies this, shaders.Values
      ensures Valid()
      ensures (View(), ok) == Select(old(View()), uid, backend)
      ensures forall k :: k in shaders ==> (k in old(shaders) && shaders[k] == old(shaders[k])) || fresh(shaders[k])
    {
      if lastEntry != null && uid == lastUid {
        assert View().entries[lastKey.value].shader == lastEntry.shader;
        return lastEntry.shader.Obj?;
      }
      lastUid := uid;
      if uid in shaders {
        lastEntry := shaders[uid];
        lastKey := Some(uid);
        EntriesKept(this);
        return lastEntry.shader.Obj?;
      }
      compiles := compiles + [uid];
      EntriesKept(this);
      var compiled := CompileShader(backend.compile(uid));
      if !compiled.ok {
        return false;
      }
      var code := compiled.blob.value;
      disk := disk + [Record(uid, code)];
      assert code == backend.compile(uid).code;
      assert View() == old(View()).(lastUid := uid, compiles := old(compiles) + [uid], disk := old(disk) + [Record(uid, code)]);
      ok := InsertByteCode(uid, code);
    }

    /**
     * `Clear`: destroy every entry in ascending uid order, empty the map and
     * null the memo.  `order` is the order in which entries were destroyed.
     */
    method Clear(log: RefLog) returns (ghost order: seq<Uid>, ghost released: seq<Ptr>)
      requires Valid()
      modifies this, shaders.Values, log
      ensures Valid() && lastEntry == null && shaders == map[]
      ensures View() == old(View()).(entries := map[], last := None)
      ensures StrictlyIncreasing(order) && forall k :: k in order <==> k in old(shaders)
      ensures forall k :: k in old(shaders) ==> old(shaders[k]).shader == Null
      ensures |released| == |order| &&
        forall j :: 0 <= j < |order| ==> order[j] in old(shaders) && released[j] == old(shaders[order[j]].shader)
      ensures log.events == old(log.events) + ReleasesOf(released)
    {
      var keys := AscendingKeys(shaders.Keys);
      released := DestroyInOrder(keys, log);
      order := keys;
      shaders := map[];
      lastEntry := null;
      lastKey := None;
      assert View().entries == map[];
    }

    /** The loop of `Clear`: `Destroy` on the entries of `keys`, in that order. */
    method DestroyInOrder(keys: seq<Uid>, log: RefLog) returns (ghost released: seq<Ptr>)
      requires Distinct(shaders) && StrictlyIncreasing(keys)
      requires forall j :: 0 <= j < |keys| ==> keys[j] in shaders
      modifies shaders.Values, log
      ensures forall j :: 0 <= j < |keys| ==> shaders[keys[j]].shader == Null
      ensures |released| == |keys| && forall j :: 0 <= j < |keys| ==> released[j] == old(shaders[keys[j]].shader)
      ensures forall k :: k in shaders ==> shaders[k].mask == old(shaders[k].mask)
      ensures log.events == old(log.events) + ReleasesOf(released)
    {
      released := [];
      for i := 0 to |keys|
        invariant |released| == i
        invariant forall j :: 0 <= j < i ==> shaders[keys[j]].shader == Null
        invariant forall j :: 0 <= j < i ==> released[j] == old(shaders[keys[j]].shader)
        invariant forall j :: i <= j < |keys| ==> shaders[keys[j]].shader == old(shaders[keys[j]].shader)
        invariant forall k :: k in shaders ==> shaders[k].mask == old(shaders[k].mask)
        invariant log.events == old(log.events) + ReleasesOf(released)
      {
        var entry := shaders[keys[i]];
        ghost var logged := log.events;
        ghost var next := released + [entry.shader];
        assert next[..i] == released;
        entry.Destroy(log);
        assert logged + ReleaseOf(next[i]) == old(log.events) + (ReleasesOf(released) + ReleaseOf(next[i]));
        released := next;
        assert forall j :: 0 <= j < |keys| && j != i ==> shaders[keys[j]] != entry;
      }
    }

    /**
     * `g_ps_disk_cache.OpenAndRead` with the inserter: every record of the
     * disk file, in order, goes through `InsertByteCode`.
     */
    method LoadDisk()
      requires Valid()
      modifies this, shaders.Values
      ensures Valid()
      ensures View() == Load(old(View()), disk, backend)
      ensures forall k :: k in shaders ==> (k in old(shaders) && shaders[k] == old(shaders[k])) || fresh(shaders[k])
    {
      var records := disk;
      var i := 0;
      while i < |records|
        invariant 0 <= i <= |records|
        invariant Valid() && disk == records
        invariant View() == Load(old(View()), records[..i], backend)
        invariant forall k :: k in shaders ==> (k in old(shaders) && shaders[k] == old(shaders[k])) || fresh(shaders[k])
      {
        var _ := InsertByteCode(records[i].uid, records[i].code);
        assert records[..i + 1][..i] == records[..i];
        i := i + 1;
      }
      assert records[..i] == records;
    }

    /**
     * The cache part of `Init`: clear the map, load every record of the disk
     * file through `InsertByteCode`, clear again when shader debugging is
     * on, and null the memo.
     */
    method Reload(debugging: bool, log: RefLog)
      requires Valid()
      modifies this, shaders.Values, log
      ensures Valid() && lastEntry == null
      ensures View() == (
        var cleared := old(View()).(entries := map[], last := None);
        if debugging then cleared else Load(cleared, disk, backend).(last := None))
    {
      var _, _ := Clear(log);
      ghost var cleared := View();
      LoadDisk();
      if debugging {
        var _, _ := Clear(log);
        assert View() == cleared;
      }
      ForgetMemo();
    }

    /** `last_entry = nullptr`: the memo is forgotten, the entries stay. */
    method ForgetMemo()
      requires Valid()
      modifies this
      ensures Valid() && lastEntry == null && View() == old(View()).(last := None)
    {
      lastEntry := null;
      lastKey := None;
      EntriesKept(this);
    }

    /**
     * `Init`: create the constant buffers and the helper programs, then
     * reload the cache from the disk file.
     */
    method Init(debugging: bool, log: RefLog)
      requires Valid() && cbuf.Valid()
      modifies this, shaders.Values, programs, cbuf, log
      ensures Valid() && cbuf.Valid() && lastEntry == null
      ensures View() == (
        var cleared := old(View()).(entries := map[], last := None);
        if debugging then cleared else Load(cleared, disk, backend).(last := None))
      ensures cbuf.litWidth == Align16(cbuf.litSize) && cbuf.unlitWidth == Align16(cbuf.unlitSize)
      ensures programs.clear == programs.buildClear && programs.multi == old(programs.multi)
      ensures SlotOf(programs.single, ColorCopy) == programs.build(ColorCopy, SingleSample)
      ensures SlotOf(programs.single, ColorMatrix) == programs.build(ColorMatrix, SingleSample)
      ensures SlotOf(programs.single, DepthMatrix) == programs.build(DepthMatrix, SingleSample)
    {
      cbuf.CreateBuffers();
      programs.Init();
      Reload(debugging, log);
    }
  }

  /**
   * `InsertByteCode` as written: the new entry's shader is move-assigned
   * from the local `UniquePtr`, and success is then tested on the local,
   * which the move has just nulled.  A shader that was created and stored
   * is therefore reported as a failure.
   */
  method InsertResultAsWritten(created: Ptr) returns (stored: Ptr, ok: bool)
    requires created.Obj?
    ensures stored == created && !ok
  {
    var log := new RefLog();
    var shader := new UniquePtr.Adopt(created);
    var entryShader := new UniquePtr.Empty();
    entryShader.MoveAssign(shader, log);
    stored := entryShader.Get();
    ok := shader.IsSet();
  }
}
