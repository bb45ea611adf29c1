/**
 * The vertex shader cache of the D3D11 backend (VertexShaderCache.h/.cpp).
 *
 * The same pattern as the pixel shader cache: an ordered map from uid to an
 * entry, a one-slot memo, compile on a miss, an append-only disk cache.  A
 * vertex entry keeps its bytecode as well as the shader object, because
 * input layouts are created against the bytecode of the active shader.
 */
module VertexShaderCache {
  import opened Wrappers
  import opened D3DPtr
  import opened D3DShader
  import opened Alignment
  import opened ShaderCache

  /** Generating and compiling the shader of a uid, and creating a vertex shader object. */
  datatype Backend = Backend(compile: Uid -> CompilerOutput, device: Bytecode -> DeviceResult)

  /** The shader `CreateVertexShaderFromByteCode` yields for `code`. */
  function Created(b: Backend, code: Bytecode): Ptr
  {
    CreateCheckedFromByteCode(b.device(code))
  }

  /** What a `VSCacheEntry` holds: the shader and its bytecode blob (none when null). */
  datatype EntryValue = EntryValue(shader: Ptr, bytecode: Option<Bytecode>)

  /** The map, the key `last_entry` points to, `last_uid`, the disk log and the uids compiled. */
  datatype CacheState = CacheState(
    entries: map<Uid, EntryValue>,
    last: Option<Uid>,
    lastUid: Uid,
    disk: seq<Record>,
    compiles: seq<Uid>)

  /** `last_entry` is null or points into the map. */
  predicate Consistent(s: CacheState)
  {
    s.last.Some? ==> s.last.value in s.entries
  }

  /** The memo the fast path trusts: `last_entry` is the entry of `last_uid`. */
  predicate MemoSound(s: CacheState)
  {
    s.last.Some? ==> s.last.value in s.entries && s.last.value == s.lastUid
  }

  /** Every entry with a shader also holds the bytecode the input layout needs. */
  predicate BytecodeKept(s: CacheState)
  {
    forall k :: k in s.entries && s.entries[k].shader.Obj? ==> s.entries[k].bytecode.Some?
  }

  /**
   * `InsertByteCode`: a failed creation leaves everything as it was;
   * otherwise the uid's entry holds the shader and the bytecode, the memo
   * points to it, and the result is true.
   */
  function Insert(s: CacheState, uid: Uid, code: Bytecode, b: Backend): (r: (CacheState, bool))
    ensures r.1 <==> Created(b, code).Obj?
    ensures !r.1 ==> r.0 == s
    ensures r.1 ==> uid in r.0.entries && r.0.entries[uid] == EntryValue(Created(b, code), Some(code))
    ensures r.1 ==> r.0.last == Some(uid)
    ensures forall k :: k in s.entries && k != uid ==> k in r.0.entries && r.0.entries[k] == s.entries[k]
    ensures r.0.entries.Keys <= s.entries.Keys + {uid}
    ensures r.0.lastUid == s.lastUid && r.0.disk == s.disk && r.0.compiles == s.compiles
  {
    var shader := Created(b, code);
    if shader.Null? then (s, false)
    else (s.(entries := s.entries[uid := EntryValue(shader, Some(code))], last := Some(uid)), true)
  }

  /**
   * `SetShader` as written: fast path on the memo, memo moved on a hit,
   * compile, append and insert on a miss; `last_uid` is set before the
   * lookup, also when the compile then fails.
   */
  function Select(s: CacheState, uid: Uid, b: Backend): (r: (CacheState, bool))
    requires Consistent(s)
    ensures Consistent(r.0)
    ensures BytecodeKept(s) ==> BytecodeKept(r.0)
    ensures r.0.lastUid == uid
    ensures r.1 ==> r.0.last.Some? && r.0.entries[r.0.last.value].shader.Obj?
    ensures forall k :: k in s.entries && k != uid ==> k in r.0.entries && r.0.entries[k] == s.entries[k]
    ensures r.0.entries.Keys <= s.entries.Keys + {uid}
    ensures r.0.compiles == s.compiles || r.0.compiles == s.compiles + [uid]
    ensures r.0.compiles != s.compiles <==> uid !in s.entries && !(s.last.Some? && uid == s.lastUid)
    ensures r.0.compiles == s.compiles ==> r.0.disk == s.disk && r.0.entries == s.entries
    ensures r.0.disk == s.disk ||
            (b.compile(uid).Compiled? && r.0.disk == s.disk + [Record(uid, b.compile(uid).code)])
    // The fast path: nothing changes and the memo's shader decides.
    ensures s.last.Some? && uid == s.lastUid ==> r == (s, s.entries[s.last.value].shader.Obj?)
    // A hit: the memo moves to the uid's entry, nothing is compiled or appended.
    ensures !(s.last.Some? && uid == s.lastUid) && uid in s.entries ==>
      r.0 == s.(lastUid := uid, last := Some(uid)) && (r.1 <==> s.entries[uid].shader.Obj?)
    // A miss whose compile fails: only `last_uid` and the compile count move.
    ensures !(s.last.Some? && uid == s.lastUid) && uid !in s.entries && b.compile(uid).Failed? ==>
      !r.1 && r.0 == s.(lastUid := uid, compiles := s.compiles + [uid])
    // A miss whose compile succeeds: the record is appended whatever the
    // creation gives, and the result is whether a shader was created.
    ensures !(s.last.Some? && uid == s.lastUid) && uid !in s.entries && b.compile(uid).Compiled? ==>
      var code := b.compile(uid).code;
      && r.0.disk == s.disk + [Record(uid, code)]
      && (r.1 <==> Created(b, code).Obj?)
      && (r.1 ==> r.0.entries == s.entries[uid := EntryValue(Created(b, code), Some(code))]
                  && r.0.last == Some(uid))
      && (!r.1 ==> r.0 == s.(lastUid := uid, compiles := s.compiles + [uid], disk := s.disk + [Record(uid, code)]))
  {
    if s.last.Some? && uid == s.lastUid then
      (s, s.entries[s.last.value].shader.Obj?)
    else if uid in s.entries then
      (s.(lastUid := uid, last := Some(uid)), s.entries[uid].shader.Obj?)
    else
      var s1 := s.(lastUid := uid, compiles := s.compiles + [uid]);
      match b.compile(uid)
      case Failed => (s1, false)
      case Compiled(code) => Insert(s1.(disk := s.disk + [Record(uid, code)]), uid, code, b)
  }

  /**
   * A failed compile adds no entry and no disk record and leaves the memo
   * where it was, while `last_uid` already names the new uid.  Selecting
   * the uid again then compiles it again when the memo is empty, and
   * otherwise takes the fast path on the old memo.
   */
  lemma FailedCompileIsNotMemoized(s: CacheState, uid: Uid, b: Backend)
    requires Consistent(s)
    requires uid !in s.entries && !(s.last.Some? && uid == s.lastUid) && b.compile(uid).Failed?
    ensures var (s1, ok1) := Select(s, uid, b);
      && !ok1 && s1 == s.(lastUid := uid, compiles := s.compiles + [uid])
      && (s.last.None? ==> Select(s1, uid, b) == (s1.(compiles := s.compiles + [uid, uid]), false))
      && (s.last.Some? ==> Select(s1, uid, b) == (s1, s.entries[s.last.value].shader.Obj?))
  {
    var s1 := Select(s, uid, b).0;
    assert s1.compiles + [uid] == s.compiles + [uid, uid];
  }

  /**
   * The stale memo of the vertex cache: after `A` is active, a uid whose
   * compile fails, selected twice, is reported as set up while `A`'s shader
   * and bytecode stay active.
   */
  lemma StaleMemoAfterFailedCompile(s: CacheState, a: Uid, uid: Uid, b: Backend)
    requires Consistent(s)
    requires s.last == Some(a) && s.lastUid == a && s.entries[a].shader.Obj?
    requires uid != a && uid !in s.entries && b.compile(uid).Failed?
    ensures var (s1, ok1) := Select(s, uid, b);
      var (s2, ok2) := Select(s1, uid, b);
      !ok1 && ok2 && uid !in s2.entries && s2.last == Some(a)
  {
  }

  /**
   * `SetShader` with `last_uid` assigned together with `last_entry`: a
   * successful selection makes the uid's own entry active, and a failed one
   * leaves the memo as it was.
   */
  function SelectFixed(s: CacheState, uid: Uid, b: Backend): (r: (CacheState, bool))
    requires MemoSound(s)
    ensures MemoSound(r.0)
    ensures BytecodeKept(s) ==> BytecodeKept(r.0)
    ensures r.1 <==> uid in r.0.entries && r.0.entries[uid].shader.Obj?
    ensures r.1 ==> r.0.last == Some(uid)
    ensures forall k :: k in s.entries && k != uid ==> k in r.0.entries && r.0.entries[k] == s.entries[k]
    ensures r.0.entries.Keys <= s.entries.Keys + {uid}
    ensures r.0.compiles != s.compiles <==> uid !in s.entries
    ensures r.0.compiles == s.compiles ==> r.0.disk == s.disk && r.0.entries == s.entries
  {
    if s.last.Some? && uid == s.lastUid then
      (s, s.entries[s.last.value].shader.Obj?)
    else if uid in s.entries then
      (s.(lastUid := uid, last := Some(uid)), s.entries[uid].shader.Obj?)
    else
      var s1 := s.(compiles := s.compiles + [uid]);
      match b.compile(uid)
      case Failed => (s1, false)
      case Compiled(code) =>
        var (s2, ok) := Insert(s1.(disk := s.disk + [Record(uid, code)]), uid, code, b);
        (if ok then s2.(lastUid := uid) else s2, ok)
  }

  /**
   * With the sound memo, the bytecode `GetActiveShaderBytecode` returns
   * after a fresh, successful selection is the bytecode compiled for that
   * uid.
   */
  lemma FreshSelectionActivatesItsBytecode(s: CacheState, uid: Uid, b: Backend)
    requires MemoSound(s) && uid !in s.entries
    requires SelectFixed(s, uid, b).1
    ensures var s1 := SelectFixed(s, uid, b).0;
      b.compile(uid).Compiled? && s1.last == Some(uid) &&
      s1.entries[uid].bytecode == Some(b.compile(uid).code)
  {
    if b.compile(uid).Compiled? {
      var code := b.compile(uid).code;
      assert Created(b, code).Obj?;
    }
  }

  /** Loading the disk records through the inserter, in order. */
  function Load(s: CacheState, records: seq<Record>, b: Backend): (r: CacheState)
    ensures r.disk == s.disk && r.compiles == s.compiles && r.lastUid == s.lastUid
    ensures BytecodeKept(s) ==> BytecodeKept(r)
  {
    if |records| == 0 then s
    else
      var last := records[|records| - 1];
      Insert(Load(s, records[..|records| - 1], b), last.uid, last.code, b).0
  }

  /** A uid is in the loaded map iff it was there or some record of it yields a shader. */
  lemma {:induction false} LoadedKeys(s: CacheState, records: seq<Record>, b: Backend, uid: Uid)
    ensures uid in Load(s, records, b).entries <==>
      uid in s.entries || exists i :: 0 <= i < |records| && records[i].uid == uid && Created(b, records[i].code).Obj?
  {
    if |records| > 0 {
      var init := records[..|records| - 1];
      LoadedKeys(s, init, b, uid);
      if exists i :: 0 <= i < |records| && records[i].uid == uid && Created(b, records[i].code).Obj? {
        var i :| 0 <= i < |records| && records[i].uid == uid && Created(b, records[i].code).Obj?;
        if i < |records| - 1 {
          assert init[i] == records[i];
        }
      }
      if exists i :: 0 <= i < |init| && init[i].uid == uid && Created(b, init[i].code).Obj? {
        var i :| 0 <= i < |init| && init[i].uid == uid && Created(b, init[i].code).Obj?;
        assert records[i] == init[i];
      }
    }
  }

  /**
   * The entry a load leaves for a uid is the one its last successful record
   * made: that record's shader and bytecode.
   */
  lemma {:induction false} LoadedValue(s: CacheState, records: seq<Record>, b: Backend, i: nat)
    requires i < |records| && Created(b, records[i].code).Obj?
    requires forall j :: i < j < |records| && records[j].uid == records[i].uid ==> Created(b, records[j].code).Null?
    ensures var e := Load(s, records, b).entries;
      records[i].uid in e && e[records[i].uid] == EntryValue(Created(b, records[i].code), Some(records[i].code))
  {
    if i < |records| - 1 {
      var init := records[..|records| - 1];
      assert init[i] == records[i];
      forall j | i < j < |init| && init[j].uid == init[i].uid
        ensures Created(b, init[j].code).Null?
      {
        assert init[j] == records[j];
      }
      LoadedValue(s, init, b, i);
    }
  }

  /** A uid none of whose records yields a shader keeps the entry it had before the load. */
  lemma {:induction false} LoadKeepsUntouched(s: CacheState, records: seq<Record>, b: Backend, uid: Uid)
    requires uid in s.entries
    requires forall j :: 0 <= j < |records| && records[j].uid == uid ==> Created(b, records[j].code).Null?
    ensures uid in Load(s, records, b).entries && Load(s, records, b).entries[uid] == s.entries[uid]
  {
    if |records| > 0 {
      var init := records[..|records| - 1];
      forall j | 0 <= j < |init| && init[j].uid == uid
        ensures Created(b, init[j].code).Null?
      {
        assert init[j] == records[j];
      }
      LoadKeepsUntouched(s, init, b, uid);
    }
  }

  /**
   * A shader compiled by `SetShader` in one session is recreated from the
   * disk log by the next session's `Init`, with the bytecode it was
   * compiled to, whenever that bytecode yields a shader object.
   */
  lemma CompiledShaderSurvivesReload(s: CacheState, uid: Uid, b: Backend, start: CacheState)
    requires Consistent(s)
    requires uid !in s.entries && !(s.last.Some? && uid == s.lastUid)
    requires b.compile(uid).Compiled? && Created(b, b.compile(uid).code).Obj?
    ensures var code := b.compile(uid).code;
      var e := Load(start, Select(s, uid, b).0.disk, b).entries;
      uid in e && e[uid] == EntryValue(Created(b, code), Some(code))
  {
    var disk := Select(s, uid, b).0.disk;
    assert disk == s.disk + [Record(uid, b.compile(uid).code)];
    LoadedValue(start, disk, b, |disk| - 1);
  }

  /**
   * The Release issued by the move-assignment `entry.shader = std::move(shader)`
   * of `InsertByteCode`: the shader the uid's entry held before, if any.
   */
  function InsertReleases(s: CacheState, uid: Uid, code: Bytecode, b: Backend): (es: seq<RefEvent>)
    ensures |es| <= 1
    ensures es != [] <==> Created(b, code).Obj? && uid in s.entries && s.entries[uid].shader.Obj?
  {
    if Created(b, code).Obj? && uid in s.entries then ReleaseOf(s.entries[uid].shader) else []
  }

  /** The Releases a load issues, record by record. */
  function LoadReleases(s: CacheState, records: seq<Record>, b: Backend): seq<RefEvent>
  {
    if |records| == 0 then []
    else
      var init := records[..|records| - 1];
      var last := records[|records| - 1];
      LoadReleases(s, init, b) + InsertReleases(Load(s, init, b), last.uid, last.code, b)
  }

  /**
   * Loading records with pairwise distinct uids, none of them already in
   * the map, replaces no shader and so releases nothing.
   */
  lemma {:induction false} DistinctLoadReleasesNothing(s: CacheState, records: seq<Record>, b: Backend)
    requires forall i, j :: 0 <= i < j < |records| ==> records[i].uid != records[j].uid
    requires forall i :: 0 <= i < |records| ==> records[i].uid !in s.entries
    ensures LoadReleases(s, records, b) == []
  {
    if |records| > 0 {
      var init := records[..|records| - 1];
      var last := records[|records| - 1];
      DistinctLoadReleasesNothing(s, init, b);
      forall i | 0 <= i < |init|
        ensures init[i].uid != last.uid
      {
        assert init[i] == records[i];
      }
      LoadedKeys(s, init, b, last.uid);
    }
  }

  /**
   * Two records of one uid that both yield a shader: the second insert
   * releases the first shader, once, and the entry ends with the second.
   */
  lemma DuplicateRecordReleasesFirstShader(s: CacheState, r1: Record, r2: Record, b: Backend)
    requires r1.uid == r2.uid && r1.uid !in s.entries
    requires Created(b, r1.code).Obj? && Created(b, r2.code).Obj?
    ensures LoadReleases(s, [r1, r2], b) == [Release(Created(b, r1.code))]
    ensures Load(s, [r1, r2], b).entries[r1.uid] == EntryValue(Created(b, r2.code), Some(r2.code))
  {
    assert [r1, r2][..1] == [r1];
    assert [r1][..0] == [];
    assert LoadReleases(s, [r1], b) == [];
    assert Load(s, [r1], b).entries[r1.uid].shader == Created(b, r1.code);
  }

  /** `(size & ~0xf) + 0x10`: a multiple of 16 strictly above the constants' size. */
  function ConstantBufferWidth(size: nat): (w: nat)
    ensures w % 16 == 0 && size < w <= size + 16
  {
    Floor16(size) + 16
  }

  /** `VSCacheEntry`: a shader and the bytecode it was created from. */
  class VSCacheEntry {
    var shader: Ptr
    var bytecode: Option<Bytecode>

    /** A fresh entry: null shader, null bytecode. */
    constructor ()
      ensures shader == Null && bytecode == None
    {
      shader := Null;
      bytecode := None;
    }

    /** `SetByteCode`: the blob replaces the entry's bytecode. */
    method SetByteCode(blob: Bytecode)
      modifies this
      ensures bytecode == Some(blob) && shader == old(shader)
    {
      bytecode := Some(blob);
    }

    /** `Destroy`: reset the shader, releasing it, and drop the bytecode. */
    method Destroy(log: RefLog)
      modifies this, log
      ensures shader == Null && bytecode == None
      ensures log.events == old(log.events) + ReleaseOf(old(shader))
    {
      log.events := log.events + ReleaseOf(shader);
      shader := Null;
      bytecode := None;
    }
  }

  /** No two uids share an entry object. */
  predicate Distinct(shaders: map<Uid, VSCacheEntry>)
  {
    forall a, b :: a in shaders && b in shaders && a != b ==> shaders[a] != shaders[b]
  }

  /**
   * The vertex constants: `VertexShaderManager::dirty` and `::constants`,
   * the uploads issued, and the width of the constant buffer.
   */
  class VertexConstants {
    /** `sizeof(VertexShaderConstants)`. */
    const size: nat

    var dirty: bool
    var constants: seq<bv8>
    var uploads: seq<seq<bv8>>
    var width: nat

    constructor (size: nat)
      ensures this.size == size && !dirty && uploads == [] && width == 0
    {
      this.size := size;
      dirty := false;
      constants := [];
      uploads := [];
      width := 0;
    }

    /** The buffer creation in `Init`. */
    method CreateBuffer()
      modifies this
      ensures width == ConstantBufferWidth(size)
      ensures dirty == old(dirty) && constants == old(constants) && uploads == old(uploads)
    {
      width := ConstantBufferWidth(size);
    }

    /** `GetConstantBuffer`: upload the constants only when dirty, then clear the flag. */
    method GetConstantBuffer()
      modifies this
      ensures !dirty && constants == old(constants) && width == old(width)
      ensures uploads == old(uploads) + (if old(dirty) then [constants] else [])
    {
      if dirty {
        uploads := uploads + [constants];
        dirty := false;
      }
    }
  }

  /** `e` still holds `shader` and `bytecode`. */
  ghost predicate Unchanged(e: VSCacheEntry, shader: Ptr, bytecode: Option<Bytecode>)
    reads e
  {
    e.shader == shader && e.bytecode == bytecode
  }

  /** Writing one entry of the map changes the view at that uid only. */
  lemma StoredView(c: VertexShaderCache, uid: Uid, before: map<Uid, EntryValue>)
    requires uid in c.shaders
    requires c.shaders.Keys == before.Keys + {uid}
    requires forall k :: k in before && k != uid ==>
      EntryValue(c.shaders[k].shader, c.shaders[k].bytecode) == before[k]
    ensures c.View().entries == before[uid := EntryValue(c.shaders[uid].shader, c.shaders[uid].bytecode)]
  {
  }

  /** A cache none of whose objects changed keeps its validity and its view. */
  twostate lemma Untouched(c: VertexShaderCache)
    requires old(c.Valid()) && unchanged(c)
    requires forall e | e in old(c.shaders).Values :: unchanged(e)
    ensures c.Valid() && c.View() == old(c.View())
    ensures c.lastEntry != null ==> c.GetActiveShaderBytecode() == old(c.GetActiveShaderBytecode())
  {
  }

  /** Changing nothing but the cache's own fields keeps the view's entries. */
  twostate lemma EntriesKept(c: VertexShaderCache)
    requires c.shaders == old(c.shaders)
    requires forall k :: k in c.shaders ==> Unchanged(c.shaders[k], old(c.shaders[k].shader), old(c.shaders[k].bytecode))
    ensures c.View().entries == old(c.View()).entries
  {
  }

  /** The cache proper: the map, the memo and the disk log. */
  class VertexShaderCache {
    const backend: Backend
    const cbuf: VertexConstants

    var shaders: map<Uid, VSCacheEntry>
    var lastEntry: VSCacheEntry?
    /** The key of the node `lastEntry` points to. */
    ghost var lastKey: Option<Uid>
    var lastUid: Uid
    /** The disk cache file: the records it holds, in the order appended. */
    var disk: seq<Record>
    ghost var compiles: seq<Uid>

    ghost predicate Valid()
      reads this, shaders.Values
    {
      Distinct(shaders) &&
      (lastEntry == null <==> lastKey.None?) &&
      (lastKey.Some? ==> lastKey.value in shaders && shaders[lastKey.value] == lastEntry) &&
      BytecodeKept(View())
    }

    /** The abstract state of the cache. */
    ghost function View(): CacheState
      reads this, shaders.Values
    {
      CacheState(map k | k in shaders :: EntryValue(shaders[k].shader, shaders[k].bytecode),
        lastKey, lastUid, disk, compiles)
    }

    /** The statics before `Init`: an empty map, no memo, and the disk file as found. */
    constructor (backend: Backend, cbuf: VertexConstants, disk: seq<Record>)
      ensures this.backend == backend && this.cbuf == cbuf
      ensures Valid() && View() == CacheState(map[], None, 0, disk, [])
      ensures lastEntry == null
    {
      this.backend := backend;
      this.cbuf := cbuf;
      shaders := map[];
      lastEntry := null;
      lastKey := None;
      lastUid := 0;
      this.disk := disk;
      compiles := [];
    }

    /** `GetActiveShader`: the shader of the entry `last_entry` points to. */
    function GetActiveShader(): (r: Ptr)
      requires Valid() && lastEntry != null
      reads this, lastEntry, shaders.Values
      ensures lastKey.Some? && r == View().entries[lastKey.value].shader
    {
      lastEntry.shader
    }

    /** `GetActiveShaderBytecode`: the bytecode of that entry. */
    function GetActiveShaderBytecode(): (r: Option<Bytecode>)
      requires Valid() && lastEntry != null
      reads this, lastEntry, shaders.Values
      ensures lastKey.Some? && r == View().entries[lastKey.value].bytecode
    {
      lastEntry.bytecode
    }

    /** `InsertByteCode`; `log` receives the Release of a shader the entry held before. */
    method InsertByteCode(uid: Uid, code: Bytecode, log: RefLog) returns (ok: bool)
      requires Valid()
      modifies this, shaders.Values, log
      ensures Valid()
      ensures (View(), ok) == Insert(old(View()), uid, code, backend)
      ensures log.events == old(log.events) + InsertReleases(old(View()), uid, code, backend)
      ensures forall k :: k in shaders ==> (k in old(shaders) && shaders[k] == old(shaders[k])) || fresh(shaders[k])
    {
      var shader := Created(backend, code);
      if shader.Null? {
        return false;
      }
      Store(uid, shader, code, log);
      ok := true;
    }

    /**
     * The table update of `InsertByteCode`: the entry for `uid`, made if
     * missing, takes the shader and the bytecode and becomes the memo.  The
     * entry's `UniquePtr` is move-assigned, so a shader it held is released.
     */
    method Store(uid: Uid, shader: Ptr, code: Bytecode, log: RefLog)
      requires Valid() && shader.Obj?
      modifies this, shaders.Values, log
      ensures Valid()
      ensures View() == old(View()).(entries := old(View()).entries[uid := EntryValue(shader, Some(code))], last := Some(uid))
      ensures log.events == old(log.events) +
        (if uid in old(View()).entries then ReleaseOf(old(View()).entries[uid].shader) else [])
      ensures forall k :: k in shaders ==> (k in old(shaders) && shaders[k] == old(shaders[k])) || fresh(shaders[k])
    {
      ghost var before := View().entries;
      var entry: VSCacheEntry;
      if uid in shaders {
        entry := shaders[uid];
      } else {
        entry := new VSCacheEntry();
        shaders := shaders[uid := entry];
      }
      log.events := log.events + ReleaseOf(entry.shader);
      entry.shader := shader;
      entry.SetByteCode(code);
      lastEntry := entry;
      lastKey := Some(uid);
      forall k | k in before && k != uid
        ensures shaders[k] == old(shaders[k]) && EntryValue(shaders[k].shader, shaders[k].bytecode) == before[k]
      {
        assert shaders[k] != entry;
      }
      StoredView(this, uid, before);
    }

    /**
     * `SetShader` for the uid `GetVertexShaderUid` computed.  It inserts
     * only a uid that has no entry, so no shader is released.
     */
    method SetShader(uid: Uid, log: RefLog) returns (ok: bool)
      requires Valid()
      modifies this, shaders.Values, log
      ensures Valid()
      ensures (View(), ok) == Select(old(View()), uid, backend)
      ensures log.events == old(log.events)
      ensures forall k :: k in shaders ==> (k in old(shaders) && shaders[k] == old(shaders[k])) || fresh(shaders[k])
    {
      if lastEntry != null && uid == lastUid {
        assert View().entries[lastKey.value].shader == lastEntry.shader;
        return lastEntry.shader.Obj?;
      }
      lastUid := uid;
      if uid in shaders {
        lastEntry := shaders[uid];
        lastKey := Some(uid);
        EntriesKept(this);
        return lastEntry.shader.Obj?;
      }
      compiles := compiles + [uid];
      EntriesKept(this);
      var compiled := CompileShader(backend.compile(uid));
      if !compiled.ok {
        return false;
      }
      var code := compiled.blob.value;
      disk := disk + [Record(uid, code)];
      assert code == backend.compile(uid).code;
      assert View() == old(View()).(lastUid := uid, compiles := old(compiles) + [uid], disk := old(disk) + [Record(uid, code)]);
      assert uid !in View().entries;
      ok := InsertByteCode(uid, code, log);
    }

    /**
     * `Clear`: destroy every entry in ascending uid order, empty the map and
     * null the memo; `released` are the shaders released, in that order.
     */
    method Clear(log: RefLog) returns (ghost order: seq<Uid>, ghost released: seq<Ptr>)
      requires Valid()
      modifies this, shaders.Values, log
      ensures Valid() && lastEntry == null && shaders == map[]
      ensures View() == old(View()).(entries := map[], last := None)
      ensures StrictlyIncreasing(order) && forall k :: k in order <==> k in old(shaders)
      ensures forall k :: k in old(shaders) ==> old(shaders[k]).shader == Null && old(shaders[k]).bytecode == None
      ensures |released| == |order| &&
        forall j :: 0 <= j < |order| ==> order[j] in old(shaders) && released[j] == old(shaders[order[j]].shader)
      ensures log.events == old(log.events) + ReleasesOf(released)
    {
      var keys := AscendingKeys(shaders.Keys);
      released := DestroyInOrder(keys, log);
      order := keys;
      shaders := map[];
      lastEntry := null;
      lastKey := None;
      assert View().entries == map[];
    }

    /** The loop of `Clear`: `Destroy` on the entries of `keys`, in that order. */
    method DestroyInOrder(keys: seq<Uid>, log: RefLog) returns (ghost released: seq<Ptr>)
      requires Distinct(shaders) && StrictlyIncreasing(keys)
      requires forall j :: 0 <= j < |keys| ==> keys[j] in shaders
      modifies shaders.Values, log
      ensures forall j :: 0 <= j < |keys| ==> shaders[keys[j]].shader == Null && shaders[keys[j]].bytecode == None
      ensures |released| == |keys| && forall j :: 0 <= j < |keys| ==> released[j] == old(shaders[keys[j]].shader)
      ensures log.events == old(log.events) + ReleasesOf(released)
    {
      released := [];
      for i := 0 to |keys|
        invariant |released| == i
        invariant forall j :: 0 <= j < i ==> shaders[keys[j]].shader == Null && shaders[keys[j]].bytecode == None
        invariant forall j :: 0 <= j < i ==> released[j] == old(shaders[keys[j]].shader)
        invariant forall j :: i <= j < |keys| ==> shaders[keys[j]].shader == old(shaders[keys[j]].shader)
        invariant log.events == old(log.events) + ReleasesOf(released)
      {
        var entry := shaders[keys[i]];
        ghost var logged := log.events;
        ghost var next := released + [entry.shader];
        assert next[..i] == released;
        entry.Destroy(log);
        assert logged + ReleaseOf(next[i]) == old(log.events) + (ReleasesOf(released) + ReleaseOf(next[i]));
        released := next;
        assert forall j :: 0 <= j < |keys| && j != i ==> shaders[keys[j]] != entry;
      }
    }

    /**
     * `g_vs_disk_cache.OpenAndRead` with the inserter: every record, in
     * order, with the Releases of the shaders later records replace.
     */
    method LoadDisk(log: RefLog)
      requires Valid()
      modifies this, shaders.Values, log
      ensures Valid()
      ensures View() == Load(old(View()), disk, backend)
      ensures log.events == old(log.events) + LoadReleases(old(View()), disk, backend)
      ensures forall k :: k in shaders ==> (k in old(shaders) && shaders[k] == old(shaders[k])) || fresh(shaders[k])
    {
      var records := disk;
      var i := 0;
      while i < |records|
        invariant 0 <= i <= |records|
        invariant Valid() && disk == records
        invariant View() == Load(old(View()), records[..i], backend)
        invariant log.events == old(log.events) + LoadReleases(old(View()), records[..i], backend)
        invariant forall k :: k in shaders ==> (k in old(shaders) && shaders[k] == old(shaders[k])) || fresh(shaders[k])
      {
        var _ := InsertByteCode(records[i].uid, records[i].code, log);
        assert records[..i + 1][..i] == records[..i];
        i := i + 1;
      }
      assert records[..i] == records;
    }

    /**
     * The cache part of `Init`: clear the map, load the disk file, clear
     * again when shader debugging is on, and null the memo.
     */
    method Reload(debugging: bool, log: RefLog)
      requires Valid()
      modifies this, shaders.Values, log
      ensures Valid() && lastEntry == null
      ensures View() == (
        var cleared := old(View()).(entries := map[], last := None);
        if debugging then cleared else Load(cleared, disk, backend).(last := None))
    {
      var _, _ := Clear(log);
      ghost var cleared := View();
      LoadDisk(log);
      if debugging {
        var _, _ := Clear(log);
        assert View() == cleared;
      }
      ForgetMemo();
    }

    /** `last_entry = nullptr`: the memo is forgotten, the entries stay. */
    method ForgetMemo()
      requires Valid()
      modifies this
      ensures Valid() && lastEntry == null && View() == old(View()).(last := None)
    {
      lastEntry := null;
      lastKey := None;
      EntriesKept(this);
    }

    /** `Init`: create the constant buffer, then reload the cache from the disk file. */
    method Init(debugging: bool, log: RefLog)
      requires Valid()
      modifies this, shaders.Values, cbuf, log
      ensures Valid() && lastEntry == null
      ensures cbuf.width == ConstantBufferWidth(cbuf.size)
      ensures View() == (
        var cleared := old(View()).(entries := map[], last := None);
        if debugging then cleared else Load(cleared, disk, backend).(last := None))
    {
      cbuf.CreateBuffer();
      Reload(debugging, log);
    }
  }
}
