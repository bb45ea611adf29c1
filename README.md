# Dolphin D3D backend bookkeeping, modelled in Dafny

This project models the bookkeeping around the GPU in Dolphin's Direct3D
backends:

- the streaming vertex/index ring of the D3D11 vertex manager, with its
  16-byte block copy;
- the pixel and vertex shader caches: an ordered map from shader uid to
  entry, a one-slot memo, compile-on-miss, and an append-only disk cache;
- the compute-shader texture decoder: its permutation key and compile-once
  cache, its output-texture pool, its dispatch grid and the HLSL colour
  expansion helpers;
- the texture encoder's permutation key and its disk-cache reader;
- the `UniquePtr` owning COM pointer and its `ToAddr` out-parameter helper;
- the D3D11 input-layout construction from a portable vertex declaration;
- the texture mask built from a shader's reflection data;
- the Direct3D 9 plugin's translation of BP registers into render-state
  and sampler-state writes.

Every native call is an oracle whose answer is a parameter or a constant
field of the modelled object:

- the HLSL compiler, device object creation and shader reflection;
- `Map`, `UpdateSubresource` and `Dispatch`, recorded as logs;
- the shader generators.

Reference-count traffic is recorded in a `RefLog`, so "released exactly
once" can be stated. The disk cache is a sequence of `(key, bytes)`
records.

Files, one module each:

- `d3d_ptr.dfy` — `UniquePtr` and `ToAddr`.
- `d3d_shader.dfy` — compile, create and `ReflectTextureMask`.
- `alignment.dfy` — rounding to multiples.
- `shader_cache.dfy` — what the two shader caches share.
- `pixel_shader_cache.dfy` and `vertex_shader_cache.dfy` — the two caches.
- `native_vertex_format.dfy` — the input layout.
- `vertex_manager.dfy` — the ring and `vFlush`.
- `ps_texture_decoder.dfy` and `ps_texture_encoder.dfy` — the texture decoder and encoder.
- `bp_functions.dfy` — the BP register handlers.
- `wrappers.dfy` — `Option`.

Each shader cache is specified twice:

- a pure state-transition function, such as `Select` or `Insert`, over an
  abstract `CacheState`;
- the class whose methods mutate the map and the memo, proved equal to
  that function through a ghost `View()`.

The properties are then proved about the functions.

## Model

| member | source | states |
|---|---|---|
| D3DPtr.UniquePtr.Empty | Source/Core/VideoBackends/D3D/D3DPtr.h:21-25 | a default or null-constructed owner holds null |
| D3DPtr.UniquePtr.Adopt | Source/Core/VideoBackends/D3D/D3DPtr.h:28-30 | the explicit constructor adopts the given pointer without AddRef |
| D3DPtr.UniquePtr.Move | Source/Core/VideoBackends/D3D/D3DPtr.h:40 | move construction transfers the pointer, nulls the source and issues no reference-count call |
| D3DPtr.UniquePtr.Detach | Source/Core/VideoBackends/D3D/D3DPtr.h:62-66 | `release()` returns the held pointer, leaves the owner null and issues no Release |
| D3DPtr.UniquePtr.Reset | Source/Core/VideoBackends/D3D/D3DPtr.h:69-75 | `reset(p)` stores `p` and releases the old pointer exactly once iff it was non-null |
| D3DPtr.UniquePtr.MoveAssign | Source/Core/VideoBackends/D3D/D3DPtr.h:43-47 | move assignment takes the other's pointer, nulls it and releases the old one; self-assignment changes nothing and releases nothing |
| D3DPtr.UniquePtr.AssignNull | Source/Core/VideoBackends/D3D/D3DPtr.h:50-53 | assigning nullptr nulls the owner and releases the old pointer iff non-null |
| D3DPtr.UniquePtr.Destroy | Source/Core/VideoBackends/D3D/D3DPtr.h:56-59 | the destructor issues exactly one Release iff the pointer is non-null |
| D3DPtr.UniquePtr.Share | Source/Core/VideoBackends/D3D/D3DPtr.h:99-104 | `Share()` returns a new owner of the same pointer after one AddRef; a null owner yields a null owner and no AddRef |
| D3DPtr.ToAddr.constructor | Source/Core/VideoBackends/D3D/D3DPtr.h:147 | the helper starts with an empty out-parameter bound to its target |
| D3DPtr.ToAddr.Write | Source/Core/VideoBackends/D3D/D3DPtr.h:156-157 | the creation call writes the out-parameter |
| D3DPtr.ToAddr.Destroy | Source/Core/VideoBackends/D3D/D3DPtr.h:151-154 | the target is reset to the written pointer only when it is non-null; a failed creation keeps the target's previous value and releases nothing |
| D3DPtr.OwnershipLifetime | Source/Core/VideoBackends/D3D/D3DPtr.h:40-75 | one fixed scenario over any two objects: adopt `a`, move it into a second owner, reset that owner to `b`, destroy both; `a` and `b` are each released exactly once and the moved-from owner releases nothing |
| D3DShader.CompileShader | Source/Core/VideoBackends/D3D/D3DShader.cpp:30-70 | the result is true iff the compile succeeded; on failure the blob is null, on success it holds the compiler's bytecode |
| D3DShader.CreateCheckedFromByteCode | Source/Core/VideoBackends/D3D/D3DShader.cpp:19-27 | a failed vertex or geometry shader creation yields null; a successful one yields what the device wrote |
| D3DShader.CheckedCreateReleases | Source/Core/VideoBackends/D3D/D3DShader.cpp:19-27 | on a failed creation the local owner releases the pointer the device wrote, exactly once; nothing is released otherwise |
| D3DShader.CheckedCreateOwnsWritten | Source/Core/VideoBackends/D3D/D3DShader.cpp:19-27 | a written pointer is released at most once, and it is returned to the caller exactly when it is not released |
| D3DShader.CreatePixelShaderFromByteCode | Source/Core/VideoBackends/D3D/D3DShader.cpp:130-139 | the pixel variant does not check the result: it returns whatever pointer the device wrote, also after a failed creation |
| D3DShader.PixelCreateIsUnchecked | Source/Core/VideoBackends/D3D/D3DShader.cpp:130-139 | the pixel path agrees with the checked vertex path exactly when the creation succeeded or wrote nothing; a failed creation that wrote a pointer is a shader for the pixel path and null for the checked one |
| D3DShader.CompileAndCreate | Source/Core/VideoBackends/D3D/D3DShader.cpp:328-359 | a failed compile gives null without attempting creation; otherwise the result of creating from the compiled bytecode |
| D3DShader.MaskOfBits | Source/Core/VideoBackends/D3D/D3DShader.cpp:147-157 | bit `b` of the mask is set iff some TEXTURE resource is bound at slot `b` (bind points below 32) |
| D3DShader.MaskOf | Source/Core/VideoBackends/D3D/D3DShader.cpp:147-157 | the OR of `1 << BindPoint` over the texture bindings, in binding order; `MaskOfBits` states which bits it sets |
| D3DShader.TextureMask | Source/Core/VideoBackends/D3D/D3DShader.cpp:141-159 | all ones when reflection fails, else `MaskOf` the bindings; `ReflectTextureMask` proves the loop computes it |
| D3DShader.NonTexturesContributeNothing | Source/Core/VideoBackends/D3D/D3DShader.cpp:151-156 | non-texture resources never set a bit; no resources give mask 0 |
| D3DShader.ReflectTextureMask | Source/Core/VideoBackends/D3D/D3DShader.cpp:141-159 | the loop computes the mask: all ones when reflection fails, else the OR of `1 << BindPoint` over texture bindings |
| Alignment.RoundUp | Source/Core/VideoBackends/D3D/VertexManager.cpp:120-121 | padding by `stride - x % stride` gives the least multiple of the stride that is at least `x` |
| Alignment.Align16 | Source/Core/VideoBackends/D3D/PixelShaderCache.cpp:405 | `(x + 0xf) & ~0xf` is the least multiple of 16 that is at least `x` |
| Alignment.Floor16 | Source/Core/VideoBackends/D3D/VertexShaderCache.cpp:109 | `x & ~0xf` is the greatest multiple of 16 that is at most `x` |
| Alignment.RoundUp16IsAlign16 | Source/Core/VideoBackends/D3D/VertexManager.cpp:125-130 | the padding form and the mask form of 16-alignment agree |
| ShaderCache.Least | Source/Core/VideoBackends/D3D/PixelShaderCache.cpp:460 | the first key a `std::map` iteration visits: a member of the set no greater than any other |
| ShaderCache.AscendingKeys | Source/Core/VideoBackends/D3D/PixelShaderCache.cpp:460-461 | the map's keys in the order `std::map` visits them: strictly increasing, each key once |
| PixelShaderCache.Insert | Source/Core/VideoBackends/D3D/PixelShaderCache.cpp:560-583 | a null shader leaves the state unchanged and returns false; otherwise the uid's entry holds the shader and its texture mask, the memo points to it, other entries are untouched and the result is true |
| PixelShaderCache.Created | Source/Core/VideoBackends/D3D/PixelShaderCache.cpp:562 | the pixel shader `InsertByteCode` creates: whatever the device wrote, unchecked (`PixelCreateIsUnchecked`) |
| PixelShaderCache.Select | Source/Core/VideoBackends/D3D/PixelShaderCache.cpp:500-558 | `SetShader` as written, case by case: the fast path changes nothing and reports the memo's shader; a hit moves the memo to the uid and reports its shader; a failed compile moves only `last_uid` and the compile history; a successful compile appends the record whatever the creation gives, reports whether a shader was created, and stores it with its texture mask as the memo. Other entries are untouched |
| PixelShaderCache.FailedCompileIsNotMemoized | Source/Core/VideoBackends/D3D/PixelShaderCache.cpp:521-544 | a failed compile outside the fast path adds no entry and no disk record and leaves the memo where it was; selecting the uid again compiles it again when the memo was empty, and otherwise takes the fast path on the old memo |
| PixelShaderCache.StaleMemoAfterFailedCompile | Source/Core/VideoBackends/D3D/PixelShaderCache.cpp:512-544 | after A is selected and B fails to compile, selecting B again takes the fast path, reports success and leaves A's shader active |
| PixelShaderCache.SelectFixed | Source/Core/VideoBackends/D3D/PixelShaderCache.cpp:500-558 | with `last_uid` assigned together with `last_entry`, the memo stays sound and success holds iff the uid's own entry has a shader |
| PixelShaderCache.SelectFixedIsStable | Source/Core/VideoBackends/D3D/PixelShaderCache.cpp:512-533 | with the sound memo, selecting the same uid twice gives the same answer, and the second call compiles nothing |
| PixelShaderCache.Load | Source/Core/VideoBackends/D3D/PixelShaderCache.cpp:394-401 | reading the disk cache through the inserter changes only entries and memo, never the disk log, compile history or `last_uid` |
| PixelShaderCache.LoadedKeys | Source/Core/VideoBackends/D3D/PixelShaderCache.cpp:397-400 | a uid is in the loaded map iff it was already there or one of its records yields a shader |
| PixelShaderCache.LoadedValue | Source/Core/VideoBackends/D3D/PixelShaderCache.cpp:394-401 | after a load, a uid's entry holds the shader of its last record that yields one, with that bytecode's texture mask |
| PixelShaderCache.LoadKeepsUntouched | Source/Core/VideoBackends/D3D/PixelShaderCache.cpp:394-401 | a uid none of whose records yields a shader keeps the entry it had before the load |
| PixelShaderCache.CompiledShaderSurvivesReload | Source/Core/VideoBackends/D3D/PixelShaderCache.cpp:547-549 | a shader compiled by `SetShader` is recreated from the disk log by the next session's load, with the same shader and texture mask |
| PixelShaderCache.PSCacheEntry.constructor | Source/Core/VideoBackends/D3D/PixelShaderCache.h:43-47 | a fresh entry has a null shader and mask 0 |
| PixelShaderCache.PSCacheEntry.Destroy | Source/Core/VideoBackends/D3D/PixelShaderCache.h:48 | `SAFE_RELEASE` releases a non-null shader once and nulls it |
| PixelShaderCache.HelperPrograms.constructor | Source/Core/VideoBackends/D3D/PixelShaderCache.cpp:34-39 | every helper program slot starts empty |
| PixelShaderCache.HelperPrograms.Init | Source/Core/VideoBackends/D3D/PixelShaderCache.cpp:417-435 | `Init` builds the clear program and slot 0 of the copy, colour-matrix and depth-matrix programs, and leaves the MSAA slots alone |
| PixelShaderCache.HelperPrograms.Get | Source/Core/VideoBackends/D3D/PixelShaderCache.cpp:271-369 | a single-sampled request returns slot 0, built on first use for the reinterpretation programs; an MSAA request builds slot 1 only while it is empty and reuses it afterwards |
| PixelShaderCache.HelperPrograms.InvalidateMSAAShaders | Source/Core/VideoBackends/D3D/PixelShaderCache.cpp:469-476 | slot 1 of all five programs is emptied and released, and slot 0 is untouched |
| PixelShaderCache.PixelConstants.constructor | Source/Core/VideoBackends/D3D/PixelShaderCache.cpp:40-42 | no buffers, nothing dirty, no uploads |
| PixelShaderCache.PixelConstants.CreateBuffers | Source/Core/VideoBackends/D3D/PixelShaderCache.cpp:405-414 | each constant buffer's width is its constants' size rounded up to 16 |
| PixelShaderCache.PixelConstants.GetConstantBuffer | Source/Core/VideoBackends/D3D/PixelShaderCache.cpp:376-391 | when dirty, the flag is cleared, and the shadow is updated and uploaded only if its first `sz` bytes differ; when not dirty nothing changes; the buffer matches the lighting setting |
| PixelShaderCache.PixelShaderCache.constructor | Source/Core/VideoBackends/D3D/PixelShaderCache.cpp:27-32 | an empty map, no memo, and the disk file as found |
| PixelShaderCache.PixelShaderCache.GetActiveShader | Source/Core/VideoBackends/D3D/PixelShaderCache.h:26 | requires a non-null `last_entry` and returns that entry's shader |
| PixelShaderCache.PixelShaderCache.GetActiveMask | Source/Core/VideoBackends/D3D/PixelShaderCache.h:27 | requires a non-null `last_entry` and returns that entry's mask |
| PixelShaderCache.PixelShaderCache.InsertByteCode | Source/Core/VideoBackends/D3D/PixelShaderCache.cpp:560-583 | the method's new state and result are `Insert` of the old state |
| PixelShaderCache.PixelShaderCache.Store | Source/Core/VideoBackends/D3D/PixelShaderCache.cpp:570-573 | `PixelShaders[uid]` is made if missing, takes shader and mask, and becomes `last_entry` |
| PixelShaderCache.PixelShaderCache.SetShader | Source/Core/VideoBackends/D3D/PixelShaderCache.cpp:500-558 | the method's new state and result are `Select` of the old state |
| PixelShaderCache.PixelShaderCache.Clear | Source/Core/VideoBackends/D3D/PixelShaderCache.cpp:458-466 | every entry is destroyed in ascending uid order, each shader released once, then the map is emptied and the memo nulled |
| PixelShaderCache.PixelShaderCache.DestroyInOrder | Source/Core/VideoBackends/D3D/PixelShaderCache.cpp:460-461 | destroying the entries of the given keys in order releases their shaders in that order |
| PixelShaderCache.PixelShaderCache.LoadDisk | Source/Core/VideoBackends/D3D/PixelShaderCache.cpp:448-449 | every disk record goes through `InsertByteCode` in order: the new state is `Load` of the old one |
| PixelShaderCache.PixelShaderCache.Reload | Source/Core/VideoBackends/D3D/PixelShaderCache.cpp:437-454 | clear, load the disk records, clear again only with shader debugging, then null the memo |
| PixelShaderCache.PixelShaderCache.ForgetMemo | Source/Core/VideoBackends/D3D/PixelShaderCache.cpp:454 | `last_entry = nullptr` leaves the entries as they are |
| PixelShaderCache.PixelShaderCache.Init | Source/Core/VideoBackends/D3D/PixelShaderCache.cpp:403-455 | constant buffers sized to multiples of 16, the single-sampled helper programs built, then the cache reloaded from disk |
| PixelShaderCache.InsertResultAsWritten | Source/Core/VideoBackends/D3D/PixelShaderCache.cpp:570-578 | as written, the shader is stored but, once the move has nulled the local, success is reported as false |
| VertexShaderCache.Insert | Source/Core/VideoBackends/D3D/VertexShaderCache.cpp:236-256 | a failed creation changes nothing and returns false; otherwise the entry holds shader and bytecode, the memo points to it, and the result is true |
| VertexShaderCache.Created | Source/Core/VideoBackends/D3D/VertexShaderCache.cpp:238 | the vertex shader `InsertByteCode` creates: null on a failed creation, else what the device wrote |
| VertexShaderCache.Select | Source/Core/VideoBackends/D3D/VertexShaderCache.cpp:180-234 | `SetShader` as written, case by case as the pixel cache's `Select`: fast path unchanged, a hit moves the memo, a failed compile moves only `last_uid` and the compile history, a successful compile appends the record and stores the created shader with its bytecode; every entry with a shader keeps its bytecode |
| VertexShaderCache.FailedCompileIsNotMemoized | Source/Core/VideoBackends/D3D/VertexShaderCache.cpp:200-222 | a failed compile outside the fast path adds no entry and no disk record and leaves the memo where it was; selecting the uid again compiles it again when the memo was empty, and otherwise takes the fast path on the old memo |
| VertexShaderCache.StaleMemoAfterFailedCompile | Source/Core/VideoBackends/D3D/VertexShaderCache.cpp:191-222 | a failed compile of B after A, selected twice, reports success with A's shader and bytecode still active |
| VertexShaderCache.SelectFixed | Source/Core/VideoBackends/D3D/VertexShaderCache.cpp:180-234 | with `last_uid` assigned together with `last_entry`, success holds iff the uid's own entry has a shader, and the memo stays sound |
| VertexShaderCache.FreshSelectionActivatesItsBytecode | Source/Core/VideoBackends/D3D/VertexShaderCache.cpp:246-250 | after a fresh successful selection the active bytecode is the one compiled for that uid |
| VertexShaderCache.Load | Source/Core/VideoBackends/D3D/VertexShaderCache.cpp:53-61 | loading the disk cache keeps the disk log, the compile history and `last_uid`, and keeps bytecode with every shader |
| VertexShaderCache.LoadedKeys | Source/Core/VideoBackends/D3D/VertexShaderCache.cpp:53-61 | a uid is in the loaded map iff it was already there or one of its records yields a shader |
| VertexShaderCache.LoadedValue | Source/Core/VideoBackends/D3D/VertexShaderCache.cpp:53-61 | after a load, a uid's entry holds the shader and the bytecode of its last record that yields a shader |
| VertexShaderCache.LoadKeepsUntouched | Source/Core/VideoBackends/D3D/VertexShaderCache.cpp:53-61 | a uid none of whose records yields a shader keeps the entry it had before the load |
| VertexShaderCache.CompiledShaderSurvivesReload | Source/Core/VideoBackends/D3D/VertexShaderCache.cpp:223-225 | a shader compiled by `SetShader` is recreated from the disk log by the next session's load, with the same shader and bytecode |
| VertexShaderCache.InsertReleases | Source/Core/VideoBackends/D3D/VertexShaderCache.cpp:246-247 | the move-assignment into the uid's entry releases at most one shader, and one exactly when a shader is created and the entry already held one |
| VertexShaderCache.DistinctLoadReleasesNothing | Source/Core/VideoBackends/D3D/VertexShaderCache.cpp:53-61 | loading records with pairwise distinct uids, none already cached, releases no shader |
| VertexShaderCache.DuplicateRecordReleasesFirstShader | Source/Core/VideoBackends/D3D/VertexShaderCache.cpp:246-247 | two records of one uid that both yield a shader: loading them releases the first shader once, and the entry ends with the second |
| VertexShaderCache.ConstantBufferWidth | Source/Core/VideoBackends/D3D/VertexShaderCache.cpp:109 | `(size & ~0xf) + 0x10` is a multiple of 16 strictly above the size and at most 16 above it |
| VertexShaderCache.VSCacheEntry.constructor | Source/Core/VideoBackends/D3D/VertexShaderCache.h:43 | a fresh entry has a null shader and null bytecode |
| VertexShaderCache.VSCacheEntry.SetByteCode | Source/Core/VideoBackends/D3D/VertexShaderCache.h:44-47 | the blob replaces the bytecode and the shader is untouched |
| VertexShaderCache.VSCacheEntry.Destroy | Source/Core/VideoBackends/D3D/VertexShaderCache.h:48-52 | the shader is released once and nulled, and the bytecode dropped |
| VertexShaderCache.VertexConstants.constructor | Source/Core/VideoBackends/D3D/VertexShaderCache.cpp:38 | no buffer, nothing dirty, no uploads |
| VertexShaderCache.VertexConstants.CreateBuffer | Source/Core/VideoBackends/D3D/VertexShaderCache.cpp:109-113 | the buffer's width is `ConstantBufferWidth` of the constants' size |
| VertexShaderCache.VertexConstants.GetConstantBuffer | Source/Core/VideoBackends/D3D/VertexShaderCache.cpp:40-51 | the constants are uploaded only when dirty, and the flag is then clear |
| VertexShaderCache.VertexShaderCache.constructor | Source/Core/VideoBackends/D3D/VertexShaderCache.cpp:21-24 | an empty map, no memo, and the disk file as found |
| VertexShaderCache.VertexShaderCache.GetActiveShader | Source/Core/VideoBackends/D3D/VertexShaderCache.h:24 | requires a non-null `last_entry` and returns its shader |
| VertexShaderCache.VertexShaderCache.GetActiveShaderBytecode | Source/Core/VideoBackends/D3D/VertexShaderCache.h:25 | requires a non-null `last_entry` and returns its bytecode |
| VertexShaderCache.VertexShaderCache.InsertByteCode | Source/Core/VideoBackends/D3D/VertexShaderCache.cpp:236-256 | the new state and result are `Insert` of the old state, and the log gains the Release of a shader the entry held before (`InsertReleases`) |
| VertexShaderCache.VertexShaderCache.Store | Source/Core/VideoBackends/D3D/VertexShaderCache.cpp:246-250 | the uid's entry is made if missing, takes shader and bytecode, and becomes `last_entry`; the shader it held before, if any, is released once |
| VertexShaderCache.VertexShaderCache.SetShader | Source/Core/VideoBackends/D3D/VertexShaderCache.cpp:180-234 | the new state and result are `Select` of the old state, and no shader is released |
| VertexShaderCache.VertexShaderCache.Clear | Source/Core/VideoBackends/D3D/VertexShaderCache.cpp:155-163 | every entry is destroyed in ascending uid order, each shader released once, then the map is emptied and the memo nulled |
| VertexShaderCache.VertexShaderCache.DestroyInOrder | Source/Core/VideoBackends/D3D/VertexShaderCache.cpp:157-158 | destroying the entries of the given keys releases their shaders in that order and drops their bytecode |
| VertexShaderCache.VertexShaderCache.LoadDisk | Source/Core/VideoBackends/D3D/VertexShaderCache.cpp:146-147 | every disk record goes through `InsertByteCode` in order: the new state is `Load` of the old one and the log gains the Releases of the shaders later records replace |
| VertexShaderCache.VertexShaderCache.Reload | Source/Core/VideoBackends/D3D/VertexShaderCache.cpp:135-152 | clear, load, clear again only with shader debugging, null the memo |
| VertexShaderCache.VertexShaderCache.ForgetMemo | Source/Core/VideoBackends/D3D/VertexShaderCache.cpp:152 | the memo is forgotten and the entries stay |
| VertexShaderCache.VertexShaderCache.Init | Source/Core/VideoBackends/D3D/VertexShaderCache.cpp:95-153 | the constant buffer is sized, then the cache reloaded from disk |
| NativeVertexFormat.TableIndex | Source/Core/VideoBackends/D3D/NativeVertexFormat.cpp:50 | `t + 5*(size-1) + 20*integer` lies inside the 40-entry table |
| NativeVertexFormat.VarToD3D | Source/Core/VideoBackends/D3D/NativeVertexFormat.cpp:48-56 | the table lookup at `TableIndex`; which combinations it rejects and how many channels of which type it reads are stated by `VarToD3DReadsTheRequestedComponents` and `VarToD3DInjective` |
| NativeVertexFormat.VarToD3DReadsTheRequestedComponents | Source/Core/VideoBackends/D3D/NativeVertexFormat.cpp:33-56 | `VarToD3D` is UNKNOWN exactly for 3-component 8/16-bit types and integer floats; otherwise the format has `size` channels of the requested type, integer or not |
| NativeVertexFormat.VarToD3DInjective | Source/Core/VideoBackends/D3D/NativeVertexFormat.cpp:33-46 | no two supported combinations share a format |
| NativeVertexFormat.ElementsFollowDeclaration | Source/Core/VideoBackends/D3D/NativeVertexFormat.cpp:58-123 | one element per enabled attribute and no other, at most 15, in the order POSITION, NORMAL 0-2, COLOR 0-1, TEXCOORD 0-7, BLENDINDICES, each carrying its attribute's semantic index, `VarToD3D` format and offset |
| NativeVertexFormat.D3DVertexFormat.constructor | Source/Core/VideoBackends/D3D/NativeVertexFormat.cpp:28-31 | a new format has no elements and no layout |
| NativeVertexFormat.D3DVertexFormat.Initialize | Source/Core/VideoBackends/D3D/NativeVertexFormat.cpp:58-124 | the stride is the declaration's; the array is zeroed and the declaration's elements are written from slot `m_num_elems` on, each carrying the attribute's offset, semantic index and format |
| NativeVertexFormat.D3DVertexFormat.ZeroElements | Source/Core/VideoBackends/D3D/NativeVertexFormat.cpp:61 | `memset` zeroes all 32 elements |
| NativeVertexFormat.D3DVertexFormat.AppendFront | Source/Core/VideoBackends/D3D/NativeVertexFormat.cpp:62-85 | the position and the three normals are appended |
| NativeVertexFormat.D3DVertexFormat.AppendBack | Source/Core/VideoBackends/D3D/NativeVertexFormat.cpp:87-123 | the colours, texture coordinates and matrix index are appended |
| NativeVertexFormat.D3DVertexFormat.AppendIndexed | Source/Core/VideoBackends/D3D/NativeVertexFormat.cpp:73-85 | one indexed loop appends its enabled attributes with semantic index equal to the loop index |
| NativeVertexFormat.D3DVertexFormat.Append | Source/Core/VideoBackends/D3D/NativeVertexFormat.cpp:64-71 | an enabled attribute is written at `m_num_elems` and the count grows by one; a disabled one writes nothing |
| NativeVertexFormat.D3DVertexFormat.SetupVertexPointers | Source/Core/VideoBackends/D3D/NativeVertexFormat.cpp:126-140 | the layout is created from the elements and the active bytecode only when none exists, reused afterwards, and bound |
| NativeVertexFormat.InitializedFormatsEqual | Source/Core/VideoBackends/D3D/NativeVertexFormat.cpp:142-146 | formats initialized on new objects are `Equal` iff their declarations give the same elements |
| NativeVertexFormat.D3DVertexFormat.Equal | Source/Core/VideoBackends/D3D/NativeVertexFormat.cpp:142-146 | the same element count and the same first `m_num_elems` elements; `InitializedFormatsEqual` relates it to the declarations |
| VertexManager.Place | Source/Core/VideoBackends/D3D/VertexManager.cpp:119-145 | DISCARD iff the tested end passes VBUFFER_SIZE, on buffer `(current+1) % N` from cursor 0, else NO_OVERWRITE on the current buffer; the vertex start is the start rounded up to the stride, and the vertex and index regions are 16-aligned |
| VertexManager.AppendStartsAtCursor | Source/Core/VideoBackends/D3D/VertexManager.cpp:140-145 | with a 16-aligned cursor, an append's aligned vertex start is at or above the cursor |
| VertexManager.FirstFlushDiscardsToBufferZero | Source/Core/VideoBackends/D3D/VertexManager.cpp:84-86 | from the initial state (last buffer, cursor at its end), a non-empty batch discards and lands on buffer 0 |
| VertexManager.FittingBatchStaysInBuffer | Source/Core/VideoBackends/D3D/VertexManager.cpp:119-138 | a batch that fits an empty buffer ends within VBUFFER_SIZE whichever way the wrap test goes |
| VertexManager.PlaceIsCopyable | Source/Core/VideoBackends/D3D/VertexManager.cpp:155-158 | such a batch can be copied where it is placed, reading at most 15 bytes before the staged vertices, inside the 16-byte slack |
| VertexManager.StagingOverReadAsWritten | Source/Core/VideoBackends/D3D/VertexManager.cpp:155-159 | for a full batch that fits an empty ring buffer, with the staging sizes as allocated: the copies stay inside the ring buffer, but a vertex region whose end is not 16-aligned reads past the `MAXVBUFFERSIZE+16` vertex bytes, or an index count not a multiple of 8 reads past the `MAXIBUFFERSIZE` indices, so the batch is not copyable |
| VertexManager.PaddedStagingIsCopyable | Source/Core/VideoBackends/D3D/VertexManager.cpp:155-159 | with 16 bytes of padding behind each staging buffer, every batch the staging can hold that fits an empty ring buffer is copyable |
| VertexManager.RunVisitsBuffersRoundRobin | Source/Core/VideoBackends/D3D/VertexManager.cpp:134-138 | after a run of flushes the current buffer is the start advanced by the number of DISCARD maps, modulo N |
| VertexManager.RunKeepsRingValid | Source/Core/VideoBackends/D3D/VertexManager.cpp:125-163 | with fitting batches, the cursor stays a multiple of 16 within VBUFFER_SIZE and the current buffer stays in range |
| VertexManager.Memcpy16 | Source/Core/VideoBackends/D3D/VertexManager.cpp:30-65 | exactly `size/16` 16-byte blocks are copied from the source to the destination, eight at a time then one at a time, and nothing else is written |
| VertexManager.CopyBatch | Source/Core/VideoBackends/D3D/VertexManager.cpp:155-159 | the target holds the staged vertices over the aligned vertex region, the staged indices over the index region, and its old bytes elsewhere |
| VertexManager.VertexManager.constructor | Source/Core/VideoBackends/D3D/VertexManager.cpp:97-107 | staging buffers with 16 bytes of slack before the vertices and 16 bytes of padding behind each buffer, N ring buffers, the ring on the last buffer with the cursor at VBUFFER_SIZE |
| VertexManager.VertexManager.PrepareDrawBuffers | Source/Core/VideoBackends/D3D/VertexManager.cpp:114-169 | the ring moves as `Place` says; on a successful map the chosen buffer receives the batch, the cursor becomes the index end and the draw offsets are `vbstart/stride` and `vbend/2`; other buffers are untouched |
| VertexManager.VertexManager.WrapRing | Source/Core/VideoBackends/D3D/VertexManager.cpp:116-138 | the wrap step: next buffer and cursor 0 with DISCARD when the tested end passes VBUFFER_SIZE, else nothing moves |
| VertexManager.VertexManager.StreamPlaced | Source/Core/VideoBackends/D3D/VertexManager.cpp:155-165 | the two copies land in the current buffer, and the cursor and draw offsets are recorded |
| VertexManager.VertexManager.ResetBuffer | Source/Core/VideoBackends/D3D/VertexManager.cpp:307-311 | the staged vertices and indices are emptied and the ring is untouched |
| VertexManager.VertexManager.Flush | Source/Core/VideoBackends/D3D/VertexManager.cpp:282-304 | a failed pixel shader selection stops before the vertex shader and before streaming; a failed vertex shader selection stops before streaming, leaving ring, buffers, layout and calls as they were; with both shaders, the staged batch is streamed as `PrepareDrawBuffers` places it: the chosen buffer holds the staged vertex and index bytes over the placed regions and its old bytes elsewhere, no other buffer changes, the cursor and draw offsets follow the placement (on a failed map the cursor is 0 after a wrap and unchanged otherwise), the layout is set up against the active bytecode, and `FlushTextures` with the active mask, `ApplyState`, the draw and `RestoreState` are recorded in order; the staged sizes are kept and no shader is released |
| VertexManager.VertexManager.StreamBatch | Source/Core/VideoBackends/D3D/VertexManager.cpp:295-304 | streaming with the format's stride: the chosen buffer holds the staged bytes over the placed regions and its old bytes elsewhere, no other buffer changes, the cursor and draw offsets follow the placement (on a failed map the cursor is 0 after a wrap and unchanged otherwise) and the staged sizes are kept; the input layout is set up against the active vertex shader's bytecode, `FlushTextures`, `ApplyState`, the draw and `RestoreState` are recorded in order, and the shader caches are untouched |
| VertexManager.SelectShaders | Source/Core/VideoBackends/D3D/VertexManager.cpp:282-293 | the pixel shader is selected, then the vertex shader only if that succeeded |
| VertexManager.SelectPixelShader | Source/Core/VideoBackends/D3D/VertexManager.cpp:282-288 | selecting the pixel shader leaves the vertex cache unchanged |
| VertexManager.SelectVertexShader | Source/Core/VideoBackends/D3D/VertexManager.cpp:289-293 | selecting the vertex shader leaves the pixel cache unchanged |
| PSTextureDecoder.Read565 | Source/Core/VideoBackends/D3D/PSTextureDecoder.cpp:78-83 | channels are bytes, alpha is 255, and an all-ones field gives 255 and a zero field 0 |
| PSTextureDecoder.Read565KeepsFields | Source/Core/VideoBackends/D3D/PSTextureDecoder.cpp:78-83 | the top bits of the channels give back the 16-bit colour |
| PSTextureDecoder.Read5A3 | Source/Core/VideoBackends/D3D/PSTextureDecoder.cpp:63-76 | bit 15 selects opaque RGB555 or RGB4A3, whose fields the top bits of the channels give back; alpha code 7 gives 255 and code 0 gives 0 |
| PSTextureDecoder.ShaderDefines | Source/Core/VideoBackends/D3D/PSTextureDecoder.cpp:395-400 | the decoder function is "NotImplemented" exactly for formats 7 and 11-13; the palette reader exists iff the palette format indexes inside the three-entry table; `FMT` is the table entry |
| PSTextureDecoder.MakeComboKey | Source/Core/VideoBackends/D3D/PSTextureDecoder.h:69-73 | the source format's low four bits in bits 0-3, the palette format's in bits 16-19, nothing else |
| PSTextureDecoder.MakeComboKeyInjective | Source/Core/VideoBackends/D3D/PSTextureDecoder.h:71-72 | two combinations share a key iff their low four bits agree; `dstFmt` plays no part |
| PSTextureDecoder.PaletteOnlyMattersForPalettedFormats | Source/Core/VideoBackends/D3D/PSTextureDecoder.cpp:380-384 | a non-paletted format selects the same shader whatever palette is loaded; a paletted one distinguishes palette formats |
| PSTextureDecoder.PoolLessStrictTotal | Source/Core/VideoBackends/D3D/PSTextureDecoder.h:39-43 | `PoolKey::operator<` is irreflexive, transitive, asymmetric and total on distinct keys |
| PSTextureDecoder.GroupCount | Source/Core/VideoBackends/D3D/PSTextureDecoder.cpp:475 | `(n+7)/8` groups of 8 cover `n` texels, and one group fewer would not |
| PSTextureDecoder.TexelHasOneThread | Source/Core/VideoBackends/D3D/PSTextureDecoder.cpp:270-279 | every texel below the dimension is handled by exactly one thread of the dispatched grid |
| PSTextureDecoder.TmemPad | Source/Core/VideoBackends/D3D/PSTextureDecoder.cpp:255 | the kernel's padding is the least multiple of 4 at or above the dimension |
| PSTextureDecoder.TmemPadAsWritten | Source/Core/VideoBackends/D3D/PSTextureDecoder.cpp:511-512 | the padding as written, `(n+4)&~4` on 32 bits; `TmemPadAsWrittenMismatch` shows where it differs from the kernel's |
| PSTextureDecoder.TmemPadAsWrittenMismatch | Source/Core/VideoBackends/D3D/PSTextureDecoder.cpp:511-512 | as written, width 3 pads to 3 and width 4 to 8, so a 4 x 4 texture's AR plane is 128 bytes where the kernel expects 32 |
| PSTextureDecoder.TmemPlaneCoversTexture | Source/Core/VideoBackends/D3D/PSTextureDecoder.cpp:255 | with the kernel's padding, the plane covers the texture, with at most three padding texels per row and column |
| PSTextureDecoder.TmemPlaneIsWholeTiles | Source/Core/VideoBackends/D3D/PSTextureDecoder.cpp:255-258 | the plane is a whole number of 32-byte 4 x 4 tiles |
| PSTextureDecoder.Stored | Source/Core/VideoBackends/D3D/D3DPtr.h:151-154 | `ToAddr(result)` leaves the written pointer if any, else the previous value |
| PSTextureDecoder.BlobBytes | Source/Core/VideoBackends/D3D/PSTextureDecoder.cpp:402-407 | a failed compile leaves a null blob, so no bytes are appended |
| PSTextureDecoder.SetStaticCompilesOnce | Source/Core/VideoBackends/D3D/PSTextureDecoder.cpp:386-414 | a present key compiles and appends nothing; a missing key adds exactly one record and one compile and enters the map whatever the outcome, so no key is compiled twice |
| PSTextureDecoder.FailedCompileIsRemembered | Source/Core/VideoBackends/D3D/PSTextureDecoder.cpp:403-414 | a failed compile still creates a null entry, so a second attempt fails without compiling |
| PSTextureDecoder.Pooled | Source/Core/VideoBackends/D3D/PSTextureDecoder.cpp:438-452 | the pool gains key `{0, w, h}` if missing and keeps every existing texture |
| PSTextureDecoder.PoolReused | Source/Core/VideoBackends/D3D/PSTextureDecoder.cpp:438-452 | a second decode of the same size reuses the first one's texture |
| PSTextureDecoder.TextureDecoder.constructor | Source/Core/VideoBackends/D3D/PSTextureDecoder.h:21 | not ready, no shaders, no pool, empty disk log |
| PSTextureDecoder.TextureDecoder.Init | Source/Core/VideoBackends/D3D/PSTextureDecoder.cpp:285-323 | the decoder becomes ready, and reading the disk cache adds no permutation because the inserter's `Read` is empty |
| PSTextureDecoder.TextureDecoder.Shutdown | Source/Core/VideoBackends/D3D/PSTextureDecoder.cpp:325-330 | the decoder is no longer ready and nothing else changes |
| PSTextureDecoder.TextureDecoder.SetStaticShader | Source/Core/VideoBackends/D3D/PSTextureDecoder.cpp:377-415 | the new state and the result are `SetStatic` of the old state |
| PSTextureDecoder.SetStatic | Source/Core/VideoBackends/D3D/PSTextureDecoder.cpp:377-415 | the selection on values: the palette format forced to 0 outside formats 8-10, a present key binds its stored shader, a missing key is compiled, created and entered with its record; `SetStaticCompilesOnce` and `FailedCompileIsRemembered` state its properties |
| PSTextureDecoder.TextureDecoder.InsertShader | Source/Core/VideoBackends/D3D/PSTextureDecoder.cpp:417-422 | the key's slot takes the created shader, or keeps its value when creation writes nothing |
| PSTextureDecoder.TextureDecoder.LoadLut | Source/Core/VideoBackends/D3D/PSTextureDecoder.cpp:424-428 | the palette bytes are uploaded and the palette format recorded for the next decode |
| PSTextureDecoder.TextureDecoder.PoolTexture | Source/Core/VideoBackends/D3D/PSTextureDecoder.cpp:438-452 | the pool becomes `Pooled` of the old pool and the texture of `{0, w, h}` is returned |
| PSTextureDecoder.TextureDecoder.Decode | Source/Core/VideoBackends/D3D/PSTextureDecoder.cpp:429-483 | returns 0; not ready does nothing; otherwise the shader is selected with the recorded palette format, and on success the pool texture is taken, the staging area uploaded, `ceil(w/8) x ceil(h/8)` groups dispatched and the pool texture copied into mip `level` of the destination |
| PSTextureDecoder.TextureDecoder.DecodeRGBAFromTMEM | Source/Core/VideoBackends/D3D/PSTextureDecoder.cpp:485-533 | as `Decode` with shader format 0xF, uploading the AR plane and then the GB plane behind it, padded as the kernel reads them, and copying into mip 0 |
| PSTextureEncoder.KeyRoundTrip | Source/Core/VideoBackends/D3D/PSTextureEncoder.h:60-65 | with `srcFormat < 4` and `dstFormat < 16`, every parameter is read back from its bit field |
| PSTextureEncoder.MakeComboKey | Source/Core/VideoBackends/D3D/PSTextureEncoder.h:60-65 | `model5` at bit 24, `dstFormat` from bit 4, `srcFormat` from bit 2, intensity at bit 1 and half scaling at bit 0; `KeyRoundTrip`, `KeyInjective` and the range lemmas state what the key keeps |
| PSTextureEncoder.KeyInjective | Source/Core/VideoBackends/D3D/PSTextureEncoder.h:63-64 | in range, two parameter sets share a key iff they are equal |
| PSTextureEncoder.KeyBelow256 | Source/Core/VideoBackends/D3D/PSTextureEncoder.h:63-64 | in range, a key without `model5` is below 2^8 |
| PSTextureEncoder.Model5KeyBelow2To25 | Source/Core/VideoBackends/D3D/PSTextureEncoder.h:63-64 | in range, a key with `model5` lies in [2^24, 2^25) |
| PSTextureEncoder.SourceFormatFourCollides | Source/Core/VideoBackends/D3D/PSTextureEncoder.h:63 | out of range the fields overlap: pixel format 4 with destination 0 collides with pixel format 0 with destination 1 |
| PSTextureEncoder.ForwardAll | Source/Core/VideoBackends/D3D/PSTextureEncoder.h:71-77 | the inserter turns each record into one `InsertShader` call with the same key, the same bytes and their length |
| PSTextureEncoder.ForwardAllAppend | Source/Core/VideoBackends/D3D/PSTextureEncoder.h:71-77 | reading two batches of records forwards them in the same order |
| BPFunctions.CullTable | Source/Plugins/Plugin_VideoDX9/Src/BPFunctions.cpp:59-65 | 0 maps to NONE, 2 to CW, 1 and 3 to CCW |
| BPFunctions.CullFor | Source/Plugins/Plugin_VideoDX9/Src/BPFunctions.cpp:59-65 | `d3dCullModes` indexed by the two-bit cull mode; `CullTable` states its values |
| BPFunctions.CmpForFollowsBits | Source/Plugins/Plugin_VideoDX9/Src/BPFunctions.cpp:67-77 | the comparison table passes "less", "equal" and "greater" as bits 0, 1 and 2 of the code say |
| BPFunctions.CmpFor | Source/Plugins/Plugin_VideoDX9/Src/BPFunctions.cpp:67-77 | `d3dCmpFuncs` indexed by the three-bit compare code; `CmpForFollowsBits` states what each entry passes |
| BPFunctions.FactorTablesSwapColour | Source/Plugins/Plugin_VideoDX9/Src/BPFunctions.cpp:35-57 | the source and destination factor tables agree except on codes 2 and 3, which name the other operand's colour |
| BPFunctions.SrcFactor | Source/Plugins/Plugin_VideoDX9/Src/BPFunctions.cpp:35-45 | `d3dSrcFactors` indexed by the three-bit factor code |
| BPFunctions.DestFactor | Source/Plugins/Plugin_VideoDX9/Src/BPFunctions.cpp:47-57 | `d3dDestFactors` indexed by the three-bit factor code; `FactorTablesSwapColour` relates the two tables |
| BPFunctions.ColorWriteMask | Source/Plugins/Plugin_VideoDX9/Src/BPFunctions.cpp:108-123 | 0 when every primitive is culled; otherwise ALPHA iff `alphaupdate` and RED, GREEN, BLUE iff `colorupdate` |
| BPFunctions.StageOf | Source/Plugins/Plugin_VideoDX9/Src/BPFunctions.cpp:281-296 | the stage is below 8, and it is 4 or more iff `(address & 0xE0) == 0xA0` |
| BPFunctions.TexModeAt | Source/Plugins/Plugin_VideoDX9/Src/BPFunctions.cpp:280-282 | the texture mode read is unit `stage % 4` of register group `stage / 4` |
| BPFunctions.SamplerFilters | Source/Plugins/Plugin_VideoDX9/Src/BPFunctions.cpp:284-303 | anisotropy above 1 gives ANISOTROPIC/LINEAR/LINEAR; else forced filtering gives all LINEAR; else min by bit 2, mag by `mag_filter` and mip from the table |
| BPFunctions.MipFor | Source/Plugins/Plugin_VideoDX9/Src/BPFunctions.cpp:79-85 | `d3dMipFilters`: none, point, linear, and the reserved code 3 as linear |
| BPFunctions.AddressFor | Source/Plugins/Plugin_VideoDX9/Src/BPFunctions.cpp:87-93 | `d3dClamps`: clamp, wrap, mirror, and the reserved code 3 as wrap |
| BPFunctions.ClearFlags | Source/Plugins/Plugin_VideoDX9/Src/BPFunctions.cpp:229-247 | TARGET iff colour or alpha updates are on; ZBUFFER and STENCIL iff depth updates are on; no other bit |
| BPFunctions.ClearColorHalves | Source/Plugins/Plugin_VideoDX9/Src/BPFunctions.cpp:233-238 | with the colour target cleared, the colour holds AR in its high half and GB in its low half |
| BPFunctions.ClearColor | Source/Plugins/Plugin_VideoDX9/Src/BPFunctions.cpp:233-238 | the clear colour, AR shifted into the high half and ORed with GB, when colour or alpha updates are on, else 0; `ClearColorHalves` states the halves |
| BPFunctions.ScaledDepth | Source/Plugins/Plugin_VideoDX9/Src/BPFunctions.cpp:243 | the 24-bit depth scaled into [0, 1], 0 and 1 exactly at the extreme codes |
| BPFunctions.ClearDepthIsScaled | Source/Plugins/Plugin_VideoDX9/Src/BPFunctions.cpp:241-247 | the clamps never apply: the clear depth is the scaled value with depth updates on, else 0 |
| BPFunctions.ClearDepth | Source/Plugins/Plugin_VideoDX9/Src/BPFunctions.cpp:241-247 | the scaled 24-bit depth clamped to [0, 1] when depth updates are on, else 0; `ClearDepthIsScaled` shows the clamps never apply |
| BPFunctions.GetConfig | Source/Plugins/Plugin_VideoDX9/Src/BPFunctions.cpp:257-271 | true only for the Wii query on a Wii game; an unknown query raises an alert and returns false |
| BPFunctions.RenderDevice.constructor | Source/Plugins/Plugin_VideoDX9/Src/BPFunctions.cpp:103-106 | no render state, no sampler state and no clear written yet |
| BPFunctions.RenderDevice.SetRenderState | Source/Plugins/Plugin_VideoDX9/Src/BPFunctions.cpp:106 | one render-state write overrides that state only |
| BPFunctions.RenderDevice.SetSampler | Source/Plugins/Plugin_VideoDX9/Src/BPFunctions.cpp:304 | one sampler-state write overrides that stage's state only |
| BPFunctions.RenderDevice.SetGenerationMode | Source/Plugins/Plugin_VideoDX9/Src/BPFunctions.cpp:103-124 | CULLMODE from the table and COLORWRITEENABLE from `ColorWriteMask`; no other state changes |
| BPFunctions.RenderDevice.SetDepthMode | Source/Plugins/Plugin_VideoDX9/Src/BPFunctions.cpp:138-151 | test on: ZENABLE true, ZWRITE as the register says, ZFUNC from the table; test off: both false and ZFUNC untouched |
| BPFunctions.RenderDevice.SetBlendMode | Source/Plugins/Plugin_VideoDX9/Src/BPFunctions.cpp:153-191 | each state is written only when its change bits are set; with bit 11 the final factors are ONE/ONE and SUBTRACT when subtracting, else the table factors and ADD, whatever was written before |
| BPFunctions.RenderDevice.WriteGroupFactors | Source/Plugins/Plugin_VideoDX9/Src/BPFunctions.cpp:155-174 | bit 0 writes the blend enable, bits 8-10 the source factor, bits 5-7 the destination factor (ONE when subtracting) |
| BPFunctions.RenderDevice.WriteCombinedGroup | Source/Plugins/Plugin_VideoDX9/Src/BPFunctions.cpp:175-190 | bit 11 writes both factors and the blend operation |
| BPFunctions.RenderDevice.SetDitherMode | Source/Plugins/Plugin_VideoDX9/Src/BPFunctions.cpp:192-195 | DITHERENABLE as the register says, and nothing else |
| BPFunctions.RenderDevice.SetSamplerState | Source/Plugins/Plugin_VideoDX9/Src/BPFunctions.cpp:278-316 | the addressed stage gets the three filters, the anisotropy and the two clamp modes of its unit; no other stage changes |
| BPFunctions.RenderDevice.WriteStage | Source/Plugins/Plugin_VideoDX9/Src/BPFunctions.cpp:304-310 | the six sampler writes land on the one stage |
| BPFunctions.RenderDevice.ClearScreen | Source/Plugins/Plugin_VideoDX9/Src/BPFunctions.cpp:218-250 | the viewport is marked changed and exactly one clear is issued with the flags, the colour and the scaled depth |

## Left out

- D3DShader.CreateCheckedFromByteCode: returns only the pointer. The Release its local owner makes on a failed creation is stated apart, by `CheckedCreateReleases`.
- VertexShaderCache.VertexShaderCache.InsertByteCode: its log holds the Releases of shaders the cache owned. It does not hold the creation helper's own Release of a pointer a failed creation wrote, which the cache never holds (`CheckedCreateReleases`).
- Native D3D and D3D9 calls are oracles given as parameters or constant fields. Their HRESULTs beyond success or failure, debug object names, logging, `PanicAlert`, failure dump files, stats and `GFX_DEBUGGER_*` macros are not modelled.
- The `LinearDiskCache` file format is not modelled: the disk cache is a sequence of records, and `Sync`/`Close` are not modelled.
- The shader generators and uid computation (`GetPixelShaderUid`, `GeneratePixelShaderCode` and the vertex counterparts) are not part of this model. A uid is an ordered key handed to `SetShader`, and `UidChecker` is left out.
- The HLSL shader texts are not modelled, except for `Read565`, `Read5A3`, the dispatch bound test and the plane offset of the TMEM kernel. This covers the helper programs, the texel decoders, `DecodeCmpr` and the MSAA sample count inside the generated text.
- `PixelShaderCache::Shutdown`, `GetClearProgram` and `VertexShaderCache::Shutdown` are not modelled: they are resets and releases of static slots, like `Clear`. The simple and clear vertex shaders and layouts in `VertexShaderCache::Init` are not modelled either.
- Shader debugging's `code` field on cache entries is not modelled: it is a debug string.
- The body of `VertexManager::Draw` (recorded as one call with its stride), `DestroyDeviceObjects`, the line/point shader and the commented-out z-slope code are not modelled. They are float viewport arithmetic and native calls.
- The staged vertex and index bytes are array contents given to the model. The vertex loader and index generator that fill them are not modelled.
- VertexManager.Place: u32 wrap-around of the cursor arithmetic is not modelled. Values are unbounded naturals, which matches the code only while the sums stay below 2^32. That holds for cursors up to VBUFFER_SIZE and batch sizes the staging buffers can hold.
- VertexManager.VertexManager.PrepareDrawBuffers requires a batch that fits an empty ring buffer. A larger batch would make the code copy past the mapped buffer, which is undefined behaviour.
- PSTextureDecoder.TextureDecoder.Decode: the texture dimensions are unbounded naturals, so `(w+7)/8` and the plane sizes do not wrap at 2^32.
- PSTextureDecoder.ShaderDefines: a palette format of 3 or more indexes past the three-entry `LutFunc` table in the code. The model yields no macro (`None`) rather than an arbitrary pointer.
- PSTextureDecoder.TextureDecoder.InsertShader: a replaced shader's Release is not logged.
- PSTextureDecoder.TextureDecoder.DecodeRGBAFromTMEM: uploads planes padded as the kernel reads them (`TmemPlane`, Findings row 3), not the code's `(w+4)&~4` planes. `TmemPadAsWrittenMismatch` states the difference.
- PixelShaderCache.Select: on a successful compile it uses the corrected success result of `Insert` (Findings row 2). As written, the code reports false after storing the shader (`InsertResultAsWritten`).
- PixelShaderCache.PixelShaderCache.InsertByteCode: returns the corrected success result of `Insert` (Findings row 2), not the as-written false.
- PixelShaderCache.PixelShaderCache.SetShader: follows `Select`, and so the corrected success result of `Insert` (Findings row 2).
- PixelShaderCache.PixelShaderCache.Store: the entry's shader is a raw pointer, so a replaced shader is overwritten without a Release, as in the code.
- VertexManager.VertexManager.constructor: allocates the corrected staging sizes (`StagingPadded`, Findings row 4), 16 bytes more behind each buffer than the code's `MAXVBUFFERSIZE+16` bytes and `MAXIBUFFERSIZE` indices. With the code's sizes, the copies of a full batch read past the staging buffers (`StagingOverReadAsWritten`).
- VertexManager.VertexManager.Flush: the renderer calls are a list, so the place of `FlushTextures` relative to the buffer copies is not captured. The `useDstAlpha` choice of pixel shader uid is part of the uid handed in.
- D3DPtr.OwnershipLifetime: proves "released exactly once" for one fixed sequence of owner operations over any two objects, not for every sequence of operations.
- The texture encoder's `.cpp` (`Init`, `Encode`, `SetStaticShader`, the encoder's `InsertShader`) is not part of this model. Its key and its disk-cache reader are modelled.
- BPFunctions.ScaledDepth: the clear depth is a real number, so float rounding of `clearZ` is not modelled.
- `SetLineWidth` is not modelled: it bit-casts a float.
- BPFunctions' `SetScissor`, `SetColorMask`, `CopyEFB` and `FlushPipeline` are not modelled. They only forward to code not shown here.
- BPFunctions' `SetLogicOpMode`, `RestoreRenderState` and `SetInterlacingMode` have empty bodies and are not modelled.
- BPFunctions' `GetPointer` is not modelled: it forwards to the memory mapper.
- `UniquePtr`'s comparison operators and `explicit operator bool` compare the held pointer. They are `Get()` and `IsSet()` in the model, with no contract of their own.
- The `ReleaseAndAddRefHiddenT` cast is not modelled: it only hides methods at compile time.
- Common/Hash.h, D3DShader.h, XFBEncoder.h and MainNoGUI.cpp are not part of this model.

## Findings

| source | as written | input that shows it | evidently intended | confidence | as-written member | corrected member |
|---|---|---|---|---|---|---|
| Source/Core/VideoBackends/D3D/PixelShaderCache.cpp:521-544 | `last_uid = uid` is assigned before the lookup, so a failed compile leaves `last_entry` on the previous shader while `last_uid` names the new uid (the same holds at VertexShaderCache.cpp:200-222) | select A (compiles), then select B whose compile fails, then select B again: the second call takes the fast path and returns true with A's shader active | assign `last_uid` together with `last_entry`, so the fast path only trusts a memo for its own uid | medium, not executed | PixelShaderCache.StaleMemoAfterFailedCompile | PixelShaderCache.SelectFixedIsStable |
| Source/Core/VideoBackends/D3D/PixelShaderCache.cpp:570-578 | the entry's shader is assigned from `std::move(shader)` and success is then tested with `if (!shader)` on the moved-from local | any bytecode the device accepts: the shader is stored but `InsertByteCode` returns false, so `SetShader` fails and `vFlush` skips the draw | test the stored entry's shader (or test before the move) and return true | low, not executed (the header declares the entry's field as a raw pointer, which a `UniquePtr` cannot be moved into, so this form may not compile as shown) | PixelShaderCache.InsertResultAsWritten | PixelShaderCache.Insert |
| Source/Core/VideoBackends/D3D/PSTextureDecoder.cpp:511-512 | `aw = (w+4)&~4` clears bit 2 instead of rounding up to a multiple of 4, while the kernel reads the GB plane at `2*((w+3)&~3)*((h+3)&~3)` | w = h = 4: the AR plane uploaded is 128 bytes and the GB plane lands at byte 128, but the kernel reads it from byte 32 | `aw = (w+3)&~3`, `ah = (h+3)&~3`, so uploads and kernel agree | high, not executed | PSTextureDecoder.TmemPadAsWrittenMismatch | PSTextureDecoder.TmemPlaneCoversTexture |
| Source/Core/VideoBackends/D3D/VertexManager.cpp:100-104 | `LocalVBuffer` holds `MAXVBUFFERSIZE+16` bytes and `LocalIBuffer` `MAXIBUFFERSIZE` indices, but the copies at lines 156 and 159 round both regions up to 16 bytes | a staged batch that fits an empty ring buffer, with `MAXVBUFFERSIZE` vertex bytes whose end in the ring is not a multiple of 16 (or `MAXIBUFFERSIZE` indices, not a multiple of 8): the copy reads up to 15 bytes past the end of the staging buffer | 16 bytes of padding behind each staging buffer | medium, not executed | VertexManager.StagingOverReadAsWritten | VertexManager.PaddedStagingIsCopyable |
