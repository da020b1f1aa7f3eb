# Pointer engine and datamap offset cache, modelled in Dafny

This project models two pieces of the Source.Python core and proves properties of them.

**`CPointer` (module `MemoryPointer`, `memory_pointer.dfy`).** This is the raw-memory handle of the
`memory` module. A handle is an address plus an auto-deallocate flag. The constructor alone sets
both fields, so the handle is the value `Pointer(addr, autoDealloc)`.

Process memory is the class `Memory`:
- `bytes` is a partial map from 32-bit addresses to bytes. An address outside its domain is one
  whose access would fault; the source traps that fault and raises it as an exception, and here it
  becomes `MemoryFault`.
- `events` is the ordered log of the lifecycle callbacks and foreign allocator calls the handle
  issues.

The model covers these operations:
- every accessor refuses the null address first;
- C-string read and write;
- pointer-word load and store (4 bytes, little-endian);
- three-way compare;
- the overlap test;
- `Copy`, which refuses overlapping ranges, and `Move`, which allows them;
- the byte-pattern search, where `0x2A` is a wildcard;
- vtable slot lookup, and the two ways of binding a virtual function;
- the deallocation and reallocation callbacks, and their order.

Each operation checks its whole range before it writes anything. Signed offsets (`iOffset`,
`4 * index`, `m_iVtableOffset`) are added modulo 2^32, as `unsigned long` arithmetic is on a
32-bit target.

**Datamap field offsets (module `DataMaps`, `entities_datamaps.dfy`).** An engine class's field
metadata (`datamap_t`, `typedescription_t`) is an inductive datatype, so base chains and embedding
are finite and acyclic. The model covers:
- `AddDataDesc` and `AddDataMap`, which flatten a class's fields into a `name -> absolute offset`
  map. Embedded structures are expanded under dotted names, and `insert` never overwrites.
- `find_offset`, which walks the base-class chain through the global cache `g_DataMapsCache`. The
  cache holds, per class name, that class's flattened map, and it is built lazily.
- `find`, the uncached search by field name or external name.
- `__getitem__`, bounds-checked indexed access.

Flattening is specified by the sequence of `(name, offset)` pairs it offers to `insert`. The meaning
of that sequence is proved: one pair per *leaf path*, which is a chain of named embedded fields
ending at a named non-embedded field. Each pair's name is the dotted path and its offset is the sum
of the relative offsets along the path.

`find_offset`'s result is proved equal to the offset held by the nearest class of the chain whose
own flattened map has the name, or -1. This holds under two conditions:
- the cache is coherent for the chain, meaning each cached entry is that class's flattened map;
- class names along a chain are distinct.

Without either condition, the method still keeps every existing entry and adds only flattened maps
of the chain's classes.

`wrappers.dfy` holds the shared `Option`, `Result` and `Outcome` types.

## Model

Source paths are relative to the repository root.

| member | source | states |
|---|---|---|
| MemoryPointer.Validate | src/core/modules/memory/memory_pointer.cpp:304-308 | Fails exactly when the address is 0, and then with "Pointer is NULL". |
| MemoryPointer.Offset | src/core/modules/memory/memory_pointer.cpp:48-91 | A signed offset added to an address stays an address (32-bit wrap). It is the plain sum whenever that sum is in range. |
| MemoryPointer.WriteBytes | src/core/modules/memory/memory_pointer.cpp:158-163 | A store maps and unmaps nothing. The stored range holds the new bytes in order, and every other byte is unchanged. |
| MemoryPointer.ReadAfterWrite | src/core/modules/memory/memory_pointer.cpp:158-163 | Reading back a range just written yields exactly the bytes written. |
| MemoryPointer.ReadOutsideWrite | src/core/modules/memory/memory_pointer.cpp:158-163 | A range disjoint from a write reads the same before and after it. |
| MemoryPointer.DecodeEncodeLE | src/core/modules/memory/memory_pointer.cpp:65-84 | Any value below 256^n survives encoding as n little-endian bytes and decoding. |
| MemoryPointer.EncodeDecodeLE | src/core/modules/memory/memory_pointer.cpp:65-84 | Any byte sequence is the encoding of the value it decodes to. |
| MemoryPointer.WordCodecRoundTrip | src/core/modules/memory/memory_pointer.cpp:65-91 | A 32-bit address stored as a word loads back as the same address. |
| MemoryPointer.WordCodecSurjective | src/core/modules/memory/memory_pointer.cpp:65-71 | Every 4-byte word is the stored form of the address loaded from it, so loads lose nothing. |
| MemoryPointer.ReadWord | src/core/modules/memory/memory_pointer.cpp:65-71 | Defines the load of `GetPtrHelper`: the 4-byte little-endian word at an address. Its meaning is proved by `WordCodecRoundTrip`, `WordCodecSurjective` and `StoreThenLoadWord`. |
| MemoryPointer.StoreThenLoadWord | src/core/modules/memory/memory_pointer.cpp:65-91 | `GetPtr` after `SetPtr` at one place returns the stored address. Every word disjoint from it keeps its value. |
| MemoryPointer.CPrefix | src/core/modules/memory/memory_pointer.cpp:57-63 | What `strcpy` copies is a NUL-free prefix of the text. When the text is longer, that prefix ends right before the text's first NUL. |
| MemoryPointer.CStringAt | src/core/modules/memory/memory_pointer.cpp:48-55 | Reading a C string can fail only with a memory fault. |
| MemoryPointer.CStringAtMeaning | src/core/modules/memory/memory_pointer.cpp:48-55 | Reading at `a` yields `s` if and only if `s` is stored at `a`, contains no NUL, and is followed by a NUL. |
| MemoryPointer.CStringStoreThenLoad | src/core/modules/memory/memory_pointer.cpp:48-63 | Reading the string just stored yields the copied text, that is the text up to its first NUL. |
| MemoryPointer.CStringLoadThenStore | src/core/modules/memory/memory_pointer.cpp:48-63 | The bytes read, plus a terminator, are mapped, and writing them back changes no byte. |
| MemoryPointer.CPrefixOfPlainText | src/core/modules/memory/memory_pointer.cpp:57-63 | Text with no NUL is copied whole. |
| MemoryPointer.CompareSeq | src/core/modules/memory/memory_pointer.cpp:93-99 | The comparison is -1, 0 or 1, and 0 exactly when the two byte ranges are equal. |
| MemoryPointer.CompareSeqFirstDifference | src/core/modules/memory/memory_pointer.cpp:93-99 | A non-zero result is decided by the first differing byte, as unsigned values. |
| MemoryPointer.CompareSeqAntisymmetric | src/core/modules/memory/memory_pointer.cpp:93-99 | Swapping the operands negates the result. |
| MemoryPointer.IsOverlapping | src/core/modules/memory/memory_pointer.cpp:109-116 | Defines `IsOverlapping`: the lower handle's range reaches the higher handle. Its meaning is proved by `IsOverlappingMeaning`. |
| MemoryPointer.IsOverlappingMeaning | src/core/modules/memory/memory_pointer.cpp:109-116 | The overlap test is symmetric. It holds exactly when the two `n`-byte half-open ranges share an address, so it is false for `n == 0`. |
| MemoryPointer.CopyKeepsSource | src/core/modules/memory/memory_pointer.cpp:165-175 | After a copy between non-overlapping ranges, the source range still holds its old bytes. |
| MemoryPointer.Probe | src/core/modules/memory/memory_pointer.cpp:123-135 | Defines the inner `for` loop of `SearchBytesHelper` at one start: match, mismatch, or a fault on an unmapped byte. Its meaning is proved by `ProbeMeaning`, `ProbeMismatchNoMatch` and `ProbeFaultUnmapped`. |
| MemoryPointer.Scan | src/core/modules/memory/memory_pointer.cpp:118-140 | Defines the outer `while` loop of `SearchBytesHelper`: starts from `base` up to `end`, stopping at the first match or fault. Its meaning is proved by `ScanFindsFirst` and `ScanFoundIsAddress`. |
| MemoryPointer.ProbeMeaning | src/core/modules/memory/memory_pointer.cpp:118-140 | A probe at one start matches exactly when every non-wildcard pattern byte from there on equals the mapped byte at the same distance. |
| MemoryPointer.ProbeMismatchNoMatch | src/core/modules/memory/memory_pointer.cpp:118-140 | A mismatching probe met a mapped byte that differs from a non-wildcard pattern byte. |
| MemoryPointer.ProbeFaultUnmapped | src/core/modules/memory/memory_pointer.cpp:118-140 | A faulting probe touched a range that is not fully mapped. |
| MemoryPointer.ProbeMatchUnmapped | src/core/modules/memory/memory_pointer.cpp:118-140 | A probe can match beyond the address space only if the rest of the pattern is all wildcards. |
| MemoryPointer.ScanFoundIsAddress | src/core/modules/memory/memory_pointer.cpp:118-140 | A search that starts at an address finds only addresses. |
| MemoryPointer.ScanFindsFirst | src/core/modules/memory/memory_pointer.cpp:118-156 | The search returns the lowest matching start in the range, and reports no match only when no start matches. It cannot fault when every byte it may probe is mapped. |
| MemoryPointer.WildcardPatternMatchesFirst | src/core/modules/memory/memory_pointer.cpp:118-156 | A pattern of only `0x2A` bytes matches at the first start of any non-empty range. |
| MemoryPointer.VirtualFuncAt | src/core/modules/memory/memory_pointer.cpp:192-202 | Defines `GetVirtualFuncHelper`: read the vtable pointer at the address, refuse a null one, then read slot `index`. Its meaning is proved by `NullVTableEveryIndex` and `VirtualFuncReadsSlot`. |
| MemoryPointer.NullVTableEveryIndex | src/core/modules/memory/memory_pointer.cpp:192-202 | A null vtable pointer is refused with "Failed to get the virtual function table." for every index. |
| MemoryPointer.VirtualFuncReadsSlot | src/core/modules/memory/memory_pointer.cpp:192-202 | With a vtable laid out at the vtable pointer, slot `i` yields the table's `i`-th entry. |
| MemoryPointer.MakeFunction | src/core/modules/memory/memory_pointer.cpp:226-230 | Binding refuses the null handle. Otherwise it records the handle's own address with the given convention, arguments and return type. |
| MemoryPointer.MakeFunctionFromInfo | src/core/modules/memory/memory_pointer.cpp:215-224 | The info overload binds exactly like the explicit overload given the signature held in the info. |
| MemoryPointer.BindSlot | src/core/modules/memory/memory_pointer.cpp:232-235 | Defines the index overload's hand-over, where the fetched slot goes to `MakeFunction` and its errors pass through. Its meaning is proved by `VirtualBindingPathsAgree`. |
| MemoryPointer.VirtualBindingPathsAgree | src/core/modules/memory/memory_pointer.cpp:232-249 | For a valid handle whose virtual info has vtable offset 0, both binding paths use the same slot. On a non-null slot they bind it alike. On a null slot the index path refuses with "Pointer is NULL". |
| MemoryPointer.Memory.GetStringArray | src/core/modules/memory/memory_pointer.cpp:48-55 | Null handle: "Pointer is NULL". If `addr + offset` wraps to 0, the result is the null string (`None`) and no byte is read. Otherwise a string is returned only if it is stored NUL-terminated there, and a fault is reported only if no such string exists. |
| MemoryPointer.Memory.SetStringArray | src/core/modules/memory/memory_pointer.cpp:57-63 | Null handle or unmapped target: memory unchanged and the error reported. Otherwise writes the text up to its first NUL plus a terminator, and reading back yields that text. |
| MemoryPointer.Memory.GetPtr | src/core/modules/memory/memory_pointer.cpp:65-77 | Null handle or unmapped word is refused. Otherwise returns a non-owning handle to the address stored in the word at `addr + offset`. |
| MemoryPointer.Memory.SetPtr | src/core/modules/memory/memory_pointer.cpp:79-91 | Only the receiver is validated. On success the word at `addr + offset` loads back as the other handle's address, and no other byte changes. |
| MemoryPointer.Memory.Compare | src/core/modules/memory/memory_pointer.cpp:93-107 | Validates both handles, then compares `n` bytes. The result is 0 exactly when the ranges are equal. |
| MemoryPointer.Memory.Copy | src/core/modules/memory/memory_pointer.cpp:158-175 | Validates both handles. Then `Overlapping` is raised exactly when the ranges overlap. A non-overlapping copy over mapped ranges succeeds, and an unmapped one faults. On success the destination holds the source's old bytes, the source is intact, and nothing else changes. On failure nothing changes. |
| MemoryPointer.Memory.Move | src/core/modules/memory/memory_pointer.cpp:177-190 | Validates both handles. There is no overlap check: a move over mapped ranges always succeeds, overlapping ones included, and an unmapped one faults. On success the destination holds the source's bytes as they were before the call, and nothing else changes. |
| MemoryPointer.Memory.SearchBytes | src/core/modules/memory/memory_pointer.cpp:118-156 | Null handle refused; a range shorter than the pattern is refused. Otherwise the loops return the first match in `[addr, addr + n - len + 1)`, a null handle when there is none, or the fault the probing met. |
| MemoryPointer.Memory.GetVirtualFunc | src/core/modules/memory/memory_pointer.cpp:192-208 | Validates, reads the vtable pointer at `addr`, refuses a null vtable, and otherwise returns a handle to slot `index`. |
| MemoryPointer.Memory.MakeVirtualFunction | src/core/modules/memory/memory_pointer.cpp:232-235 | Equals `GetVirtualFunc(index)` followed by `MakeFunction` on the fetched handle, errors included. |
| MemoryPointer.Memory.MakeVirtualFunctionFromInfo | src/core/modules/memory/memory_pointer.cpp:237-249 | Validates, then refuses non-virtual info. Otherwise binds slot `vtableIndex` of the vtable found at `addr + vtableOffset`, without validating the slot. |
| MemoryPointer.Memory.Realloc | src/core/modules/memory/memory_pointer.cpp:210-213 | Does not validate. Logs the allocator call and returns a non-owning handle to the new block. |
| MemoryPointer.Memory.Dealloc | src/core/modules/memory/memory_pointer.cpp:271-276 | Logs exactly one deallocation of the handle's address. |
| MemoryPointer.Memory.PreDealloc | src/core/modules/memory/memory_pointer.cpp:271-276 | The `on_dealloc` callback is logged immediately before the deallocation, and nothing else. |
| MemoryPointer.Memory.PreRealloc | src/core/modules/memory/memory_pointer.cpp:278-283 | The `on_realloc` callback is logged immediately before the reallocation, whose handle is returned. |
| MemoryPointer.Memory.Del | src/core/modules/memory/memory_pointer.cpp:285-293 | An owning handle runs the callback, then the deallocation. A non-owning one logs nothing. |
| DataMaps.Insert | src/core/modules/entities/entities_datamaps.cpp:85 | Defines `offsets.insert(pair)`, which leaves an existing key's value alone. Its meaning is proved by `InsertAllFirstWins`. |
| DataMaps.DescEntries | src/core/modules/entities/entities_datamaps.cpp:62-87 | Defines the pairs `AddDataDesc` inserts, in order. Its meaning is proved by `MapEntriesAreLeafPaths` through `LeafPathOfEntry` and `EntryOfLeafPath`. |
| DataMaps.MapEntries | src/core/modules/entities/entities_datamaps.cpp:89-95 | Defines the pairs `AddDataMap` inserts, in field order. Its meaning is proved by `MapEntriesAreLeafPaths`. |
| DataMaps.Flatten | src/core/modules/entities/entities_datamaps.cpp:62-95 | Defines a class's flattened map: every pair inserted into an empty map, first one winning. Its meaning is proved by `FlattenMeaning`. |
| DataMaps.FirstWith | src/core/modules/entities/entities_datamaps.cpp:85 | Gives the index of the first pair with a given name: no earlier pair has it, and the pair there does, unless there is none. |
| DataMaps.InsertAllAppend | src/core/modules/entities/entities_datamaps.cpp:89-95 | Inserting two runs of pairs one after the other is inserting their concatenation. |
| DataMaps.InsertAllFirstWins | src/core/modules/entities/entities_datamaps.cpp:79-95 | A key already present keeps its value. A new key is present exactly when some pair names it, and it takes the offset of the first such pair. |
| DataMaps.FieldsEntriesMembership | src/core/modules/entities/entities_datamaps.cpp:89-95 | The pairs from the first `k` descriptors are exactly those from some descriptor before `k`. |
| DataMaps.LeafEntryThroughEmbedded | src/core/modules/entities/entities_datamaps.cpp:67-81 | Going down an embedded field appends `.<field>` to the base name and adds the field's offset to the enclosing offset. |
| DataMaps.LeafPathOfEntry | src/core/modules/entities/entities_datamaps.cpp:62-95 | Every pair flattening produces is the dotted name and summed offset of some leaf path. |
| DataMaps.EntryOfLeafPath | src/core/modules/entities/entities_datamaps.cpp:62-95 | Every leaf path yields a pair that flattening produces. |
| DataMaps.MapEntriesAreLeafPaths | src/core/modules/entities/entities_datamaps.cpp:62-95 | The pairs are exactly the leaf paths, each named `<base>.<dotted path>` (or the bare dotted path at top level) at enclosing offset plus path offsets. Unnamed descriptors and embedded fields themselves contribute no pair. |
| DataMaps.EmbeddedFieldKeysAreNested | src/core/modules/entities/entities_datamaps.cpp:69-86 | Every key an embedded field contributes starts with its own dotted name and a `.`, so the field's own name is never one of them. |
| DataMaps.FlattenMeaning | src/core/modules/entities/entities_datamaps.cpp:62-95 | A class's flattened map has a key exactly when some leaf path has that dotted name. The key maps to the summed offset of such a path. |
| DataMaps.AddDataDesc | src/core/modules/entities/entities_datamaps.cpp:62-87 | Leaves the map unchanged for an unnamed descriptor. Otherwise inserts the descriptor's pairs, an embedded one expanded under its dotted name. Existing keys are never overwritten. |
| DataMaps.AddDataMap | src/core/modules/entities/entities_datamaps.cpp:89-95 | The loop inserts every descriptor's pairs in field order. Existing keys are never overwritten. |
| DataMaps.EmbeddedOffsetExample | src/core/modules/entities/entities_datamaps.cpp:67-81 | With `inner` embedded at 8 and its `x` at 4, the flattened map is exactly `{"inner.x": 12}`. |
| DataMaps.GetItem | src/core/modules/entities/entities_datamaps.cpp:101-108 | Raises IndexError exactly when `index < 0` or `index >= dataNumFields`. Otherwise returns `dataDesc[index]`. |
| DataMaps.Find | src/core/modules/entities/entities_datamaps.cpp:110-134 | Defines `find`: own fields first, then the base class. Its meaning is proved by `FindIsFirstInSearchOrder`. |
| DataMaps.FindInFields | src/core/modules/entities/entities_datamaps.cpp:112-130 | Defines the `for` loop of `find` from field `i` on, including the descent into embedded metadata. Its meaning is proved by `FindInFieldsIsFirst`. |
| DataMaps.FirstMatchMeaning | src/core/modules/entities/entities_datamaps.cpp:110-134 | The reference search returns the earliest descriptor whose field name or external name is the name, and returns none only when no descriptor has it. |
| DataMaps.FirstMatchAppend | src/core/modules/entities/entities_datamaps.cpp:110-134 | Searching a concatenation is searching the first part, then the second when the first has no match. |
| DataMaps.FindIsFirstInSearchOrder | src/core/modules/entities/entities_datamaps.cpp:110-134 | `find` returns the first matching descriptor in this order: own fields in order, each non-matching embedded field's metadata (with its base chain) before the next field, then the base class. |
| DataMaps.FindInFieldsIsFirst | src/core/modules/entities/entities_datamaps.cpp:112-130 | The `for` loop from field `i` returns the first match in the reference order of the fields from `i` on. |
| DataMaps.Chain | src/core/modules/entities/entities_datamaps.cpp:136-157 | The walk starts at the class itself. |
| DataMaps.ChainLink | src/core/modules/entities/entities_datamaps.cpp:148-151 | Each step of the walk moves to the base class's datamap, and the walk ends exactly at a class without a base. |
| DataMaps.NearestOffsetMeaning | src/core/modules/entities/entities_datamaps.cpp:136-157 | The expected lookup is absent exactly when no class of the chain has the name in its own map. Otherwise it is the value in the first class that has it. |
| DataMaps.NearestPastAbsent | src/core/modules/entities/entities_datamaps.cpp:136-157 | Skipping classes that lack the name does not change the expected lookup. |
| DataMaps.BaseFallbackExample | src/core/modules/entities/entities_datamaps.cpp:136-157 | A derived class finds an inherited `hp` in its base and its own `armor` in itself. A name in neither is missing, so the lookup gives -1. |
| DataMaps.CacheInsertStep | src/core/modules/entities/entities_datamaps.cpp:140-145 | Caching a chain class's map keeps every existing entry, and each entry added since the walk began is the flattened map of a chain class visited so far. |
| DataMaps.CacheInsertCoherent | src/core/modules/entities/entities_datamaps.cpp:140-145 | With distinct class names along the chain, caching a chain class's flattened map keeps a coherent cache coherent. |
| DataMaps.Visit | src/core/modules/entities/entities_datamaps.cpp:140-145 | Defines one cache visit, where a class without an entry gets its flattened map and a class with one is left alone. Its meaning is proved by `CacheInsertStep`, `CacheInsertCoherent` and `WalkKeeps`. |
| DataMaps.BuildOffsets | src/core/modules/entities/entities_datamaps.cpp:143-144 | Filling a fresh empty map with `AddDataMap` yields exactly the class's flattened map. |
| DataMaps.DataMapsCache.constructor | src/core/modules/entities/entities_datamaps.cpp:50 | The global cache starts empty. |
| DataMaps.DataMapsCache.FindOffset | src/core/modules/entities/entities_datamaps.cpp:136-157 | The new cache and the result are those of the walk `LookupFrom` from the old cache. A cached class is not rebuilt. An uncached one is flattened and stored. The first class whose map has the name gives the result, and -1 comes after the last class. |
| DataMaps.LookupFrom | src/core/modules/entities/entities_datamaps.cpp:138-156 | Defines the `find_offset` walk from chain position `k` on, giving the cache it leaves and the value it returns. Its meaning is proved by `LookupOutcomeOfWalk`, `WalkKeeps` and `WalkRepeats`. |
| DataMaps.LookupFromOutcome | src/core/modules/entities/entities_datamaps.cpp:138-156 | A walk that has kept its facts up to chain position `k` ends with the promised outcome. |
| DataMaps.LookupOutcomeOfWalk | src/core/modules/entities/entities_datamaps.cpp:136-157 | For a whole walk from any cache: no existing entry is rebuilt or changed, new entries are chain classes' flattened maps, and a cache holding every class of the chain is left as it was. If the cache was coherent and class names distinct: the result is the nearest class's offset or -1, every class the lookup inspected is cached, and a lookup whose classes were all cached changes nothing. |
| DataMaps.WalkKeeps | src/core/modules/entities/entities_datamaps.cpp:138-156 | A lookup walk, from any cache, keeps every entry that cache already had. |
| DataMaps.WalkRepeats | src/core/modules/entities/entities_datamaps.cpp:136-157 | From any cache, a second walk over the cache the first one left changes nothing and returns the same value. |
| DataMaps.LookupTwice | src/core/modules/entities/entities_datamaps.cpp:136-157 | For any cache, two lookups of the same name in a row return the same offset, and the second leaves the cache as the first left it. If the cache was coherent and class names distinct, that offset is the nearest class's, or -1. |

## Left out

- Wrap-around of byte counts: `addr + ulNumBytes` and the search end are computed without the 2^32 wrap. An access beyond the address space is simply unmapped, so it faults instead of wrapping. Two places do no access and so differ in result. First, `IsOverlapping`: for handles at 0xFFFFFFF0 and 0xFFFFFFF8 with 16 bytes, the source's sum wraps to 0 and it answers "not overlapping", so `Copy` goes on to `memcpy`. The model answers "overlapping" and `Copy` raises `Overlapping`. Second, `SearchBytes`: from 0xFFFFFF00 over 0x200 bytes with a 4-byte pattern, the source's `end` wraps below `base`, so the loop never runs and a null handle comes back. The model probes upward and may return a match or `MemoryFault`.
- Partial effects of a fault: each operation checks its whole range before writing. The source's `strcpy`, `memcpy` or `memmove` may fault mid-way, after writing some bytes.
- The signal trapping (`TRY_SEGV`/`EXCEPT_SEGV`) is reduced to "an access outside the mapped domain yields `MemoryFault`".
- MemoryPointer.Memory.GetStringArray: the source's trapped block computes only the address. The bytes are read later, when the returned `const char*` is converted to a Python string, outside the guard. The model reports an unreadable non-null string as `MemoryFault` instead.
- MemoryPointer.Memory.Compare: returns only the sign of `memcmp`, whose magnitude is unspecified. It also requires both whole ranges to be mapped, whereas `memcmp` may stop at the first difference.
- MemoryPointer.Memory.Del: the `PythonLog` debug message before an automatic deallocation is not modelled. Logging has no effect on memory or on the callback order.
- `UTIL_Realloc`, `Dealloc`'s own effect on the allocator, and all block contents after a free or reallocation: these are foreign allocator calls, so here they are only events in the log. The new block's address is a parameter.
- `GetTypeInfo`/`GetType`: RTTI lookup in foreign code.
- `CallCallback`'s Python attribute lookup, callable check and bound/unbound dispatch: these are Python runtime calls. Each callback is one `Callback` event, and whether it runs is not modelled.
- `ExtractPointer` and `PyBytes_AsString`: Boost.Python marshalling. Handles are passed as values and byte strings as byte sequences, so the "Failed to read the given signature." branch of `SearchBytes` is not reachable.
- Invoking a `CFunction`: only its record of address, convention, argument types and return type is built. Conventions and data types are opaque integers.
- The 256-byte `sprintf` buffer and the `strdup` leak in `AddDataDesc`: names are unbounded strings, so an over-long name's buffer overflow is not modelled.
- The C `int` width of datamap offsets: `offset + get_offset(...)` sums are unbounded integers here, so a nested offset that overflows `int` is not modelled.
- An embedded descriptor with a null `td`: the embedded kind always carries its nested datamap.
- A null `datamap_t*` passed directly to `find` or `find_offset`: both take a datamap value. A null base pointer ends the walk as in the source.
- DataMaps.LookupOutcomeOfWalk: the result of `find_offset` is proved correct only for a cache that is coherent for the chain, with distinct class names along it. The cache is keyed by class name alone, so two different datamaps with one name share an entry, as in the source.
- `get_input_function` / `get_function`: binding raw function pointers.
- The `VariantSharedExt` and `InputDataSharedExt` accessors: they depend on the engine string table, vector and colour types, and entity index conversion.
- `src/core/modules/engines/bms/engines_wrap_python.h` and `addons/source-python/packages/source-python/physics.py` are not part of this model: they are registration or re-export code.
- `addons/source-python/packages/source-python/filters/recipients.py` is not part of this model: it is a thin Python wrapper over the native `_RecipientFilter`, outside the modelled core. Its `update` (clearing, falling back to the constructor's filters, and handling an integer versus an iterable) and its slice-aware `__getitem__` are not modelled.
