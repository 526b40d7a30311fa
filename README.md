# HISE register handles, MIDI automation table, sample ring buffer and MPE names in Dafny

This project models four pieces of HISE and proves properties of them.

- **SNEX register handles** (`AssemblyRegister`). In the SNEX JIT compiler, each value is a small state machine. A value starts as an unresolved location or immediate (`UnloadedMemoryLocation`). It becomes a resolved memory operand (`LoadedMemoryLocation`), then lives in a register (`ActiveRegister`), or in a register that must be written back (`DirtyGlobalRegister`).
- **The register pool** (`AssemblyRegisterPool`). It is the ordered list of handles of one compilation unit. It supports:
  - lookup-or-create by scope and symbol;
  - coalescing of handles that sit on the same memory operand;
  - collecting the dirty globals;
  - retiring handles by reference count.
- **The MIDI CC automation table** (`MidiControllerAutomationHandler`). It keeps 128 lists of automation entries, where two entries are equal when processor and attribute agree. It also keeps one pending "MIDI learn" entry and an `anyUsed` flag. It supports MIDI learn and commit, lookup of the lowest controller, removal, and get/set by an index into the flattened table.
- **The sample ring buffer** (`CircularAudioSampleBuffer`). It has a write index, a read index and a count of available samples. A copy may wrap once around the end.
- **`MPEData::getPrettyName`**. It deletes "MPE" from a gesture id, then splits the rest into words at lower-to-upper case boundaries.

The code is imperative and the model keeps that form:

- The handle, the pool, the automation table and the ring buffer are classes whose methods update their fields.
- The 128 automation lists are an `array<seq<...>>`, and the sample buffers are `array2`.
- The scans are loops with invariants. Each is proved against a specification function, for example:
  - `DirtyGlobals`, `Named` and `Without` for the pool;
  - `Flat` (the flattened automation table) and `RemoveAllInstancesOf`;
  - `Slot` (the ring position of the k-th sample of a block);
  - `Pretty` for the pretty name.
- Lemmas relate each specification function to an independent description:
  - for `Flat`: the index of an entry in the flattened table, and what updating it does;
  - for `RemoveAllInstancesOf`: exactly what the filter keeps;
  - for `Pretty`: a front-to-back reading (`Words`), its length, that spaces are the only additions, and that words are separated;
  - for the ring buffer: a write followed by a read returns the samples written.

Files:

- `SnexTypes.dfy`:
  - symbols, scopes and the scope resolver;
  - memory operands and registers;
  - an abstract `Emitter` that stands for asmjit's `X86Compiler`. It mints fresh registers and constant-pool entries, and logs the instructions it is asked for.
- `SnexRegister.dfy`: `AssemblyRegister`.
- `SnexRegisterPool.dfy`: `AssemblyRegisterPool`.
- `SnexScenarios.dfy`: what two lookups of the same variable return.
- `MidiAutomation.dfy`: `AutomationData` and `MidiControllerAutomationHandler`.
- `CircularBuffer.dfy`: `CircularAudioSampleBuffer`.
- `MpeNames.dfy`: `getPrettyName` and the `String::replace` it calls.

Inputs that compiled code cannot see are given as parameters:

- the scope tree (`ScopeResolver`: declaring scope of a symbol, scope type, root class scope, root data);
- the values read through raw pointers (`RawMemory`);
- the compiler's AutoVectorisation flag;
- the register type the compiler resolves for a `TypeInfo`. This is `TypeInfo.kind`, together with the span-of-four-floats test behind `isSimd4Float` and an abstract identity (`TypeInfo.typeIdentity`) for the rest of the type, so that `TypeInfo` equality stays as fine as the source's (two span types of different element types are different types).

Notes on how the model reads the code:

- **Assertions.** A `jassert` at the entry of a method is a `requires` when the code after it depends on it (a null scope that is dereferenced, a state the method cannot handle). A `jassert` followed by fallback code is modelled as the fallback: `getGlobalDataPointer` returns the data pointer of a pointer handle even when it is null, and the null pointer for a handle that is neither a pointer nor a global variable. The self-check `jassert`s at the end of a method are not modelled; `setReference` binds the symbol whatever its register type.
- **Integer immediates.** `createMemoryLocation` moves an integer handle to `LoadedMemoryLocation` and keeps its immediate value, so integer immediates do pass through that state (snex_jit_AssemblyRegister.cpp:338-344, 350). The later load still uses the immediate and touches no memory (`ImmediateLoadReadsNoMemory`, `LoadMemoryIntoRegister`).
- **Rejected writes.** `getRegisterForWriteOp` rejects a write when the symbol does not write through to its own storage and its declaring scope is of type `Global`. A symbol writes through to its own storage when it is not an iterator and is declared in its root class scope or is a reference. So an iterator symbol in a `Global` scope is rejected too (`WriteRejected`).
- **Undeclared symbols.** When the resolver knows no declaring scope for a symbol, `getRegisterForVariable` creates a new handle bound to the lookup scope. A later lookup compares against the missing declaring scope and never matches that handle, so each lookup creates another handle (`ResolveUndeclaredTwice`).
- **Reference counts.** The reference count is an explicit field. The pool's `add` counts one reference, `removeObject` releases it, and `clear` releases one reference per handle.
- **`String::replace`.** After a deletion, the search resumes at the deletion point and never rescans the text before it. So `"MMPEPE"` becomes `"MPE"` (`RemoveMpeLeavesJoinedCopy`).

## Model

| member | source | states |
|---|---|---|
| SnexRegister.ImmediateLoadReadsNoMemory | hi_snex/snex_jit/snex_jit_AssemblyRegister.cpp:237-245 | an integer or block handle without custom memory is loaded with the immediate move, and none of its load instructions reads memory |
| SnexRegister.PointerLoadNeedsOffset | hi_snex/snex_jit/snex_jit_AssemblyRegister.cpp:255-264 | a plain pointer (no custom memory, not a simd4 span) is loaded only when its operand is an absolute address with a non-zero offset; a null data pointer emits no load |
| SnexRegister.CreatedLocationFacts | hi_snex/snex_jit/snex_jit_AssemblyRegister.cpp:302-353 | the setup code never reads memory, it is one instruction per register or constant taken, custom memory is never dropped, and the operand is a real memory operand on the global path and for floats, doubles and pointers, while an integer or block outside the global path keeps the operand it had |
| SnexRegister.AssemblyRegister.constructor | hi_snex/snex_jit/snex_jit_AssemblyRegister.cpp:42-47 | a new handle is consistent and pristine: unloaded, clean, no register, no memory operand, no scope or symbol |
| SnexRegister.AssemblyRegister.GetType | hi_snex/snex_jit/snex_jit_AssemblyRegister.cpp:107-110 | the register type of the handle's TypeInfo |
| SnexRegister.AssemblyRegister.IsMemoryLocation | hi_snex/snex_jit/snex_jit_AssemblyRegister.cpp:394-397 | the handle is in the LoadedMemoryLocation state |
| SnexRegister.AssemblyRegister.IsActive | hi_snex/snex_jit/snex_jit_AssemblyRegister.cpp:284-287 | the handle is in the ActiveRegister state |
| SnexRegister.AssemblyRegister.IsActiveOrDirtyGlobalRegister | hi_snex/snex_jit/snex_jit_AssemblyRegister.cpp:297-300 | the handle is in one of the two register states |
| SnexRegister.AssemblyRegister.IsValid | hi_snex/snex_jit/snex_jit_AssemblyRegister.cpp:274-277 | the handle is active and holds a valid register |
| SnexRegister.AssemblyRegister.ShouldLoadMemoryIntoRegister | hi_snex/snex_jit/snex_jit_AssemblyRegister.cpp:70-73 | some stand-in lookup referred to the handle's memory |
| SnexRegister.AssemblyRegister.IsSimd4Float | hi_snex/snex_jit/snex_jit_AssemblyRegister.cpp:440-451 | auto-vectorisation is on and the type is a span of four floats |
| SnexRegister.AssemblyRegister.HasSymbol | hi_snex/snex_jit/snex_jit_AssemblyRegister.cpp:209-212 | the handle is bound to a symbol with the given identifier |
| SnexRegister.AssemblyRegister.MatchesScopeAndSymbol | hi_snex/snex_jit/snex_jit_AssemblyRegister.cpp:289-295 | the symbol's declaring scope, seen from the given scope, is the handle's scope, and the handle is bound to the symbol |
| SnexRegister.AssemblyRegister.MatchesMemoryLocation | hi_snex/snex_jit/snex_jit_AssemblyRegister.cpp:49-63 | both handles have custom memory, the same full type and the same memory operand |
| SnexRegister.AssemblyRegister.IsGlobalVariableRegister | hi_snex/snex_jit/snex_jit_AssemblyRegister.cpp:279-282 | the root data of the handle's root class scope holds its symbol |
| SnexRegister.AssemblyRegister.IsGlobalMemory | hi_snex/snex_jit/snex_jit_AssemblyRegister.cpp:65-68 | global custom memory, or a global variable |
| SnexRegister.AssemblyRegister.IsDirtyGlobalMemory | hi_snex/snex_jit/snex_jit_AssemblyRegister.cpp:95-98 | dirty and global memory |
| SnexRegister.AssemblyRegister.GetImmediateIntValue | hi_snex/snex_jit/snex_jit_AssemblyRegister.cpp:200-207 | asked only of an unloaded or loaded integer handle without custom memory; its immediate value |
| SnexRegister.AssemblyRegister.GetAsMemoryLocation | hi_snex/snex_jit/snex_jit_AssemblyRegister.cpp:184-190 | asked only of a loaded handle; with custom memory the operand is a real memory operand |
| SnexRegister.AssemblyRegister.GetMemoryLocationForReference | hi_snex/snex_jit/snex_jit_AssemblyRegister.cpp:193-198 | asked only when the handle has a memory operand, and returns a memory operand |
| SnexRegister.AssemblyRegister.GetGlobalDataPointer | hi_snex/snex_jit/snex_jit_AssemblyRegister.cpp:112-128 | a pointer handle gives its data pointer; any other handle needs a scope and gives the root data's slot for its symbol when it is a global variable, and the null pointer otherwise |
| SnexRegister.AssemblyRegister.SetReference | hi_snex/snex_jit/snex_jit_AssemblyRegister.cpp:75-86 | the handle is bound to the symbol, and its scope is the symbol's declaring scope, or the given scope when there is none; no other field changes |
| SnexRegister.AssemblyRegister.ReinterpretCast | hi_snex/snex_jit/snex_jit_AssemblyRegister.cpp:102-105 | only the type changes |
| SnexRegister.AssemblyRegister.GetRegisterForReadOp | hi_snex/snex_jit/snex_jit_AssemblyRegister.cpp:130-137 | asked only in one of the two register states; returns the handle's valid register and changes nothing |
| SnexRegister.AssemblyRegister.GetRegisterForWriteOp | hi_snex/snex_jit/snex_jit_AssemblyRegister.cpp:140-181 | fails with "can't write to global variables" exactly when the symbol does not write through and its declaring scope is Global. Otherwise it returns the register. Global memory, and a write-through symbol with a data pointer, become a dirty global register; an iterator only becomes dirty; everything else keeps its state |
| SnexRegister.AssemblyRegister.CreateMemoryLocation | hi_snex/snex_jit/snex_jit_AssemblyRegister.cpp:302-353 | the handle becomes loaded, and its operand, custom-memory flag, immediate, zero flag, setup code and the emitter's register and constant counters are exactly those `CreatedLocation` gives for its type and fields before the call. A non-const global variable takes one fresh pointer register loaded with its address; a float or double takes one new constant-pool entry and its zero flag; an integer takes its immediate from the location when there is one; a pointer becomes an absolute address; every field a path does not set keeps its value. No setup instruction reads memory |
| SnexRegister.AssemblyRegister.CreateRegister | hi_snex/snex_jit/snex_jit_AssemblyRegister.cpp:356-391 | keeps an existing register and changes nothing. Otherwise it takes the emitter's next register, of the class the type needs (ss, sd, 32-bit, 64-bit, or packed for a simd4 span), advances the register counter by one and becomes active |
| SnexRegister.AssemblyRegister.LoadMemoryIntoRegister | hi_snex/snex_jit/snex_jit_AssemblyRegister.cpp:214-271 | without forceLoad, changes nothing when a register is held. Otherwise the handle becomes an active register, keeps an existing register, and the emitted code is the location setup followed by the per-type load (for a plain pointer, the move of its address only when that address is non-zero). An unloaded handle gets the operand, immediate and zero flag `CreatedLocation` gives, then the emitter's next register; any other handle keeps those fields and takes a new register only when it had none. An integer or block without custom memory reads no memory |
| SnexRegister.AssemblyRegister.EmitLoad | hi_snex/snex_jit/snex_jit_AssemblyRegister.cpp:233-267 | emits exactly the per-type load instruction (movss, movsd, mov from memory or immediate, movaps, lea, or the absolute address moved into the register when the operand is an absolute address with a non-zero offset, and nothing for any other pointer operand) |
| SnexRegister.AssemblyRegister.SetCustomMemoryLocation | hi_snex/snex_jit/snex_jit_AssemblyRegister.cpp:400-409 | the handle becomes loaded on the new operand, with custom memory, clean, with the given global flag and no register |
| SnexRegister.AssemblyRegister.SetDataPointer | hi_snex/snex_jit/snex_jit_AssemblyRegister.cpp:411-418 | the handle becomes unloaded on the new data pointer, without custom memory or register, with the given global flag |
| SnexRegister.AssemblyRegister.SetImmediateValue | hi_snex/snex_jit/snex_jit_AssemblyRegister.cpp:421-430 | asked only of an integer; the handle becomes unloaded with the value as immediate, a null data pointer, and no custom memory or register |
| SnexRegister.AssemblyRegister.InvalidateRegisterForCustomMemory | hi_snex/snex_jit/snex_jit_AssemblyRegister.cpp:432-438 | the handle goes back to loaded, clean and without register |
| SnexRegister.AssemblyRegister.SetUndirty | hi_snex/snex_jit/snex_jit_AssemblyRegister.cpp:453-462 | a dirty handle in a register state becomes a clean active register; any other handle is unchanged |
| SnexRegisterPool.DirtyGlobalsExactly | hi_snex/snex_jit/snex_jit_AssemblyRegister.cpp:476-487 | the dirty-global filter keeps exactly the handles that hold dirty global memory, each once, and never grows the list |
| SnexRegisterPool.NamedExactly | hi_snex/snex_jit/snex_jit_AssemblyRegister.cpp:579-590 | the named filter keeps exactly the handles bound to a symbol, each once |
| SnexRegisterPool.WithoutAt | hi_snex/snex_jit/snex_jit_AssemblyRegister.cpp:520-526 | in a pool without repeats, removing a handle cuts exactly its one position out and leaves a pool without repeats |
| SnexRegisterPool.WithoutAbsent | hi_snex/snex_jit/snex_jit_AssemblyRegister.cpp:520-526 | removing a handle that is not in the pool leaves the pool as it is |
| SnexRegisterPool.AssemblyRegisterPool.constructor | hi_snex/snex_jit/snex_jit_AssemblyRegister.cpp:464-467 | a new pool is empty and consistent |
| SnexRegisterPool.AssemblyRegisterPool.Clear | hi_snex/snex_jit/snex_jit_AssemblyRegister.cpp:470-473 | the pool is empty and each former handle has lost the pool's reference; no other field of any handle changes |
| SnexRegisterPool.AssemblyRegisterPool.GetListOfAllDirtyGlobals | hi_snex/snex_jit/snex_jit_AssemblyRegister.cpp:476-487 | returns exactly the pool's dirty-global handles, in pool order, each once |
| SnexRegisterPool.AssemblyRegisterPool.GetListOfAllNamedRegisters | hi_snex/snex_jit/snex_jit_AssemblyRegister.cpp:579-590 | returns exactly the pool's handles bound to a symbol, in pool order, each once |
| SnexRegisterPool.AssemblyRegisterPool.GetNextFreeRegister | hi_snex/snex_jit/snex_jit_AssemblyRegister.cpp:529-550 | appends a fresh pristine handle of the given type and scope with one reference |
| SnexRegisterPool.AssemblyRegisterPool.GetRegisterForVariable | hi_snex/snex_jit/snex_jit_AssemblyRegister.cpp:490-501 | returns the first handle matching (scope, symbol) and leaves the pool unchanged. Otherwise it appends exactly one fresh handle bound to the symbol in its declaring scope, or in the lookup scope when there is none |
| SnexRegisterPool.AssemblyRegisterPool.GetActiveRegisterForCustomMem | hi_snex/snex_jit/snex_jit_AssemblyRegister.cpp:504-518 | returns the first active handle with custom memory on the same operand, or the argument itself when there is none |
| SnexRegisterPool.AssemblyRegisterPool.RemoveIfUnreferenced | hi_snex/snex_jit/snex_jit_AssemblyRegister.cpp:520-526 | a pooled handle with exactly two references leaves the pool and drops to one reference; otherwise the pool and the count are unchanged |
| SnexRegisterPool.AssemblyRegisterPool.RemoveObject | hi_snex/snex_jit/snex_jit_AssemblyRegister.cpp:520-526 | the pool without the handle, which loses the pool's reference when it was pooled; no change otherwise |
| SnexRegisterPool.AssemblyRegisterPool.DifferentTypesNeverStandIn | hi_snex/snex_jit/snex_jit_AssemblyRegister.cpp:49-63 | a handle of a different type never stands in for another, even on the same operand and register type |
| SnexRegisterPool.AssemblyRegisterPool.FindStandIn | hi_snex/snex_jit/snex_jit_AssemblyRegister.cpp:552-577 | the index of the first handle that can stand for the argument (another loaded handle with custom memory, the same full type and the same operand), or the pool's length |
| SnexRegisterPool.AssemblyRegisterPool.GetRegisterWithMemory | hi_snex/snex_jit/snex_jit_AssemblyRegister.cpp:552-577 | returns the argument when it has no custom memory. Otherwise it returns the first handle that can stand for it, whose memory-reference count rises by one, or the argument when there is none. The pool is unchanged, and no field of a pooled handle other than that one count changes |
| SnexScenarios.ResolveDeclaredTwice | hi_snex/snex_jit/snex_jit_AssemblyRegister.cpp:490-501 | for a declared symbol, two lookups return the same handle and grow the pool by at most one |
| SnexScenarios.ResolveUndeclaredTwice | hi_snex/snex_jit/snex_jit_AssemblyRegister.cpp:490-501 | for a symbol no scope declares, two lookups append two different handles, both bound to the lookup scope |
| SnexScenarios.CoalesceTwice | hi_snex/snex_jit/snex_jit_AssemblyRegister.cpp:552-577 | two requests for a handle on the same memory return the same handle; a pooled stand-in has its memory-reference count raised by two |
| SnexScenarios.DirtyThenFlush | hi_snex/snex_jit/snex_jit_AssemblyRegister.cpp:140-181 | a write to global memory puts the handle among the pool's dirty globals, and after the flush it is no longer listed and is a clean active register |
| MidiAutomation.SameTarget | hi_core/hi_core/MainControllerHelpers.cpp:196-199 | two entries are equal when processor and attribute agree |
| MidiAutomation.AddIfNotAlreadyThere | hi_core/hi_core/MainControllerHelpers.cpp:84 | the list holds an entry for the target afterwards. It grows by the entry only when no entry for its processor and attribute was there, and it stays free of repeated targets |
| MidiAutomation.RemoveAllInstancesOfMembers | hi_core/hi_core/MainControllerHelpers.cpp:143-166 | an entry survives the removal exactly when it was there and is for another target, and the list never grows |
| MidiAutomation.RemoveAllInstancesOfAbsent | hi_core/hi_core/MainControllerHelpers.cpp:143-166 | a list without an entry for the target is unchanged |
| MidiAutomation.RemoveAllInstancesOfNoDuplicates | hi_core/hi_core/MainControllerHelpers.cpp:143-166 | a list free of repeated targets stays so after the removal |
| MidiAutomation.RemoveAllInstancesOfKeeps | hi_core/hi_core/MainControllerHelpers.cpp:143-166 | removal keeps exactly the entries for other targets, leaves none for the target, is the identity when there was none, and keeps a list free of repeats |
| MidiAutomation.RemoveAllInstancesOfSameTarget | hi_core/hi_core/MainControllerHelpers.cpp:196-199 | removing by two entries that are equal under processor+attribute equality removes the same entries |
| MidiAutomation.FlatSplit | hi_core/hi_core/MainControllerHelpers.cpp:736-752 | the flattened table is the flattened lists before a controller followed by the flattened rest |
| MidiAutomation.FlatSingle | hi_core/hi_core/MainControllerHelpers.cpp:736-752 | a single list flattens to itself |
| MidiAutomation.FlatAround | hi_core/hi_core/MainControllerHelpers.cpp:736-752 | a controller's list sits in the flattened table between the lists before it and the lists after it |
| MidiAutomation.FlatIndex | hi_core/hi_core/MainControllerHelpers.cpp:736-752 | entry j of controller i is the flattened entry at index (entries of controllers below i) + j |
| MidiAutomation.FlatUpdate | hi_core/hi_core/MainControllerHelpers.cpp:766-806 | changing entry j of controller i changes the flattened table at that flattened index and nowhere else |
| MidiAutomation.SpliceUpdate | hi_core/hi_core/MainControllerHelpers.cpp:766-806 | changing position j of the middle part of a concatenation is changing position (length of the first part) + j of the whole |
| MidiAutomation.MidiControllerAutomationHandler.constructor | hi_core/hi_core/MainControllerHelpers.cpp:36-44 | 128 empty lists, an empty pending entry and anyUsed false |
| MidiAutomation.MidiControllerAutomationHandler.AddMidiControlledParameter | hi_core/hi_core/MainControllerHelpers.cpp:46-57 | the pending entry takes the processor, attribute, range (also as full range) and macro index, and is in use, so learning is active for that parameter |
| MidiAutomation.MidiControllerAutomationHandler.IsLearningActive | hi_core/hi_core/MainControllerHelpers.cpp:59-62 | the pending entry is in use |
| MidiAutomation.MidiControllerAutomationHandler.IsLearningActiveFor | hi_core/hi_core/MainControllerHelpers.cpp:64-67 | the pending entry is for the given processor and attribute |
| MidiAutomation.MidiControllerAutomationHandler.DeactivateMidiLearning | hi_core/hi_core/MainControllerHelpers.cpp:69-74 | the pending entry is reset and learning is off |
| MidiAutomation.MidiControllerAutomationHandler.SetUnlearndedMidiControlNumber | hi_core/hi_core/MainControllerHelpers.cpp:76-91 | asked only while learning. Only that controller's list changes: the pending entry, with the controller number, is added unless its target is there, and afterwards the list holds its target. The pending entry is reset and anyUsed is true |
| MidiAutomation.MidiControllerAutomationHandler.GetMidiControllerNumber | hi_core/hi_core/MainControllerHelpers.cpp:93-107 | the lowest controller whose list has an entry for (processor, attribute), or -1 exactly when no list has one |
| MidiAutomation.MidiControllerAutomationHandler.RefreshAnyUsedState | hi_core/hi_core/MainControllerHelpers.cpp:109-129 | anyUsed is true exactly when some entry of some list is in use |
| MidiAutomation.MidiControllerAutomationHandler.Clear | hi_core/hi_core/MainControllerHelpers.cpp:131-141 | all 128 lists are empty, the pending entry is reset, anyUsed is false |
| MidiAutomation.MidiControllerAutomationHandler.RemoveMidiControlledParameter | hi_core/hi_core/MainControllerHelpers.cpp:143-166 | every list loses exactly its entries for (processor, attribute) and keeps the others in order; no list has one left; anyUsed is true exactly when a remaining entry is in use |
| MidiAutomation.MidiControllerAutomationHandler.FindFlattened | hi_core/hi_core/MainControllerHelpers.cpp:736-752 | the running-index scan finds an entry exactly for indices 0 <= index < total entries, and then the controller and position of that flattened index |
| MidiAutomation.MidiControllerAutomationHandler.GetDataFromIndex | hi_core/hi_core/MainControllerHelpers.cpp:736-752 | the index-th entry in flattened order (controller ascending, then list order), or the empty entry when out of range |
| MidiAutomation.MidiControllerAutomationHandler.GetNumActiveConnections | hi_core/hi_core/MainControllerHelpers.cpp:754-764 | the total number of entries over the 128 lists |
| MidiAutomation.MidiControllerAutomationHandler.SetNewRangeForParameter | hi_core/hi_core/MainControllerHelpers.cpp:766-785 | true exactly for an index within the flattened table. Only that flattened entry's parameter range changes and every list keeps its length; out of range, nothing changes |
| MidiAutomation.MidiControllerAutomationHandler.SetParameterInverted | hi_core/hi_core/MainControllerHelpers.cpp:787-806 | true exactly for an index within the flattened table. Only that flattened entry's inverted flag changes and every list keeps its length; out of range, nothing changes |
| CircularBuffer.CopyBlock | hi_core/hi_core/MainControllerHelpers.cpp:922-928 | in every channel, the count samples are copied from the source range to the destination range, and every other destination sample is unchanged |
| CircularBuffer.CircularAudioSampleBuffer.constructor | hi_core/hi_core/MainControllerHelpers.cpp:873-880 | the given channel count and size, a zeroed buffer, both indices 0 and nothing available |
| CircularBuffer.CircularAudioSampleBuffer.WriteSamples | hi_core/hi_core/MainControllerHelpers.cpp:882-938 | the write index advances by n, or by n - size when that passes the end. n more samples are available, and the result is whether that count fits the ring. Sample k goes to ring slot writeIndex + k, wrapped: the segment up to the end, then the rest from 0, with the last size samples surviving. Every slot outside the block is unchanged |
| CircularBuffer.CircularAudioSampleBuffer.ReadSamples | hi_core/hi_core/MainControllerHelpers.cpp:940-996 | the read index advances by n, or by n - size when that passes the end. n fewer samples are available, and the result is whether the count stayed non-negative. Destination sample k is ring slot readIndex + k, wrapped, and the rest of the destination is unchanged |
| CircularBuffer.LapsBound | hi_core/hi_core/MainControllerHelpers.cpp:882-996 | two ring indices differ by at most one whole turn |
| CircularBuffer.SameSlot | hi_core/hi_core/MainControllerHelpers.cpp:882-996 | indices that agree up to whole turns put every sample of a block at the same ring slot |
| CircularBuffer.WriteThenRead | hi_core/hi_core/MainControllerHelpers.cpp:882-996 | on an empty ring, reading n <= size samples right after writing them gives back exactly the samples written, and both calls report success |
| MpeNames.RemoveMpe | hi_core/hi_core/MainControllerHelpers.cpp:549 | the replace never lengthens the string |
| MpeNames.RemoveMpeWithout | hi_core/hi_core/MainControllerHelpers.cpp:549 | a string without "MPE" is left unchanged |
| MpeNames.RemoveMpeDeletesTriples | hi_core/hi_core/MainControllerHelpers.cpp:549 | the replace deletes whole three-character copies only |
| MpeNames.RemoveMpeLeavesJoinedCopy | hi_core/hi_core/MainControllerHelpers.cpp:549 | "MMPEPE" becomes "MPE": text in front of a deletion is not searched again |
| MpeNames.RemoveMpeExample | hi_core/hi_core/MainControllerHelpers.cpp:549 | "MPEGlide" becomes "Glide" |
| MpeNames.WordsHead | hi_core/hi_core/MainControllerHelpers.cpp:547-565 | the front-to-back reading starts with the first character |
| MpeNames.WordsSnoc | hi_core/hi_core/MainControllerHelpers.cpp:547-565 | appending a character at the back extends the front-to-back reading as one loop step does |
| MpeNames.PrettyIsWords | hi_core/hi_core/MainControllerHelpers.cpp:547-565 | the character loop's result equals the front-to-back reading: each character, then a space when the next is uppercase and this one is not |
| MpeNames.PrettyOnlyAddsSpaces | hi_core/hi_core/MainControllerHelpers.cpp:547-565 | with spaces removed, the pretty name is the input with spaces removed |
| MpeNames.PrettyLength | hi_core/hi_core/MainControllerHelpers.cpp:547-565 | the pretty name is longer than the input by exactly the number of lower-to-upper boundaries |
| MpeNames.PrettyFirst | hi_core/hi_core/MainControllerHelpers.cpp:547-565 | there is no leading space: the pretty name starts with the input's first character |
| MpeNames.PrettyLast | hi_core/hi_core/MainControllerHelpers.cpp:547-565 | the pretty name ends with the input's last character |
| MpeNames.PrettySeparatesWords | hi_core/hi_core/MainControllerHelpers.cpp:547-565 | in the pretty name, every uppercase character that follows a non-uppercase character follows a space |
| MpeNames.WordsStep | hi_core/hi_core/MainControllerHelpers.cpp:547-565 | one step of the front-to-back reading: the first character, a space when it is not uppercase and the next is, then the reading of the rest |
| MpeNames.WordsExample | hi_core/hi_core/MainControllerHelpers.cpp:547-565 | "Glide" reads as "Glide": a single word gets no space |
| MpeNames.PrettyNameExample | hi_core/hi_core/MainControllerHelpers.cpp:547-565 | "MPEGlide" gets the pretty name "Glide" |
| MpeNames.GetPrettyName | hi_core/hi_core/MainControllerHelpers.cpp:547-565 | the loop with its last-was-uppercase flag computes the pretty name of the id with "MPE" removed, in both the loop's and the front-to-back reading |

## Left out

- asmjit instruction emission is an abstract emitter. It mints fresh register tokens and constant-pool entries and logs instructions, and the model does not say what the instructions do. `AsmCodeGenerator::createValid64BitPointer` is not modelled; the simd4 load uses the memory operand directly. Of an `X86Mem`, the model knows only whether it is an absolute address and its offset; `hasOffset()` is read as a non-zero offset.
- The raw pointer reads in `createMemoryLocation` are the inputs `RawMemory.intAt`, `isZeroAt` and `storageAddress`. Float constants are not modelled beyond their pool entry.
- `getRegisterType` and `isSimd4Float` depend on the compiler and `SpanType`. They are a `TypeInfo` field and a boolean flag, so a register's type is `TypeInfo.kind`. The rest of the type (the complex type and its qualifiers) is an abstract number, `TypeInfo.typeIdentity`, that only takes part in equality.
- The `REMOVE_REUSABLE_REG` blocks are not compiled in, and the diagnostic `debugId` counter has no effect; neither is modelled.
- `jassert` self-checks at the end of a method are not modelled. The one after `createMemoryLocation` does not hold for an integer or block without custom memory that has no memory operand yet, because that path keeps the operand it had (`CreatedLocationFacts`). The one at the end of `setReference`, that the symbol's register type is the handle's, is not a precondition either.
- SnexRegister.AssemblyRegister.GetRegisterForReadOp, GetRegisterForWriteOp: the register-state entry checks are preconditions, and a `jassert` failure is not a behaviour of the model.
- SnexRegister.AssemblyRegister.constructor: the fields the constructor does not set take their initial values from the class declaration in the header, which is not part of this model. The model starts them unloaded, clean, without a register, memory operand, data pointer, scope or symbol, with a zero immediate and zero counts.
- SnexRegister.AssemblyRegister.SetUndirty: the inner assertion that a dirty handle is global memory is not modelled.
- SnexRegisterPool.AssemblyRegisterPool.RemoveIfUnreferenced: references held outside the pool are part of the explicit count but are not themselves modelled. The pool counts one reference per handle.
- MidiAutomation.RemoveAllInstancesOfKeeps: JUCE's `removeAllInstancesOf` is passed a reference into the list it changes. The model treats it as a filter by the first matching entry's target. Under the table's invariant (no list holds two entries for one target) that is the same removal, except for a comparison against the vacated slot after the last element, which the model does not have.
- Locks, the audio thread guard and change notifications (`ScopedLock`, `AudioThreadGuard`, `LockHelpers`, `sendChangeMessage`) are concurrency and UI plumbing and are not modelled.
- `MPEData` apart from `getPrettyName`, the ValueTree import and export, `handleParameterData`, `writeMidiEvents`/`readMidiEvents`, `DelayedRenderer`, `ConsoleLogger`, `ControlledObject` and `OverlayMessageBroadcaster` are not part of this model. They are foreign object graphs, serialisation, MIDI decoding, or host and UI code.
- `AutomationData` keeps processor, attribute, both ranges, macro index, controller number, and the used and inverted flags. A `NormalisableRange` is only stored and compared. The processor is a plain reference value and weak-reference expiry is not modelled. A default-constructed entry has controller number -1, as `AutomationData::clear` sets, because the header's member default is not part of this model.
- MpeNames.IsUpperCase: ASCII `A`-`Z` only; JUCE's Unicode case classification is not modelled. `getPrettyName` appends only the first UTF-8 byte of each character to the result, which the model does not distinguish from the character; the two agree for ASCII names only.
- CircularBuffer.CircularAudioSampleBuffer.WriteSamples, ReadSamples: sample values are `real` numbers and only copied. The model requires non-negative counts, in-range source and destination offsets, and at most one wrap (index + n <= 2 * size). The code does not check these; outside them it reads or writes out of bounds. The header's zero start for the indices is assumed.
