# JIT-time function snapshot

A model of ChakraCore's `FunctionJITTimeInfo`. It covers the per-function snapshot
(`FunctionJITTimeDataIDL`) that the JIT compiler reads in place of the live runtime
structures.

The model has two halves:

- **The builder, `BuildJITTimeData`.** It starts from a zero-initialised record and copies the
  identity and flag fields. For a function with a body it then runs these steps, in the source's
  order:
  1. fills the profile slot of the body;
  2. for an inlinee, records its call counter and drains its shared-property-guard set into an
     id array;
  3. builds one call-site inlinee slot per profiled call site;
  4. clones the inline-cache addresses of an inlinee into a runtime record;
  5. builds one field-access inlinee slot per inline cache, with the per-cache
     type-specialisation info;
  6. materialises the global type-specialisation info;
  7. builds the polymorphic successor (`next`).
- **The read-only query layer.** Slot lookup by call site and by inline cache, guard lookup, the
  two walks along a polymorphic chain, the polymorphism test, the runtime-record lookups, the
  type-specialisation lookups, the loop-body policy and the debug tag.

## How the model is built

- `CodeGenContext` (`upstream.dfy`) holds the upstream inputs as immutable datatypes:
  - `CodeGenData` for `Js::FunctionCodeGenJitTimeData`;
  - `RuntimeData` for `Js::FunctionCodeGenRuntimeData`;
  - `FunctionBody`, `BodyData` and `EntryPointInfo` for the parts of the function body the
    builder reads.

  Addresses are integers that are only copied and compared. A null child pointer is `None`.
- `JitTimeSnapshot` (`snapshot.dfy`) holds the snapshot record `JitTimeData` and its shape
  invariant:
  - `NodeShaped` requires every count to agree with its array and with the body's counts.
  - `WellShaped` is `NodeShaped` at every node of the tree.
  - `Chain` is the polymorphic chain of a node.

  A null array is the empty sequence. The builder allocates every inlinee and
  type-specialisation array only for a positive count, so an allocated array is never empty.
- `Builder` (`builder.dfy`) has three parts:
  - `Built` is the specification of the snapshot, written as one function per step of the
    source.
  - `BuildJITTimeData` is the step-by-step construction. Its loops fill local arrays, and it is
    proved to return `Built`.
  - `Admissible` is the source's entry assertion (`isInlinee` exactly when runtime data is given)
    at every node the build reaches. The method requires it. `Built` is total.
- `BuilderProperties` (`builder_properties.dfy`) states what a built snapshot looks like.
- `Queries` (`queries.dfy`) holds the accessors. Their debug assertions are preconditions.
  - A read through a null pointer is the error `NullDereference`. The source does not guard
    against such reads in `IsPolymorphicCallSite` or `GetInlineeForTargetInlineeRuntimeData`.
  - The guard scan and the two chain walks are methods with loops. The two chain walks are
    specified by first-match predicates over the chain, the guard scan by membership in the
    first `sharedPropGuardCount` guards.
- `QueryProperties` (`query_properties.dfy`) answers each query on a built snapshot in terms of
  the code-gen context it was built from.
- `DebugTag` (`debug_tag.dfy`) models the debug tag text.

The recursive calls of the builder do not pass the is-inlinee argument. Its value comes from a
default declared in a header that is not part of this model, so the default is the parameter
`inlineeDefault`. The recursive call for the successor sits inside the has-body branch, so a
snapshot's chain stops after the first candidate without a body. `BuiltChainFollowsSource`
states this general case. `BuiltChainMatchesSourceChain` states the case in which every
candidate but the last has a body, where the snapshot's chain has the source chain's length
and order.

## Model

| member | source | states |
|---|---|---|
| Builder.BuildJITTimeData | lib/Backend/FunctionJITTimeInfo.cpp:15-136 | the step-by-step construction, under the entry assertion at every reached node, returns exactly the specified snapshot `Built` |
| Builder.CopyIdentity | lib/Backend/FunctionJITTimeInfo.cpp:19-28 | the zero record with body, identity address, local id, both flags, weak reference and inlinee bit vector copied |
| Builder.CaptureProfile | lib/Backend/FunctionJITTimeInfo.cpp:34-67 | the profile stage: the profile slot is filled only with dynamic profile info; the call counter and the guards only for an inlinee with dynamic profile info |
| Builder.DrainSharedGuards | lib/Backend/FunctionJITTimeInfo.cpp:55-65 | the iterator loop copies the guard set's keys into an array of the set's size, in iteration order |
| Builder.BuildCallSiteInlinees | lib/Backend/FunctionJITTimeInfo.cpp:69-83 | the call-site stage: count and slot array only when the body has profiled call sites |
| Builder.BuildInlinees | lib/Backend/FunctionJITTimeInfo.cpp:74-82 | the slot loop yields one slot per recorded site; a slot holds the build of the source child there, with the runtime data chosen by the is-inlinee flag, and is empty where the source has no child |
| Builder.CloneInlineCaches | lib/Backend/FunctionJITTimeInfo.cpp:85-96 | the runtime record holds one cloned address per inline cache for an inlinee whose runtime data has cloned caches, and is empty otherwise |
| Builder.BuildLdFldInlinees | lib/Backend/FunctionJITTimeInfo.cpp:97-119 | the field-access stage: count, slots and per-cache type-specialisation info only when the body has inline caches, the info only when the source has it |
| Builder.BuildGlobalObjTypeSpecFldInfo | lib/Backend/FunctionJITTimeInfo.cpp:120-128 | the global type-specialisation array is sized to the source's count, and is null when that count is 0 |
| Builder.BuildNext | lib/Backend/FunctionJITTimeInfo.cpp:129-133 | the successor is built exactly when the source has one, with the successor runtime data chosen by the is-inlinee flag |
| BuilderProperties.BuiltCopiesIdentity | lib/Backend/FunctionJITTimeInfo.cpp:19-40 | identity and flag fields are copied verbatim; the body is present iff the source has one, and differs from the source's only in its profile slot |
| BuilderProperties.BuiltWithoutBodyIsEmpty | lib/Backend/FunctionJITTimeInfo.cpp:19-30 | without a body every count is 0, every array null, no runtime record and no successor |
| BuilderProperties.BuiltSlotCount | lib/Backend/FunctionJITTimeInfo.cpp:69-72 | each inlinee array has as many slots as the body records sites of its kind, and so has its count; none without a body |
| BuilderProperties.BuiltSlot | lib/Backend/FunctionJITTimeInfo.cpp:74-82 | slot i is present iff the source has child i, and then is the recursive build of that child |
| BuilderProperties.BuiltSharedGuards | lib/Backend/FunctionJITTimeInfo.cpp:34-66 | guard count equals the guard array's length; guards exist only for an inlinee with profile info; then they are the set's keys in iteration order |
| BuilderProperties.BuiltRuntimeInfo | lib/Backend/FunctionJITTimeInfo.cpp:85-96 | a node has a runtime record iff it has a body; its count is the inline-cache count iff cloning applies, else 0, and entry j is the upstream cloned cache j |
| BuilderProperties.BuiltObjTypeSpecFldInfo | lib/Backend/FunctionJITTimeInfo.cpp:97-128 | per-cache count is the inline-cache count iff the body has caches and the source has per-cache info, else 0; global count is the source's; each descriptor comes from the same source index |
| BuilderProperties.BuiltNodeIsShaped | lib/Backend/FunctionJITTimeInfo.cpp:15-136 | a built node satisfies the shape invariant at its own level |
| BuilderProperties.BuiltIsWellShaped | lib/Backend/FunctionJITTimeInfo.cpp:15-136 | every node of a built tree, through both inlinee arrays and the chain, satisfies the shape invariant (by induction) |
| BuilderProperties.BuiltChainFollowsSource | lib/Backend/FunctionJITTimeInfo.cpp:129-133 | the snapshot's chain has one node per candidate the builder visits, in source order, with the same identity address and body presence |
| BuilderProperties.VisitedIsWholeChain | lib/Backend/FunctionJITTimeInfo.cpp:129-133 | when every candidate but the last has a body, the builder visits the whole source chain |
| BuilderProperties.BuiltChainMatchesSourceChain | lib/Backend/FunctionJITTimeInfo.cpp:129-133 | under that condition the snapshot's chain has the source chain's length and order of identity addresses |
| Queries.InlineeAt | lib/Backend/FunctionJITTimeInfo.cpp:282-306 | nothing for a null array; for a non-null array, exactly the slot at the requested index, which lies within the array's count |
| QueryProperties.BuiltInlineeLookup | lib/Backend/FunctionJITTimeInfo.cpp:282-306 | `GetInlinee(i)` / `GetLdFldInlinee(i)` on a built node finds something iff the source has child i, and then finds that child's build |
| Queries.IsLdFldInlineePresent | lib/Backend/FunctionJITTimeInfo.cpp:144-148 | on a shaped node: true iff the field-access array is non-null |
| QueryProperties.BuiltLdFldInlineePresent | lib/Backend/FunctionJITTimeInfo.cpp:144-148 | on a built node: true iff it has a body with inline caches |
| Queries.HasSharedPropertyGuards | lib/Backend/FunctionJITTimeInfo.cpp:150-154 | on a shaped node: true iff the guard array is non-empty |
| Queries.HasSharedPropertyGuard | lib/Backend/FunctionJITTimeInfo.cpp:156-167 | true iff `id` occurs among the first `sharedPropGuardCount` guards; nothing changes |
| QueryProperties.BuiltGuardLookup | lib/Backend/FunctionJITTimeInfo.cpp:150-167 | on a built node: `id` is listed iff it is in the drained set of an inlinee with profile info; guards exist iff that set is non-empty |
| Queries.GetJitTimeDataFromFunctionInfoAddr | lib/Backend/FunctionJITTimeInfo.cpp:205-214 | returns the first chain node with the given function-info address, or none iff no chain node has it |
| QueryProperties.BuiltChainSearch | lib/Backend/FunctionJITTimeInfo.cpp:205-214 | on a built node whose source candidates all have bodies (but the last), the first match sits at the position of the first source match |
| Queries.GetInlineeForTargetInlineeRuntimeData | lib/Backend/FunctionJITTimeInfo.cpp:216-225 | succeeds iff some candidate at the call site has the body address with bodies at every earlier candidate; then returns the first such candidate's runtime record, which is non-null on a shaped tree; fails with a null read otherwise |
| QueryProperties.BuiltInlineeRuntimeData | lib/Backend/FunctionJITTimeInfo.cpp:227-231 | on a built node: the runtime record at call site i is the cloned-cache record of the child's build with the default flag, and null iff the source child or its body is missing |
| QueryProperties.BuiltLdFldInlineeRuntimeData | lib/Backend/FunctionJITTimeInfo.cpp:233-237 | the same for field-access inline cache i |
| Queries.IsPolymorphicCallSite | lib/Backend/FunctionJITTimeInfo.cpp:326-338 | fails with a null read iff the array exists and the slot is empty; true iff the candidate chain at the site has more than one node |
| QueryProperties.BuiltPolymorphicCallSite | lib/Backend/FunctionJITTimeInfo.cpp:326-338 | on a built node: a null read iff the source child is missing, otherwise true iff that child has a body and a successor |
| Queries.GetObjTypeSpecFldInfo | lib/Backend/FunctionJITTimeInfo.cpp:245-259 | none iff the node has no per-cache info, in particular for a node without a body; otherwise the entry at `index` of that array |
| QueryProperties.BuiltObjTypeSpecFldInfoLookup | lib/Backend/FunctionJITTimeInfo.cpp:245-259 | on a built node: present iff the source has per-cache info, filled from the source entry at that index |
| Queries.GetGlobalObjTypeSpecFldInfo | lib/Backend/FunctionJITTimeInfo.cpp:261-266 | the entry at `index` of the global array |
| QueryProperties.BuiltGlobalObjTypeSpecFldInfoLookup | lib/Backend/FunctionJITTimeInfo.cpp:261-266 | on a built node: filled from the source's global entry at that index |
| Queries.ForceJITLoopBody | lib/Backend/FunctionJITTimeInfo.cpp:340-354 | true iff neither phase is off, the body is neither a generator nor has try, and the phase is forced or pre-JIT is compiled in and set (both directions) |
| DebugTag.GetDebugNumberSet | lib/Backend/FunctionJITTimeInfo.cpp:363-371 | the tag is longer than 8 characters, and at most 39 for 32-bit numbers |
| DebugTag.DebugNumberSetExample | lib/Backend/FunctionJITTimeInfo.cpp:363-371 | source context 3, local id 12 and function number 99 give ` (#3.12), #99` |
| DebugTag.DebugNumberSetNegativeContext | lib/Backend/FunctionJITTimeInfo.cpp:367-368 | the `(int)` cast prints a source context id of `2^32 - 1` as `-1` |
| DebugTag.AsInt32 | lib/Backend/FunctionJITTimeInfo.cpp:368 | the signed reading is in the 32-bit signed range and congruent to the unsigned value modulo `2^32` |
| DebugTag.DecimalRoundTrip | lib/Backend/FunctionJITTimeInfo.cpp:367-368 | reading back the decimal text of a number gives the number |

## Left out

- The profile materialiser `JITTimeProfileInfo::InitializeJITProfileData` is foreign code. Its
  result is a descriptor that records the dynamic profile it read.
- The type-specialisation materialiser `JITObjTypeSpecFldInfo::BuildObjTypeSpecFldInfoArray` is
  foreign code. Each descriptor it fills records the source entry it came from.
- Arena allocation, the `CompileAssert` on the record size and the `reinterpret_cast` views are
  memory layout, not behaviour. The snapshot is a value.
- The builder writes the profile slot into the body record it shares with the upstream
  function body. The model fills the snapshot's own copy, so the upstream record is not seen
  to change.
- The shared-guard set can change on the main thread during the drain. The set is an
  immutable sequence of keys here.
- `GetCodeGenRuntimeDataWithLock` and its lock are not modelled. The successor's runtime data
  for a non-inlinee is the body's `secondRuntimeData` input.
- `PHASE_OFF`, `PHASE_FORCE`, `Configuration::Global.flags.Prejit` and the `ENABLE_PREJIT`
  build switch are the boolean inputs `PhaseFlags`.
- Plain field getters are the datatype's fields: `GetInlineeCount`, `GetFunctionInfoAddr`,
  `GetWeakFuncRef`, `GetLocalFunctionId`, `IsAggressiveInliningEnabled`, `IsInlined`,
  `GetInlineesBV`, `GetRuntimeInfo`, `GetGlobalObjTypeSpecFldInfoCount`, `GetSourceContextId`,
  `GetNext`, `GetBody` and `HasBody`.
- `GetDisplayName` only forwards to the body, which is not part of this model.
- `GetDebugNumberSet`: the buffer size `MAX_FUNCTION_BODY_DEBUG_STRING_SIZE` is declared in a
  header that is not part of this model. The model bounds the text at 39 characters instead of
  modelling what `swprintf_s` does with a buffer too small for the text (it empties the buffer
  and reports failure, and the length assertion would then fail).
- Upstream tables are sequences. A slot read beyond the end of a table is absent, or the null
  address.
- "Has a body" and "has a JIT body" are one `Option` in the model. A function with a body but
  a null JIT body, which the source would dereference, is not represented.
- The recursive calls leave the is-inlinee flag to a header default. That default is the
  parameter `inlineeDefault`.
- Out-of-range lookups are debug assertions in the source. Here they are preconditions, not
  error values.
