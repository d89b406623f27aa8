/**
 * The upstream structures the snapshot builder reads: the code-gen-time
 * context of a function (`Js::FunctionCodeGenJitTimeData`), its parallel
 * runtime-profiling context (`Js::FunctionCodeGenRuntimeData`) and the
 * parts of the function body they lead to. All of them are immutable
 * values here; their concurrent mutation is not modelled.
 */
module CodeGenContext {
  import opened Wrappers

  /** A raw address: only copied and compared, never dereferenced. 0 is the null address. */
  type Addr = int

  type PropertyId = int

  /** The two kinds of inlinee tables: one slot per profiled call site, or one per inline cache. */
  datatype InlineeKind = CallSite | LdFld

  /** What the external profile materialiser filled in, identified by the dynamic profile it read. */
  datatype ProfileData = ProfileData(dynamicProfileInfo: Addr)

  /** The JIT-side record of a function body, the record a snapshot's `bodyData` refers to. */
  datatype BodyData = BodyData(
    addr: Addr,
    profiledCallSiteCount: nat,
    inlineCacheCount: nat,
    isGenerator: bool,
    hasTry: bool,
    sourceContextId: nat,
    functionNumber: nat,
    profileData: Option<ProfileData>)

  /** The default entry point of a body: its call counter and its shared-property-guard set,
      given as the set's keys in iteration order. */
  datatype EntryPointInfo = EntryPointInfo(
    callsCountAddr: Addr,
    sharedPropertyGuards: Option<seq<PropertyId>>)

  /** A function body. `inlineeRuntimeData[i]` and `ldFldInlineeRuntimeData[i]` are the body's own
      runtime children; `secondRuntimeData` is entry 1 of its code-gen runtime data table. */
  datatype FunctionBody = FunctionBody(
    jitBody: BodyData,
    dynamicProfileInfo: Option<Addr>,
    defaultEntryPoint: EntryPointInfo,
    inlineeRuntimeData: seq<Option<RuntimeData>>,
    ldFldInlineeRuntimeData: seq<Option<RuntimeData>>,
    secondRuntimeData: Option<RuntimeData>)

  /** Runtime-profiling context of an inlinee target. `clonedInlineCaches` is `None` when it has none. */
  datatype RuntimeData = RuntimeData(
    inlinees: seq<Option<RuntimeData>>,
    ldFldInlinees: seq<Option<RuntimeData>>,
    clonedInlineCaches: Option<seq<Addr>>,
    next: Option<RuntimeData>)

  /** Code-gen-time context of one function. `body` is `None` when the function has no body
      (then it has no JIT body either). `objTypeSpecFldInfo` is the per-inline-cache info array
      (`None` when null); the global array's length is its count. */
  datatype CodeGenData = CodeGenData(
    functionInfoAddr: Addr,
    localFunctionId: nat,
    body: Option<FunctionBody>,
    isAggressiveInliningEnabled: bool,
    isInlined: bool,
    weakFuncRef: Addr,
    inlineesBv: Addr,
    inlinees: seq<Option<CodeGenData>>,
    ldFldInlinees: seq<Option<CodeGenData>>,
    objTypeSpecFldInfo: Option<seq<Addr>>,
    globalObjTypeSpecFldInfo: seq<Addr>,
    next: Option<CodeGenData>)

  /** Slot `i` of an upstream table; a slot beyond the table reads as absent. */
  function SlotAt<T>(table: seq<Option<T>>, i: nat): Option<T>
  {
    if i < |table| then table[i] else None
  }

  /** Entry `i` of an upstream address table; an entry beyond the table reads as the null address. */
  function AddrAt(table: seq<Addr>, i: int): Addr
  {
    if 0 <= i < |table| then table[i] else 0
  }

  /** The number of slots a body records for a kind of inlinee. */
  function SlotCount(kind: InlineeKind, b: BodyData): nat
  {
    match kind
    case CallSite => b.profiledCallSiteCount
    case LdFld => b.inlineCacheCount
  }

  /** `GetInlinee(i)` / `GetLdFldInlinee(i)` of the code-gen context, as a table. */
  function Children(kind: InlineeKind, cg: CodeGenData): seq<Option<CodeGenData>>
  {
    match kind
    case CallSite => cg.inlinees
    case LdFld => cg.ldFldInlinees
  }

  /** The runtime children an inlinee's own runtime data records for a kind of inlinee. */
  function RuntimeChildren(kind: InlineeKind, rt: RuntimeData): seq<Option<RuntimeData>>
  {
    match kind
    case CallSite => rt.inlinees
    case LdFld => rt.ldFldInlinees
  }

  /** The runtime children a function body records for a kind of inlinee. */
  function BodyRuntimeChildren(kind: InlineeKind, body: FunctionBody): seq<Option<RuntimeData>>
  {
    match kind
    case CallSite => body.inlineeRuntimeData
    case LdFld => body.ldFldInlineeRuntimeData
  }

  /** The candidates linked by `next`, starting at `cg`. */
  function SourceChain(cg: CodeGenData): (c: seq<CodeGenData>)
    ensures |c| >= 1 && c[0] == cg
    decreases cg
  {
    [cg] + if cg.next.Some? then SourceChain(cg.next.value) else []
  }
}
