/**
 * The per-function JIT-time snapshot (`FunctionJITTimeDataIDL`): an immutable
 * record that mirrors one node of the code-gen context tree. A null child
 * pointer is a `None` slot. A null array is the empty sequence: the builder
 * allocates every inlinee and type-specialisation array only for a positive
 * count, so an allocated one is never empty.
 */
module JitTimeSnapshot {
  import opened Wrappers
  import opened CodeGenContext

  /** A type-specialisation descriptor filled by the external materialiser, identified by the
      source entry it was filled from. */
  datatype ObjTypeSpecFldInfo = ObjTypeSpecFldInfo(source: Addr)

  /** `FunctionJITRuntimeIDL`: the cloned inline-cache addresses of an inlinee target. */
  datatype RuntimeInfo = RuntimeInfo(clonedCacheCount: nat, clonedInlineCaches: seq<Addr>)

  datatype JitTimeData = JitTimeData(
    bodyData: Option<BodyData>,
    functionInfoAddr: Addr,
    localFuncId: nat,
    isAggressiveInliningEnabled: bool,
    isInlined: bool,
    weakFuncRef: Addr,
    inlineesBv: Addr,
    callsCountAddress: Addr,
    sharedPropGuardCount: nat,
    sharedPropertyGuards: seq<PropertyId>,
    inlineeCount: nat,
    inlinees: seq<Option<JitTimeData>>,
    profiledRuntimeData: Option<RuntimeInfo>,
    ldFldInlineeCount: nat,
    ldFldInlinees: seq<Option<JitTimeData>>,
    objTypeSpecFldInfoCount: nat,
    objTypeSpecFldInfoArray: seq<ObjTypeSpecFldInfo>,
    globalObjTypeSpecFldInfoCount: nat,
    globalObjTypeSpecFldInfoArray: seq<ObjTypeSpecFldInfo>,
    next: Option<JitTimeData>)

  /** The zero-initialised record the builder starts from. */
  const ZeroJitTimeData := JitTimeData(
    None, 0, 0, false, false, 0, 0, 0, 0, [], 0, [], None, 0, [], 0, [], 0, [], None)

  /** The inlinee array of a node, whichever kind. */
  function Inlinees(kind: InlineeKind, d: JitTimeData): seq<Option<JitTimeData>>
  {
    match kind
    case CallSite => d.inlinees
    case LdFld => d.ldFldInlinees
  }

  /** The recorded length of the inlinee array of a node, whichever kind. */
  function InlineeCount(kind: InlineeKind, d: JitTimeData): nat
  {
    match kind
    case CallSite => d.inlineeCount
    case LdFld => d.ldFldInlineeCount
  }

  /** The number of slots the node's body records for a kind (0 without a body). */
  function BodySlotCount(kind: InlineeKind, d: JitTimeData): nat
  {
    if d.bodyData.Some? then SlotCount(kind, d.bodyData.value) else 0
  }

  /** An inlinee array agrees with its count and with the body: one slot per recorded site
      when the body records any, null with count 0 otherwise. */
  predicate SlotsShaped(kind: InlineeKind, d: JitTimeData)
  {
    InlineeCount(kind, d) == BodySlotCount(kind, d) == |Inlinees(kind, d)|
  }

  /** The shape invariant of one node: every count agrees with its array, every array with the
      body's counts, and a node without a body carries nothing beyond its identity. */
  predicate NodeShaped(d: JitTimeData)
  {
    && SlotsShaped(CallSite, d)
    && SlotsShaped(LdFld, d)
    && d.sharedPropGuardCount == |d.sharedPropertyGuards|
    && (d.bodyData.Some? <==> d.profiledRuntimeData.Some?)
    && (d.profiledRuntimeData.Some? ==>
          d.profiledRuntimeData.value.clonedCacheCount == |d.profiledRuntimeData.value.clonedInlineCaches|)
    && d.objTypeSpecFldInfoCount == |d.objTypeSpecFldInfoArray|
    && (d.objTypeSpecFldInfoCount > 0 ==> d.objTypeSpecFldInfoCount == BodySlotCount(LdFld, d))
    && d.globalObjTypeSpecFldInfoCount == |d.globalObjTypeSpecFldInfoArray|
    && (d.bodyData.None? ==>
          d.sharedPropGuardCount == 0 && d.globalObjTypeSpecFldInfoCount == 0 && d.next.None?)
  }

  /** Every node of the tree, through both inlinee arrays and `next`, is shaped. */
  predicate WellShaped(d: JitTimeData)
    decreases d
  {
    && NodeShaped(d)
    && (forall i :: 0 <= i < |d.inlinees| && d.inlinees[i].Some? ==> WellShaped(d.inlinees[i].value))
    && (forall i :: 0 <= i < |d.ldFldInlinees| && d.ldFldInlinees[i].Some? ==>
          WellShaped(d.ldFldInlinees[i].value))
    && (d.next.Some? ==> WellShaped(d.next.value))
  }

  /** The polymorphic chain that starts at `d`. */
  function Chain(d: JitTimeData): (c: seq<JitTimeData>)
    ensures |c| >= 1 && c[0] == d
    decreases d
  {
    [d] + if d.next.Some? then Chain(d.next.value) else []
  }

  /** Entry `k` of a chain links to entry `k + 1`, and the last entry has no successor. */
  lemma {:induction false} ChainLinks(d: JitTimeData, k: nat)
    requires k < |Chain(d)|
    ensures Chain(d)[k].next.Some? <==> k + 1 < |Chain(d)|
    ensures Chain(d)[k].next.Some? ==> Chain(d)[k].next.value == Chain(d)[k + 1]
    decreases d
  {
    if k > 0 {
      ChainLinks(d.next.value, k - 1);
    }
  }

  /** Every candidate on the chain of a shaped tree is itself a shaped tree. */
  lemma {:induction false} ChainWellShaped(d: JitTimeData, k: nat)
    requires WellShaped(d) && k < |Chain(d)|
    ensures WellShaped(Chain(d)[k])
    decreases d
  {
    if k > 0 {
      ChainWellShaped(d.next.value, k - 1);
    }
  }
}
