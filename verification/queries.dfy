/**
 * The read-only query layer of a snapshot (`FunctionJITTimeInfo` accessors).
 *
 * The debug assertions of the source are the preconditions of the accessors.
 * Reading through a null pointer, which the source does not guard against in
 * `IsPolymorphicCallSite` and `GetInlineeForTargetInlineeRuntimeData`, is the
 * error `NullDereference`.
 */
module Queries {
  import opened Wrappers
  import opened CodeGenContext
  import opened JitTimeSnapshot

  datatype Fault = NullDereference

  /** Global phase and configuration switches consulted by the loop-body policy. */
  datatype PhaseFlags = PhaseFlags(
    jitLoopBodyOff: bool,    // the loop-body phase is switched off
    fullJitOff: bool,        // the full-JIT phase is switched off
    jitLoopBodyForce: bool,  // the loop-body phase is forced
    prejitEnabled: bool,     // pre-JIT support is compiled in
    prejit: bool)            // the pre-JIT configuration flag

  /** Slot `i` of an inlinee array, or `None` when the array is null. The index must be one
      of the sites the body records. */
  function InlineeAt(kind: InlineeKind, d: JitTimeData, i: nat): (r: Option<JitTimeData>)
    requires NodeShaped(d) && d.bodyData.Some? && i < SlotCount(kind, d.bodyData.value)
    ensures Inlinees(kind, d) == [] ==> r.None?
    ensures Inlinees(kind, d) != [] ==> r == Inlinees(kind, d)[i]
    ensures Inlinees(kind, d) != [] ==> i < InlineeCount(kind, d)
  {
    if Inlinees(kind, d) == [] then None else Inlinees(kind, d)[i]
  }

  /** The candidate inlined at profiled call site `profileId`. */
  function GetInlinee(d: JitTimeData, profileId: nat): Option<JitTimeData>
    requires NodeShaped(d) && d.bodyData.Some? && profileId < d.bodyData.value.profiledCallSiteCount
  {
    InlineeAt(CallSite, d, profileId)
  }

  /** The candidate inlined at field-access inline cache `inlineCacheIndex`. */
  function GetLdFldInlinee(d: JitTimeData, inlineCacheIndex: nat): Option<JitTimeData>
    requires NodeShaped(d) && d.bodyData.Some? && inlineCacheIndex < d.bodyData.value.inlineCacheCount
  {
    InlineeAt(LdFld, d, inlineCacheIndex)
  }

  /** Whether any field-access inlinee slot is recorded. */
  function IsLdFldInlineePresent(d: JitTimeData): (r: bool)
    ensures NodeShaped(d) ==> (r <==> d.ldFldInlinees != [])
  {
    d.ldFldInlineeCount != 0
  }

  /** Whether the node drained any shared property guard. */
  function HasSharedPropertyGuards(d: JitTimeData): (r: bool)
    ensures NodeShaped(d) ==> (r <==> d.sharedPropertyGuards != [])
  {
    d.sharedPropGuardCount != 0
  }

  /** Scans the recorded guards for `id`. */
  method HasSharedPropertyGuard(d: JitTimeData, id: PropertyId) returns (found: bool)
    requires d.sharedPropGuardCount <= |d.sharedPropertyGuards|
    ensures found <==> id in d.sharedPropertyGuards[..d.sharedPropGuardCount]
  {
    for i := 0 to d.sharedPropGuardCount
      invariant id !in d.sharedPropertyGuards[..i]
    {
      assert d.sharedPropertyGuards[..i + 1] == d.sharedPropertyGuards[..i] + [d.sharedPropertyGuards[i]];
      if d.sharedPropertyGuards[i] == id {
        return true;
      }
    }
    return false;
  }

  /** `k` is the first position of chain `c` whose function-info address is `a`. */
  predicate AddrMatchAt(c: seq<JitTimeData>, k: int, a: Addr)
  {
    && 0 <= k < |c|
    && c[k].functionInfoAddr == a
    && forall j :: 0 <= j < k ==> c[j].functionInfoAddr != a
  }

  /** Walks the polymorphic chain from `d` to the first candidate whose function-info address
      is `polyFuncInfo`. */
  method GetJitTimeDataFromFunctionInfoAddr(d: JitTimeData, polyFuncInfo: Addr) returns (r: Option<JitTimeData>)
    ensures r.None? <==> forall k :: 0 <= k < |Chain(d)| ==> Chain(d)[k].functionInfoAddr != polyFuncInfo
    ensures r.Some? ==> exists k :: AddrMatchAt(Chain(d), k, polyFuncInfo) && r.value == Chain(d)[k]
  {
    var next := Some(d);
    ghost var k := 0;
    while next.Some? && next.value.functionInfoAddr != polyFuncInfo
      invariant k <= |Chain(d)|
      invariant next.None? <==> k == |Chain(d)|
      invariant k < |Chain(d)| ==> next == Some(Chain(d)[k])
      invariant forall j :: 0 <= j < k ==> Chain(d)[j].functionInfoAddr != polyFuncInfo
      decreases |Chain(d)| - k
    {
      ChainLinks(d, k);
      next := next.value.next;
      k := k + 1;
    }
    r := next;
    if r.Some? {
      assert AddrMatchAt(Chain(d), k, polyFuncInfo);
    }
  }

  /** `k` is the first position of chain `c` whose body is at `a`, and every candidate before
      it has a body. */
  predicate BodyMatchAt(c: seq<JitTimeData>, k: int, a: Addr)
  {
    && 0 <= k < |c|
    && c[k].bodyData.Some? && c[k].bodyData.value.addr == a
    && forall j :: 0 <= j < k ==> c[j].bodyData.Some? && c[j].bodyData.value.addr != a
  }

  /** The candidates at profiled call site `profileId`, in chain order (none when the site
      has no inlinee). */
  function Candidates(d: JitTimeData, profileId: nat): (c: seq<JitTimeData>)
    requires NodeShaped(d) && d.bodyData.Some? && profileId < d.bodyData.value.profiledCallSiteCount
    ensures c != [] <==> GetInlinee(d, profileId).Some?
  {
    if GetInlinee(d, profileId).Some? then Chain(GetInlinee(d, profileId).value) else []
  }

  /** Walks the candidates at call site `profiledCallSiteId` to the one whose body is at
      `inlineeFuncBodyAddr` and returns its runtime record. Running off the chain, reaching a
      candidate without a body, or a site without inlinee reads through null. */
  method GetInlineeForTargetInlineeRuntimeData(d: JitTimeData, profiledCallSiteId: nat, inlineeFuncBodyAddr: Addr)
    returns (r: Result<Option<RuntimeInfo>, Fault>)
    requires NodeShaped(d) && d.bodyData.Some? && profiledCallSiteId < d.bodyData.value.profiledCallSiteCount
    ensures var c := Candidates(d, profiledCallSiteId);
      r.Success? <==> exists k :: BodyMatchAt(c, k, inlineeFuncBodyAddr)
    ensures var c := Candidates(d, profiledCallSiteId);
      r.Success? ==> exists k :: BodyMatchAt(c, k, inlineeFuncBodyAddr) && r.value == c[k].profiledRuntimeData
    ensures WellShaped(d) && r.Success? ==> r.value.Some?
  {
    ghost var c := Candidates(d, profiledCallSiteId);
    var inlineeData := GetInlinee(d, profiledCallSiteId);
    ghost var k := 0;
    while inlineeData.Some?
      invariant k <= |c|
      invariant inlineeData.None? <==> k == |c|
      invariant k < |c| ==> inlineeData == Some(c[k])
      invariant forall j :: 0 <= j < k ==> c[j].bodyData.Some? && c[j].bodyData.value.addr != inlineeFuncBodyAddr
      decreases |c| - k
    {
      if inlineeData.value.bodyData.None? {
        NoBodyBlocksMatch(c, k, inlineeFuncBodyAddr);
        return Failure(NullDereference);
      }
      if inlineeData.value.bodyData.value.addr == inlineeFuncBodyAddr {
        assert BodyMatchAt(c, k, inlineeFuncBodyAddr);
        if WellShaped(d) {
          ChainWellShaped(GetInlinee(d, profiledCallSiteId).value, k);
        }
        return Success(inlineeData.value.profiledRuntimeData);
      }
      ChainLinks(GetInlinee(d, profiledCallSiteId).value, k);
      inlineeData := inlineeData.value.next;
      k := k + 1;
    }
    NoBodyBlocksMatch(c, k, inlineeFuncBodyAddr);
    return Failure(NullDereference);
  }

  /** Once every position before `k` has been ruled out and position `k` is past the end or
      has no body, no position matches. */
  lemma NoBodyBlocksMatch(c: seq<JitTimeData>, k: nat, a: Addr)
    requires k <= |c|
    requires forall j :: 0 <= j < k ==> c[j].bodyData.Some? && c[j].bodyData.value.addr != a
    requires k < |c| ==> c[k].bodyData.None?
    ensures forall m :: !BodyMatchAt(c, m, a)
  {
  }

  /** The runtime record of the candidate at profiled call site `profiledCallSiteId`. */
  function GetInlineeRuntimeData(d: JitTimeData, profiledCallSiteId: nat): Option<RuntimeInfo>
    requires NodeShaped(d) && d.bodyData.Some? && profiledCallSiteId < d.bodyData.value.profiledCallSiteCount
  {
    if GetInlinee(d, profiledCallSiteId).Some? then GetInlinee(d, profiledCallSiteId).value.profiledRuntimeData else None
  }

  /** The runtime record of the candidate at field-access inline cache `inlineCacheIndex`. */
  function GetLdFldInlineeRuntimeData(d: JitTimeData, inlineCacheIndex: nat): Option<RuntimeInfo>
    requires NodeShaped(d) && d.bodyData.Some? && inlineCacheIndex < d.bodyData.value.inlineCacheCount
  {
    if GetLdFldInlinee(d, inlineCacheIndex).Some? then GetLdFldInlinee(d, inlineCacheIndex).value.profiledRuntimeData else None
  }

  /** Whether the first candidate at a call site has a polymorphic successor; a recorded site
      without a candidate reads through null. */
  function IsPolymorphicCallSite(d: JitTimeData, profiledCallSiteId: nat): (r: Result<bool, Fault>)
    requires NodeShaped(d) && d.bodyData.Some? && profiledCallSiteId < d.bodyData.value.profiledCallSiteCount
    ensures r.Failure? <==> d.inlinees != [] && GetInlinee(d, profiledCallSiteId).None?
    ensures r == Success(true) <==> |Candidates(d, profiledCallSiteId)| > 1
  {
    if d.inlinees == [] then Success(false)
    else if d.inlinees[profiledCallSiteId].None? then Failure(NullDereference)
    else Success(d.inlinees[profiledCallSiteId].value.next.Some?)
  }

  /** The type-specialisation descriptor of inline cache `index`, or `None` when the node has
      none. The body and the index are checked only when the array exists. */
  function GetObjTypeSpecFldInfo(d: JitTimeData, index: nat): (r: Option<ObjTypeSpecFldInfo>)
    requires NodeShaped(d)
    requires d.objTypeSpecFldInfoArray != [] ==> d.bodyData.Some? && index < d.bodyData.value.inlineCacheCount
    ensures r.Some? <==> d.objTypeSpecFldInfoCount > 0
    ensures d.bodyData.None? ==> r.None?
    ensures r.Some? ==> r.value == d.objTypeSpecFldInfoArray[index]
  {
    if d.objTypeSpecFldInfoArray == [] then None else Some(d.objTypeSpecFldInfoArray[index])
  }

  /** The global type-specialisation descriptor at `index`. */
  function GetGlobalObjTypeSpecFldInfo(d: JitTimeData, index: nat): (r: ObjTypeSpecFldInfo)
    requires NodeShaped(d) && index < d.globalObjTypeSpecFldInfoCount
    ensures r == d.globalObjTypeSpecFldInfoArray[index]
  {
    d.globalObjTypeSpecFldInfoArray[index]
  }

  /** Whether loops of this function are always JIT-compiled as loop bodies. */
  function ForceJITLoopBody(flags: PhaseFlags, d: JitTimeData): (r: bool)
    requires d.bodyData.Some?
    ensures r ==> !d.bodyData.value.isGenerator && !d.bodyData.value.hasTry
    ensures r ==> !flags.jitLoopBodyOff && !flags.fullJitOff
    ensures r ==> flags.jitLoopBodyForce || (flags.prejitEnabled && flags.prejit)
    ensures (&& !flags.jitLoopBodyOff && !flags.fullJitOff
             && !d.bodyData.value.isGenerator && !d.bodyData.value.hasTry
             && (flags.jitLoopBodyForce || (flags.prejitEnabled && flags.prejit))) ==> r
  {
    && !flags.jitLoopBodyOff
    && !flags.fullJitOff
    && !d.bodyData.value.isGenerator
    && !d.bodyData.value.hasTry
    && (flags.jitLoopBodyForce || (flags.prejitEnabled && flags.prejit))
  }
}
