/**
 * `FunctionJITTimeInfo::BuildJITTimeData`: recursively mirrors a code-gen
 * context tree into a snapshot.
 *
 * `Built` specifies the snapshot as the zero-initialised record with the
 * identity fields copied, followed, for a function with a body, by one
 * stage per step of the source (profile, call-site inlinees, runtime record,
 * field-access inlinees, global type-specialisation info, successor).
 * `BuildJITTimeData` performs the same steps on a record, filling arrays in
 * loops, and is proved to produce `Built`.
 *
 * The recursive calls of the source leave the is-inlinee argument to a
 * default declared elsewhere; that default is the parameter `inlineeDefault`.
 */
module Builder {
  import opened Wrappers
  import opened CodeGenContext
  import opened JitTimeSnapshot

  /** The zero-initialised record with the identity and flag fields copied. */
  function Identity(cg: CodeGenData): JitTimeData
  {
    ZeroJitTimeData.(
      bodyData := if cg.body.Some? then Some(cg.body.value.jitBody) else None,
      functionInfoAddr := cg.functionInfoAddr,
      localFuncId := cg.localFunctionId,
      isAggressiveInliningEnabled := cg.isAggressiveInliningEnabled,
      isInlined := cg.isInlined,
      weakFuncRef := cg.weakFuncRef,
      inlineesBv := cg.inlineesBv)
  }

  /** The JIT body once the profile slot is filled (when the body has dynamic profile info). */
  function ProfiledBody(body: FunctionBody): BodyData
  {
    match body.dynamicProfileInfo
    case None => body.jitBody
    case Some(info) => body.jitBody.(profileData := Some(ProfileData(info)))
  }

  /** The call-counter address recorded for an inlinee with profile info (0 otherwise). */
  function CallsCountAddress(body: FunctionBody, isInlinee: bool): Addr
  {
    if isInlinee && body.dynamicProfileInfo.Some? then body.defaultEntryPoint.callsCountAddr else 0
  }

  /** The shared property guards an inlinee with profile info drains, in iteration order. */
  function SharedGuards(body: FunctionBody, isInlinee: bool): seq<PropertyId>
  {
    if body.dynamicProfileInfo.Some? && isInlinee && body.defaultEntryPoint.sharedPropertyGuards.Some?
    then body.defaultEntryPoint.sharedPropertyGuards.value
    else []
  }

  /** The runtime data handed to the child at slot `i`: the inlinee's own runtime child, or the
      body's runtime child when the node is not an inlinee. */
  function ChildRuntime(kind: InlineeKind, body: FunctionBody, rt: Option<RuntimeData>, isInlinee: bool, i: nat)
    : Option<RuntimeData>
  {
    if isInlinee then
      if rt.Some? then SlotAt(RuntimeChildren(kind, rt.value), i) else None
    else
      SlotAt(BodyRuntimeChildren(kind, body), i)
  }

  /** The runtime data handed to the polymorphic successor. */
  function NextRuntime(body: FunctionBody, rt: Option<RuntimeData>, isInlinee: bool): Option<RuntimeData>
  {
    if isInlinee then
      if rt.Some? then rt.value.next else None
    else
      body.secondRuntimeData
  }

  /** The runtime record of a node with a body: one cloned cache address per inline cache when
      the node is an inlinee whose runtime data has cloned caches, empty otherwise. */
  function ClonedRuntimeInfo(body: FunctionBody, rt: Option<RuntimeData>, isInlinee: bool): RuntimeInfo
  {
    if isInlinee && rt.Some? && rt.value.clonedInlineCaches.Some? then
      var caches := rt.value.clonedInlineCaches.value;
      var count := body.jitBody.inlineCacheCount;
      RuntimeInfo(count, seq(count, j => AddrAt(caches, j)))
    else
      RuntimeInfo(0, [])
  }

  /** What the external type-specialisation materialiser fills: `count` descriptors, slot `i`
      filled from source entry `i`. */
  function Materialize(source: seq<Addr>, count: nat): seq<ObjTypeSpecFldInfo>
  {
    seq(count, i => ObjTypeSpecFldInfo(AddrAt(source, i)))
  }

  /** The snapshot built from `cg`, given runtime data `rt`, as an inlinee or not. */
  function Built(cg: CodeGenData, rt: Option<RuntimeData>, isInlinee: bool, inlineeDefault: bool): JitTimeData
    decreases cg, 2
  {
    match cg.body
    case None => Identity(cg)
    case Some(body) =>
      var d := WithProfile(Identity(cg), body, isInlinee);
      var d := WithCallSiteInlinees(d, cg, body, rt, isInlinee, inlineeDefault);
      var d := d.(profiledRuntimeData := Some(ClonedRuntimeInfo(body, rt, isInlinee)));
      var d := WithLdFldInlinees(d, cg, body, rt, isInlinee, inlineeDefault);
      var d := WithGlobalObjTypeSpecFldInfo(d, cg);
      WithNext(d, cg, body, rt, isInlinee, inlineeDefault)
  }

  /** Profile stage: the profile slot of the body, and for an inlinee its call counter and its
      drained shared-property-guard set. */
  function WithProfile(d: JitTimeData, body: FunctionBody, isInlinee: bool): JitTimeData
  {
    d.(bodyData := Some(ProfiledBody(body)),
       callsCountAddress := CallsCountAddress(body, isInlinee),
       sharedPropGuardCount := |SharedGuards(body, isInlinee)|,
       sharedPropertyGuards := SharedGuards(body, isInlinee))
  }

  /** Call-site stage: one slot per profiled call site, when there are any. */
  function WithCallSiteInlinees(d: JitTimeData, cg: CodeGenData, body: FunctionBody, rt: Option<RuntimeData>,
                                isInlinee: bool, inlineeDefault: bool): JitTimeData
    decreases cg, 1
  {
    var n := body.jitBody.profiledCallSiteCount;
    d.(inlineeCount := n,
       inlinees := if n > 0 then Slots(CallSite, cg, body, rt, isInlinee, inlineeDefault) else [])
  }

  /** Field-access stage: one slot per inline cache, when there are any, and the per-cache
      type-specialisation info when the source has it. */
  function WithLdFldInlinees(d: JitTimeData, cg: CodeGenData, body: FunctionBody, rt: Option<RuntimeData>,
                             isInlinee: bool, inlineeDefault: bool): JitTimeData
    decreases cg, 1
  {
    var m := body.jitBody.inlineCacheCount;
    var hasSlotInfo := m > 0 && cg.objTypeSpecFldInfo.Some?;
    d.(ldFldInlineeCount := m,
       ldFldInlinees := if m > 0 then Slots(LdFld, cg, body, rt, isInlinee, inlineeDefault) else [],
       objTypeSpecFldInfoCount := if hasSlotInfo then m else 0,
       objTypeSpecFldInfoArray := if hasSlotInfo then Materialize(cg.objTypeSpecFldInfo.value, m) else [])
  }

  /** Global type-specialisation stage, sized to the source's own count. */
  function WithGlobalObjTypeSpecFldInfo(d: JitTimeData, cg: CodeGenData): JitTimeData
  {
    var g := |cg.globalObjTypeSpecFldInfo|;
    d.(globalObjTypeSpecFldInfoCount := g,
       globalObjTypeSpecFldInfoArray := if g > 0 then Materialize(cg.globalObjTypeSpecFldInfo, g) else [])
  }

  /** Successor stage: the polymorphic successor, built with the default is-inlinee flag. */
  function WithNext(d: JitTimeData, cg: CodeGenData, body: FunctionBody, rt: Option<RuntimeData>,
                    isInlinee: bool, inlineeDefault: bool): JitTimeData
    decreases cg, 1
  {
    d.(next :=
         if cg.next.Some? then Some(Built(cg.next.value, NextRuntime(body, rt, isInlinee), inlineeDefault, inlineeDefault))
         else None)
  }

  /** The inlinee slots of one kind: slot `i` is built from code-gen child `i` when there is one. */
  function Slots(kind: InlineeKind, cg: CodeGenData, body: FunctionBody, rt: Option<RuntimeData>,
                 isInlinee: bool, inlineeDefault: bool): seq<Option<JitTimeData>>
    decreases cg, 0
  {
    var children := Children(kind, cg);
    seq(SlotCount(kind, body.jitBody), i requires 0 <= i =>
      if i < |children| && children[i].Some? then
        Some(Built(children[i].value, ChildRuntime(kind, body, rt, isInlinee, i), inlineeDefault, inlineeDefault))
      else
        None)
  }

  /** The source's entry assertion, at every node the build reaches: a node with a body is
      built as an inlinee exactly when it is given runtime data. */
  ghost predicate Admissible(cg: CodeGenData, rt: Option<RuntimeData>, isInlinee: bool, inlineeDefault: bool)
    decreases cg, 1
  {
    match cg.body
    case None => true
    case Some(body) =>
      && (isInlinee <==> rt.Some?)
      && SlotsAdmissible(CallSite, cg, body, rt, isInlinee, inlineeDefault)
      && SlotsAdmissible(LdFld, cg, body, rt, isInlinee, inlineeDefault)
      && (cg.next.Some? ==>
            Admissible(cg.next.value, NextRuntime(body, rt, isInlinee), inlineeDefault, inlineeDefault))
  }

  ghost predicate SlotsAdmissible(kind: InlineeKind, cg: CodeGenData, body: FunctionBody, rt: Option<RuntimeData>,
                                  isInlinee: bool, inlineeDefault: bool)
    decreases cg, 0
  {
    var children := Children(kind, cg);
    forall i :: 0 <= i < SlotCount(kind, body.jitBody) && i < |children| && children[i].Some? ==>
      Admissible(children[i].value, ChildRuntime(kind, body, rt, isInlinee, i), inlineeDefault, inlineeDefault)
  }

  /** Builds the snapshot of `cg` from a zero-initialised record, step by step. */
  method BuildJITTimeData(cg: CodeGenData, runtimeData: Option<RuntimeData>, isInlinee: bool, inlineeDefault: bool)
    returns (jitData: JitTimeData)
    requires Admissible(cg, runtimeData, isInlinee, inlineeDefault)
    ensures jitData == Built(cg, runtimeData, isInlinee, inlineeDefault)
    decreases cg, 2
  {
    jitData := CopyIdentity(cg);

    if cg.body.Some? {
      var functionBody := cg.body.value;
      jitData := CaptureProfile(jitData, functionBody, isInlinee);
      jitData := BuildCallSiteInlinees(jitData, cg, functionBody, runtimeData, isInlinee, inlineeDefault);
      var runtimeInfo := CloneInlineCaches(functionBody, runtimeData, isInlinee);
      jitData := jitData.(profiledRuntimeData := Some(runtimeInfo));
      jitData := BuildLdFldInlinees(jitData, cg, functionBody, runtimeData, isInlinee, inlineeDefault);
      jitData := BuildGlobalObjTypeSpecFldInfo(jitData, cg);
      jitData := BuildNext(jitData, cg, functionBody, runtimeData, isInlinee, inlineeDefault);
    }
  }

  /** Allocates the zero-initialised record and copies the identity and flag fields. */
  method CopyIdentity(cg: CodeGenData) returns (jitData: JitTimeData)
    ensures jitData == Identity(cg)
  {
    jitData := ZeroJitTimeData;
    jitData := jitData.(bodyData := if cg.body.Some? then Some(cg.body.value.jitBody) else None);
    jitData := jitData.(functionInfoAddr := cg.functionInfoAddr);
    jitData := jitData.(localFuncId := cg.localFunctionId);
    jitData := jitData.(isAggressiveInliningEnabled := cg.isAggressiveInliningEnabled);
    jitData := jitData.(isInlined := cg.isInlined);
    jitData := jitData.(weakFuncRef := cg.weakFuncRef);
    jitData := jitData.(inlineesBv := cg.inlineesBv);
  }

  /** Fills the profile slot of the body and, for an inlinee, its call counter and its drained
      shared-property-guard set. */
  method CaptureProfile(jitData: JitTimeData, functionBody: FunctionBody, isInlinee: bool) returns (filled: JitTimeData)
    requires jitData.bodyData == Some(functionBody.jitBody)
    requires jitData.callsCountAddress == 0 && jitData.sharedPropGuardCount == 0 && jitData.sharedPropertyGuards == []
    ensures filled == WithProfile(jitData, functionBody, isInlinee)
  {
    filled := jitData;
    if functionBody.dynamicProfileInfo.Some? {
      var profileData := ProfileData(functionBody.dynamicProfileInfo.value);
      filled := filled.(bodyData := Some(filled.bodyData.value.(profileData := Some(profileData))));
      if isInlinee {
        filled := filled.(callsCountAddress := functionBody.defaultEntryPoint.callsCountAddr);
        var sharedGuards := functionBody.defaultEntryPoint.sharedPropertyGuards;
        if sharedGuards.Some? {
          filled := filled.(sharedPropGuardCount := |sharedGuards.value|);
          var ids := DrainSharedGuards(sharedGuards.value);
          filled := filled.(sharedPropertyGuards := ids);
        }
      }
    }
  }

  /** Copies the guard set's keys, in iteration order, into an array of the set's size. */
  method DrainSharedGuards(keys: seq<PropertyId>) returns (ids: seq<PropertyId>)
    ensures ids == keys
  {
    var sharedPropertyGuards := new PropertyId[|keys|];
    var i := 0;
    while i < |keys|
      invariant 0 <= i <= |keys|
      invariant sharedPropertyGuards[..i] == keys[..i]
    {
      sharedPropertyGuards[i] := keys[i];
      i := i + 1;
    }
    ids := sharedPropertyGuards[..];
  }

  /** For a body with profiled call sites: the call-site inlinee array. */
  method BuildCallSiteInlinees(jitData: JitTimeData, cg: CodeGenData, functionBody: FunctionBody,
                               runtimeData: Option<RuntimeData>, isInlinee: bool, inlineeDefault: bool)
    returns (filled: JitTimeData)
    requires cg.body == Some(functionBody)
    requires Admissible(cg, runtimeData, isInlinee, inlineeDefault)
    requires jitData.bodyData == Some(ProfiledBody(functionBody))
    requires jitData.inlineeCount == 0 && jitData.inlinees == []
    ensures filled == WithCallSiteInlinees(jitData, cg, functionBody, runtimeData, isInlinee, inlineeDefault)
    decreases cg, 1
  {
    filled := jitData;
    if filled.bodyData.value.profiledCallSiteCount > 0 {
      filled := filled.(inlineeCount := filled.bodyData.value.profiledCallSiteCount);
      var inlinees := BuildInlinees(CallSite, cg, functionBody, runtimeData, isInlinee, inlineeDefault);
      filled := filled.(inlinees := inlinees);
    }
  }

  /** The zero-initialised runtime record, filled with the cloned cache addresses when the node is
      an inlinee whose runtime data has cloned caches. */
  method CloneInlineCaches(functionBody: FunctionBody, runtimeData: Option<RuntimeData>, isInlinee: bool)
    returns (info: RuntimeInfo)
    requires isInlinee ==> runtimeData.Some?
    ensures info == ClonedRuntimeInfo(functionBody, runtimeData, isInlinee)
  {
    info := RuntimeInfo(0, []);
    if isInlinee && runtimeData.value.clonedInlineCaches.Some? {
      var caches := runtimeData.value.clonedInlineCaches.value;
      var count := functionBody.jitBody.inlineCacheCount;
      var clonedInlineCaches := new Addr[count];
      for j := 0 to count
        invariant forall k :: 0 <= k < j ==> clonedInlineCaches[k] == AddrAt(caches, k)
      {
        clonedInlineCaches[j] := AddrAt(caches, j);
      }
      info := RuntimeInfo(count, clonedInlineCaches[..]);
    }
  }

  /** For a body with inline caches: the field-access inlinee array and, when the source has
      per-cache type-specialisation info, its materialised copy. */
  method BuildLdFldInlinees(jitData: JitTimeData, cg: CodeGenData, functionBody: FunctionBody,
                            runtimeData: Option<RuntimeData>, isInlinee: bool, inlineeDefault: bool)
    returns (filled: JitTimeData)
    requires cg.body == Some(functionBody)
    requires Admissible(cg, runtimeData, isInlinee, inlineeDefault)
    requires jitData.bodyData == Some(ProfiledBody(functionBody))
    requires jitData.ldFldInlineeCount == 0 && jitData.ldFldInlinees == []
    requires jitData.objTypeSpecFldInfoCount == 0 && jitData.objTypeSpecFldInfoArray == []
    ensures filled == WithLdFldInlinees(jitData, cg, functionBody, runtimeData, isInlinee, inlineeDefault)
    decreases cg, 1
  {
    filled := jitData;
    var inlineCacheCount := filled.bodyData.value.inlineCacheCount;
    if inlineCacheCount > 0 {
      filled := filled.(ldFldInlineeCount := inlineCacheCount);
      if cg.objTypeSpecFldInfo.Some? {
        filled := filled.(objTypeSpecFldInfoCount := inlineCacheCount);
        filled := filled.(objTypeSpecFldInfoArray := Materialize(cg.objTypeSpecFldInfo.value, inlineCacheCount));
      }
      var ldFldInlinees := BuildInlinees(LdFld, cg, functionBody, runtimeData, isInlinee, inlineeDefault);
      filled := filled.(ldFldInlinees := ldFldInlinees);
    }
  }

  /** Materialises the global type-specialisation array, sized to the source's own count. */
  method BuildGlobalObjTypeSpecFldInfo(jitData: JitTimeData, cg: CodeGenData) returns (filled: JitTimeData)
    requires jitData.globalObjTypeSpecFldInfoCount == 0 && jitData.globalObjTypeSpecFldInfoArray == []
    ensures filled == WithGlobalObjTypeSpecFldInfo(jitData, cg)
  {
    filled := jitData;
    var globalCount := |cg.globalObjTypeSpecFldInfo|;
    if globalCount > 0 {
      filled := filled.(globalObjTypeSpecFldInfoCount := globalCount);
      filled := filled.(globalObjTypeSpecFldInfoArray := Materialize(cg.globalObjTypeSpecFldInfo, globalCount));
    }
  }

  /** Builds the polymorphic successor when the source has one, handing it the successor's
      runtime data under the same is-inlinee choice as the inlinee slots. */
  method BuildNext(jitData: JitTimeData, cg: CodeGenData, functionBody: FunctionBody,
                   runtimeData: Option<RuntimeData>, isInlinee: bool, inlineeDefault: bool)
    returns (filled: JitTimeData)
    requires cg.body == Some(functionBody)
    requires Admissible(cg, runtimeData, isInlinee, inlineeDefault)
    requires jitData.next.None?
    ensures filled == WithNext(jitData, cg, functionBody, runtimeData, isInlinee, inlineeDefault)
    decreases cg, 1
  {
    filled := jitData;
    if cg.next.Some? {
      var nextRuntime := if isInlinee then runtimeData.value.next else functionBody.secondRuntimeData;
      assert nextRuntime == NextRuntime(functionBody, runtimeData, isInlinee);
      var next := BuildJITTimeData(cg.next.value, nextRuntime, inlineeDefault, inlineeDefault);
      filled := filled.(next := Some(next));
    }
  }

  /** Fills a zero-initialised slot array, one slot per site the body records, building the
      child at every site that has one. */
  method BuildInlinees(kind: InlineeKind, cg: CodeGenData, functionBody: FunctionBody, runtimeData: Option<RuntimeData>,
                       isInlinee: bool, inlineeDefault: bool)
    returns (slots: seq<Option<JitTimeData>>)
    requires cg.body == Some(functionBody)
    requires Admissible(cg, runtimeData, isInlinee, inlineeDefault)
    ensures slots == Slots(kind, cg, functionBody, runtimeData, isInlinee, inlineeDefault)
    decreases cg, 0
  {
    ghost var spec := Slots(kind, cg, functionBody, runtimeData, isInlinee, inlineeDefault);
    var count := SlotCount(kind, functionBody.jitBody);
    var children := Children(kind, cg);
    var inlinees := new Option<JitTimeData>[count](_ => None);
    for i := 0 to count
      invariant forall k :: 0 <= k < i ==> inlinees[k] == spec[k]
      invariant forall k :: i <= k < count ==> inlinees[k] == None
    {
      SlotStep(kind, cg, functionBody, runtimeData, isInlinee, inlineeDefault, i);
      var inlineeRuntimeData :=
        if isInlinee then SlotAt(RuntimeChildren(kind, runtimeData.value), i)
        else SlotAt(BodyRuntimeChildren(kind, functionBody), i);
      if i < |children| && children[i].Some? {
        var inlinee := BuildJITTimeData(children[i].value, inlineeRuntimeData, inlineeDefault, inlineeDefault);
        inlinees[i] := Some(inlinee);
      }
    }
    slots := inlinees[..];
  }

  /** Slot `i` of the specification, and the entry assertion of the child built there. */
  lemma SlotStep(kind: InlineeKind, cg: CodeGenData, functionBody: FunctionBody, runtimeData: Option<RuntimeData>,
                 isInlinee: bool, inlineeDefault: bool, i: nat)
    requires cg.body == Some(functionBody)
    requires Admissible(cg, runtimeData, isInlinee, inlineeDefault)
    requires i < SlotCount(kind, functionBody.jitBody)
    ensures var children := Children(kind, cg);
      var spec := Slots(kind, cg, functionBody, runtimeData, isInlinee, inlineeDefault);
      var childRuntime := ChildRuntime(kind, functionBody, runtimeData, isInlinee, i);
      && |spec| == SlotCount(kind, functionBody.jitBody)
      && (isInlinee ==> runtimeData.Some?)
      && childRuntime == (if isInlinee then SlotAt(RuntimeChildren(kind, runtimeData.value), i)
                          else SlotAt(BodyRuntimeChildren(kind, functionBody), i))
      && spec[i] == (if i < |children| && children[i].Some?
                     then Some(Built(children[i].value, childRuntime, inlineeDefault, inlineeDefault)) else None)
      && (i < |children| && children[i].Some? ==>
            Admissible(children[i].value, childRuntime, inlineeDefault, inlineeDefault))
  {
  }
}
