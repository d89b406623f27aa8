/**
 * The query layer read on a built snapshot: each accessor answers in terms
 * of the code-gen context the snapshot was built from.
 */
module QueryProperties {
  import opened Wrappers
  import opened CodeGenContext
  import opened JitTimeSnapshot
  import opened Builder
  import opened BuilderProperties
  import opened Queries

  /** A built node satisfies the accessors' shape requirement and keeps the body's counts. */
  lemma BuiltNodeShaped(cg: CodeGenData, rt: Option<RuntimeData>, isInlinee: bool, inlineeDefault: bool)
    ensures var d := Built(cg, rt, isInlinee, inlineeDefault);
      && NodeShaped(d)
      && (d.bodyData.Some? <==> cg.body.Some?)
      && (cg.body.Some? ==>
            && d.bodyData.value.profiledCallSiteCount == cg.body.value.jitBody.profiledCallSiteCount
            && d.bodyData.value.inlineCacheCount == cg.body.value.jitBody.inlineCacheCount)
  {
    BuiltIsWellShaped(cg, rt, isInlinee, inlineeDefault);
    BuiltCopiesIdentity(cg, rt, isInlinee, inlineeDefault);
  }

  /** Looking up slot `i` of a built node finds the build of source child `i`, and nothing
      exactly when the source has no child there. */
  lemma BuiltInlineeLookup(kind: InlineeKind, cg: CodeGenData, rt: Option<RuntimeData>, isInlinee: bool, inlineeDefault: bool, i: nat)
    requires cg.body.Some? && i < SlotCount(kind, cg.body.value.jitBody)
    ensures var d := Built(cg, rt, isInlinee, inlineeDefault);
      && NodeShaped(d) && d.bodyData.Some? && i < SlotCount(kind, d.bodyData.value)
      && (InlineeAt(kind, d, i).Some? <==> SlotAt(Children(kind, cg), i).Some?)
      && (InlineeAt(kind, d, i).Some? ==>
            InlineeAt(kind, d, i).value ==
              Built(SlotAt(Children(kind, cg), i).value, ChildRuntime(kind, cg.body.value, rt, isInlinee, i), inlineeDefault, inlineeDefault))
  {
    BuiltNodeShaped(cg, rt, isInlinee, inlineeDefault);
    BuiltSlot(kind, cg, rt, isInlinee, inlineeDefault, i);
  }

  /** The runtime record at call site `i` of a built node is the cloned-cache record of the
      child's build, which is an inlinee build exactly when the default flag says so. */
  lemma BuiltInlineeRuntimeData(cg: CodeGenData, rt: Option<RuntimeData>, isInlinee: bool, inlineeDefault: bool, i: nat)
    requires cg.body.Some? && i < cg.body.value.jitBody.profiledCallSiteCount
    ensures var d := Built(cg, rt, isInlinee, inlineeDefault);
      var child := SlotAt(cg.inlinees, i);
      && NodeShaped(d) && d.bodyData.Some? && i < d.bodyData.value.profiledCallSiteCount
      && GetInlineeRuntimeData(d, i) ==
           if child.Some? && child.value.body.Some? then
             Some(ClonedRuntimeInfo(child.value.body.value, ChildRuntime(CallSite, cg.body.value, rt, isInlinee, i), inlineeDefault))
           else None
  {
    BuiltInlineeLookup(CallSite, cg, rt, isInlinee, inlineeDefault, i);
    var child := SlotAt(cg.inlinees, i);
    if child.Some? {
      BuiltRuntimeInfo(child.value, ChildRuntime(CallSite, cg.body.value, rt, isInlinee, i), inlineeDefault, inlineeDefault);
      if child.value.body.Some? {
        BuiltFields(child.value, ChildRuntime(CallSite, cg.body.value, rt, isInlinee, i), inlineeDefault, inlineeDefault);
      }
    }
  }

  /** The same for field-access inline cache `i`. */
  lemma BuiltLdFldInlineeRuntimeData(cg: CodeGenData, rt: Option<RuntimeData>, isInlinee: bool, inlineeDefault: bool, i: nat)
    requires cg.body.Some? && i < cg.body.value.jitBody.inlineCacheCount
    ensures var d := Built(cg, rt, isInlinee, inlineeDefault);
      var child := SlotAt(cg.ldFldInlinees, i);
      && NodeShaped(d) && d.bodyData.Some? && i < d.bodyData.value.inlineCacheCount
      && GetLdFldInlineeRuntimeData(d, i) ==
           if child.Some? && child.value.body.Some? then
             Some(ClonedRuntimeInfo(child.value.body.value, ChildRuntime(LdFld, cg.body.value, rt, isInlinee, i), inlineeDefault))
           else None
  {
    BuiltInlineeLookup(LdFld, cg, rt, isInlinee, inlineeDefault, i);
    var child := SlotAt(cg.ldFldInlinees, i);
    if child.Some? {
      BuiltRuntimeInfo(child.value, ChildRuntime(LdFld, cg.body.value, rt, isInlinee, i), inlineeDefault, inlineeDefault);
      if child.value.body.Some? {
        BuiltFields(child.value, ChildRuntime(LdFld, cg.body.value, rt, isInlinee, i), inlineeDefault, inlineeDefault);
      }
    }
  }

  /** A call site of a built node is polymorphic exactly when its source candidate has a body
      and a successor; a site whose source candidate is missing reads through null. */
  lemma BuiltPolymorphicCallSite(cg: CodeGenData, rt: Option<RuntimeData>, isInlinee: bool, inlineeDefault: bool, i: nat)
    requires cg.body.Some? && i < cg.body.value.jitBody.profiledCallSiteCount
    ensures var d := Built(cg, rt, isInlinee, inlineeDefault);
      var child := SlotAt(cg.inlinees, i);
      && NodeShaped(d) && d.bodyData.Some? && i < d.bodyData.value.profiledCallSiteCount
      && IsPolymorphicCallSite(d, i) ==
           if child.None? then Failure(NullDereference)
           else Success(child.value.body.Some? && child.value.next.Some?)
  {
    BuiltInlineeLookup(CallSite, cg, rt, isInlinee, inlineeDefault, i);
    var child := SlotAt(cg.inlinees, i);
    if child.Some? {
      BuiltCopiesIdentity(child.value, ChildRuntime(CallSite, cg.body.value, rt, isInlinee, i), inlineeDefault, inlineeDefault);
      if child.value.body.Some? {
        BuiltFields(child.value, ChildRuntime(CallSite, cg.body.value, rt, isInlinee, i), inlineeDefault, inlineeDefault);
      }
    }
  }

  /** On a built node, the first chain position holding function-info address `a` is the first
      source-chain position holding it, when every candidate but the last has a body. */
  lemma BuiltChainSearch(cg: CodeGenData, rt: Option<RuntimeData>, isInlinee: bool, inlineeDefault: bool, a: Addr, k: int)
    requires forall j :: 0 <= j < |SourceChain(cg)| - 1 ==> SourceChain(cg)[j].body.Some?
    ensures var c := SourceChain(cg);
      AddrMatchAt(Chain(Built(cg, rt, isInlinee, inlineeDefault)), k, a) <==>
        (0 <= k < |c| && c[k].functionInfoAddr == a && forall j :: 0 <= j < k ==> c[j].functionInfoAddr != a)
  {
    BuiltChainMatchesSourceChain(cg, rt, isInlinee, inlineeDefault);
  }

  /** The per-cache descriptor of a built node is present exactly when the source has per-cache
      info, and was filled from the source entry at that index. */
  lemma BuiltObjTypeSpecFldInfoLookup(cg: CodeGenData, rt: Option<RuntimeData>, isInlinee: bool, inlineeDefault: bool, index: nat)
    requires cg.body.Some? && index < cg.body.value.jitBody.inlineCacheCount
    ensures var d := Built(cg, rt, isInlinee, inlineeDefault);
      && NodeShaped(d) && d.bodyData.Some? && index < d.bodyData.value.inlineCacheCount
      && GetObjTypeSpecFldInfo(d, index) ==
           if cg.objTypeSpecFldInfo.Some? then Some(ObjTypeSpecFldInfo(AddrAt(cg.objTypeSpecFldInfo.value, index))) else None
  {
    BuiltNodeShaped(cg, rt, isInlinee, inlineeDefault);
    BuiltObjTypeSpecFldInfo(cg, rt, isInlinee, inlineeDefault);
  }

  /** The global descriptor at `index` of a built node was filled from the source's global
      entry at `index`. */
  lemma BuiltGlobalObjTypeSpecFldInfoLookup(cg: CodeGenData, rt: Option<RuntimeData>, isInlinee: bool, inlineeDefault: bool, index: nat)
    requires cg.body.Some? && index < |cg.globalObjTypeSpecFldInfo|
    ensures var d := Built(cg, rt, isInlinee, inlineeDefault);
      && NodeShaped(d) && index < d.globalObjTypeSpecFldInfoCount
      && GetGlobalObjTypeSpecFldInfo(d, index).source == cg.globalObjTypeSpecFldInfo[index]
  {
    BuiltNodeShaped(cg, rt, isInlinee, inlineeDefault);
    BuiltObjTypeSpecFldInfo(cg, rt, isInlinee, inlineeDefault);
  }

  /** A built node lists guard `id` exactly when it was built as an inlinee whose body has
      profile info and a guard set containing `id`; it has guards exactly when that set is
      non-empty. */
  lemma BuiltGuardLookup(cg: CodeGenData, rt: Option<RuntimeData>, isInlinee: bool, inlineeDefault: bool, id: PropertyId)
    ensures var d := Built(cg, rt, isInlinee, inlineeDefault);
      var drained := cg.body.Some? && isInlinee && cg.body.value.dynamicProfileInfo.Some? &&
                     cg.body.value.defaultEntryPoint.sharedPropertyGuards.Some?;
      && d.sharedPropGuardCount <= |d.sharedPropertyGuards|
      && (id in d.sharedPropertyGuards[..d.sharedPropGuardCount] <==>
            drained && id in cg.body.value.defaultEntryPoint.sharedPropertyGuards.value)
      && (HasSharedPropertyGuards(d) <==>
            drained && cg.body.value.defaultEntryPoint.sharedPropertyGuards.value != [])
  {
    BuiltSharedGuards(cg, rt, isInlinee, inlineeDefault);
    var d := Built(cg, rt, isInlinee, inlineeDefault);
    assert d.sharedPropertyGuards[..d.sharedPropGuardCount] == d.sharedPropertyGuards;
  }

  /** A built node has field-access inlinee slots exactly when its body has inline caches. */
  lemma BuiltLdFldInlineePresent(cg: CodeGenData, rt: Option<RuntimeData>, isInlinee: bool, inlineeDefault: bool)
    ensures IsLdFldInlineePresent(Built(cg, rt, isInlinee, inlineeDefault)) <==>
              cg.body.Some? && cg.body.value.jitBody.inlineCacheCount > 0
  {
    BuiltSlotCount(LdFld, cg, rt, isInlinee, inlineeDefault);
  }
}
