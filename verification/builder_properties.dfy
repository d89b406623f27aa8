/**
 * What a built snapshot looks like: the copied identity, the shape of each
 * inlinee array, the drained guards, the cloned caches, the
 * type-specialisation arrays, the shape invariant of the whole tree, and the
 * order of the polymorphic chain.
 */
module BuilderProperties {
  import opened Wrappers
  import opened CodeGenContext
  import opened JitTimeSnapshot
  import opened Builder

  /** The fields of a snapshot built from a function with a body, stage by stage. */
  lemma BuiltFields(cg: CodeGenData, rt: Option<RuntimeData>, isInlinee: bool, inlineeDefault: bool)
    requires cg.body.Some?
    ensures var d := Built(cg, rt, isInlinee, inlineeDefault);
      var body := cg.body.value;
      var n := body.jitBody.inlineCacheCount;
      var hasSlotInfo := n > 0 && cg.objTypeSpecFldInfo.Some?;
      && d.bodyData == Some(ProfiledBody(body))
      && d.functionInfoAddr == cg.functionInfoAddr
      && d.localFuncId == cg.localFunctionId
      && d.isAggressiveInliningEnabled == cg.isAggressiveInliningEnabled
      && d.isInlined == cg.isInlined
      && d.weakFuncRef == cg.weakFuncRef
      && d.inlineesBv == cg.inlineesBv
      && d.callsCountAddress == CallsCountAddress(body, isInlinee)
      && d.sharedPropGuardCount == |SharedGuards(body, isInlinee)|
      && d.sharedPropertyGuards == SharedGuards(body, isInlinee)
      && d.inlineeCount == body.jitBody.profiledCallSiteCount
      && d.inlinees == (if body.jitBody.profiledCallSiteCount > 0 then Slots(CallSite, cg, body, rt, isInlinee, inlineeDefault) else [])
      && d.profiledRuntimeData == Some(ClonedRuntimeInfo(body, rt, isInlinee))
      && d.ldFldInlineeCount == n
      && d.ldFldInlinees == (if n > 0 then Slots(LdFld, cg, body, rt, isInlinee, inlineeDefault) else [])
      && d.objTypeSpecFldInfoCount == (if hasSlotInfo then n else 0)
      && d.objTypeSpecFldInfoArray == (if hasSlotInfo then Materialize(cg.objTypeSpecFldInfo.value, n) else [])
      && d.globalObjTypeSpecFldInfoCount == |cg.globalObjTypeSpecFldInfo|
      && d.globalObjTypeSpecFldInfoArray ==
           (if |cg.globalObjTypeSpecFldInfo| > 0 then Materialize(cg.globalObjTypeSpecFldInfo, |cg.globalObjTypeSpecFldInfo|) else [])
      && d.next == (if cg.next.Some? then Some(Built(cg.next.value, NextRuntime(body, rt, isInlinee), inlineeDefault, inlineeDefault)) else None)
  {
    var body := cg.body.value;
    var d1 := WithProfile(Identity(cg), body, isInlinee);
    var d2 := WithCallSiteInlinees(d1, cg, body, rt, isInlinee, inlineeDefault);
    var d3 := d2.(profiledRuntimeData := Some(ClonedRuntimeInfo(body, rt, isInlinee)));
    var d4 := WithLdFldInlinees(d3, cg, body, rt, isInlinee, inlineeDefault);
    var d5 := WithGlobalObjTypeSpecFldInfo(d4, cg);
    assert Built(cg, rt, isInlinee, inlineeDefault) == WithNext(d5, cg, body, rt, isInlinee, inlineeDefault);
  }

  /** The identity and flag fields are copied verbatim, and the body is the source's JIT body
      with only its profile slot filled. */
  lemma BuiltCopiesIdentity(cg: CodeGenData, rt: Option<RuntimeData>, isInlinee: bool, inlineeDefault: bool)
    ensures var d := Built(cg, rt, isInlinee, inlineeDefault);
      && d.functionInfoAddr == cg.functionInfoAddr
      && d.localFuncId == cg.localFunctionId
      && d.isAggressiveInliningEnabled == cg.isAggressiveInliningEnabled
      && d.isInlined == cg.isInlined
      && d.weakFuncRef == cg.weakFuncRef
      && d.inlineesBv == cg.inlineesBv
      && (d.bodyData.Some? <==> cg.body.Some?)
    ensures var d := Built(cg, rt, isInlinee, inlineeDefault);
      cg.body.Some? ==>
        var b := cg.body.value.jitBody;
        && d.bodyData.value.(profileData := b.profileData) == b
        && d.bodyData.value.profileData ==
             if cg.body.value.dynamicProfileInfo.Some? then Some(ProfileData(cg.body.value.dynamicProfileInfo.value))
             else b.profileData
  {
    if cg.body.Some? {
      BuiltFields(cg, rt, isInlinee, inlineeDefault);
    }
  }

  /** A function without a body yields a node with every count 0, every array null, no runtime
      record and no successor. */
  lemma BuiltWithoutBodyIsEmpty(cg: CodeGenData, rt: Option<RuntimeData>, isInlinee: bool, inlineeDefault: bool)
    requires cg.body.None?
    ensures var d := Built(cg, rt, isInlinee, inlineeDefault);
      && d.bodyData.None?
      && d.inlineeCount == 0 && d.inlinees == []
      && d.ldFldInlineeCount == 0 && d.ldFldInlinees == []
      && d.objTypeSpecFldInfoCount == 0 && d.objTypeSpecFldInfoArray == []
      && d.globalObjTypeSpecFldInfoCount == 0 && d.globalObjTypeSpecFldInfoArray == []
      && d.sharedPropGuardCount == 0 && d.sharedPropertyGuards == []
      && d.callsCountAddress == 0
      && d.profiledRuntimeData.None?
      && d.next.None?
  {
  }

  /** An inlinee array has one slot per site the body records (none without a body or sites). */
  lemma BuiltSlotCount(kind: InlineeKind, cg: CodeGenData, rt: Option<RuntimeData>, isInlinee: bool, inlineeDefault: bool)
    ensures var d := Built(cg, rt, isInlinee, inlineeDefault);
      var n := if cg.body.Some? then SlotCount(kind, cg.body.value.jitBody) else 0;
      InlineeCount(kind, d) == n && |Inlinees(kind, d)| == n
  {
    if cg.body.Some? {
      BuiltFields(cg, rt, isInlinee, inlineeDefault);
    }
  }

  /** Slot `i` is present exactly when the source has a child at `i`, and then it is the snapshot
      built from that child with the runtime data chosen for slot `i` and the default flag. */
  lemma BuiltSlot(kind: InlineeKind, cg: CodeGenData, rt: Option<RuntimeData>, isInlinee: bool, inlineeDefault: bool, i: nat)
    requires cg.body.Some? && i < SlotCount(kind, cg.body.value.jitBody)
    ensures var slots := Inlinees(kind, Built(cg, rt, isInlinee, inlineeDefault));
      var child := SlotAt(Children(kind, cg), i);
      && i < |slots|
      && (slots[i].Some? <==> child.Some?)
      && (child.Some? ==>
            slots[i].value == Built(child.value, ChildRuntime(kind, cg.body.value, rt, isInlinee, i), inlineeDefault, inlineeDefault))
  {
    BuiltFields(cg, rt, isInlinee, inlineeDefault);
  }

  /** The guard array is filled only for an inlinee whose body has profile info and a guard set;
      it then holds the set's keys in iteration order and its count is the set's size. */
  lemma BuiltSharedGuards(cg: CodeGenData, rt: Option<RuntimeData>, isInlinee: bool, inlineeDefault: bool)
    ensures var d := Built(cg, rt, isInlinee, inlineeDefault);
      && d.sharedPropGuardCount == |d.sharedPropertyGuards|
      && (d.sharedPropertyGuards != [] ==> isInlinee && cg.body.Some? && cg.body.value.dynamicProfileInfo.Some?)
      && (cg.body.Some? && cg.body.value.dynamicProfileInfo.Some? && isInlinee &&
          cg.body.value.defaultEntryPoint.sharedPropertyGuards.Some? ==>
            d.sharedPropertyGuards == cg.body.value.defaultEntryPoint.sharedPropertyGuards.value)
  {
    if cg.body.Some? {
      BuiltFields(cg, rt, isInlinee, inlineeDefault);
    }
  }

  /** Every node with a body has a runtime record; it holds one address per inline cache, equal
      to the upstream cloned cache, when the node is an inlinee with cloned caches, and is empty
      otherwise. */
  lemma BuiltRuntimeInfo(cg: CodeGenData, rt: Option<RuntimeData>, isInlinee: bool, inlineeDefault: bool)
    ensures var d := Built(cg, rt, isInlinee, inlineeDefault);
      d.profiledRuntimeData.Some? <==> cg.body.Some?
    ensures var d := Built(cg, rt, isInlinee, inlineeDefault);
      cg.body.Some? ==>
        var info := d.profiledRuntimeData.value;
        var cloning := isInlinee && rt.Some? && rt.value.clonedInlineCaches.Some?;
        && info.clonedCacheCount == |info.clonedInlineCaches|
        && info.clonedCacheCount == (if cloning then cg.body.value.jitBody.inlineCacheCount else 0)
        && (cloning ==> forall j :: 0 <= j < info.clonedCacheCount ==>
              info.clonedInlineCaches[j] == AddrAt(rt.value.clonedInlineCaches.value, j))
  {
    if cg.body.Some? {
      BuiltFields(cg, rt, isInlinee, inlineeDefault);
    }
  }

  /** The per-cache type-specialisation count is the inline-cache count exactly when the body
      has inline caches and the source has per-cache info, and 0 otherwise; the global count is
      the source's own count for a function with a body. Each descriptor comes from the source
      entry at the same index. */
  lemma BuiltObjTypeSpecFldInfo(cg: CodeGenData, rt: Option<RuntimeData>, isInlinee: bool, inlineeDefault: bool)
    ensures var d := Built(cg, rt, isInlinee, inlineeDefault);
      var hasSlotInfo := cg.body.Some? && cg.body.value.jitBody.inlineCacheCount > 0 && cg.objTypeSpecFldInfo.Some?;
      && d.objTypeSpecFldInfoCount == (if hasSlotInfo then cg.body.value.jitBody.inlineCacheCount else 0)
      && |d.objTypeSpecFldInfoArray| == d.objTypeSpecFldInfoCount
      && (forall i :: 0 <= i < |d.objTypeSpecFldInfoArray| ==>
            d.objTypeSpecFldInfoArray[i].source == AddrAt(cg.objTypeSpecFldInfo.value, i))
    ensures var d := Built(cg, rt, isInlinee, inlineeDefault);
      && d.globalObjTypeSpecFldInfoCount == (if cg.body.Some? then |cg.globalObjTypeSpecFldInfo| else 0)
      && |d.globalObjTypeSpecFldInfoArray| == d.globalObjTypeSpecFldInfoCount
      && (forall i :: 0 <= i < |d.globalObjTypeSpecFldInfoArray| ==>
            d.globalObjTypeSpecFldInfoArray[i].source == cg.globalObjTypeSpecFldInfo[i])
  {
    if cg.body.Some? {
      BuiltFields(cg, rt, isInlinee, inlineeDefault);
    }
  }

  /** A built node satisfies the snapshot's shape invariant at its own level. */
  lemma BuiltNodeIsShaped(cg: CodeGenData, rt: Option<RuntimeData>, isInlinee: bool, inlineeDefault: bool)
    ensures NodeShaped(Built(cg, rt, isInlinee, inlineeDefault))
  {
    if cg.body.Some? {
      BuiltFields(cg, rt, isInlinee, inlineeDefault);
    }
  }

  /** Every node of a built tree satisfies the snapshot's shape invariant. */
  lemma {:induction false} BuiltIsWellShaped(cg: CodeGenData, rt: Option<RuntimeData>, isInlinee: bool, inlineeDefault: bool)
    ensures WellShaped(Built(cg, rt, isInlinee, inlineeDefault))
    decreases cg
  {
    var d := Built(cg, rt, isInlinee, inlineeDefault);
    match cg.body
    case None =>
    case Some(body) =>
      BuiltNodeIsShaped(cg, rt, isInlinee, inlineeDefault);
      BuiltFields(cg, rt, isInlinee, inlineeDefault);
      forall i | 0 <= i < |d.inlinees| && d.inlinees[i].Some?
        ensures WellShaped(d.inlinees[i].value)
      {
        BuiltIsWellShaped(cg.inlinees[i].value, ChildRuntime(CallSite, body, rt, isInlinee, i), inlineeDefault, inlineeDefault);
      }
      forall i | 0 <= i < |d.ldFldInlinees| && d.ldFldInlinees[i].Some?
        ensures WellShaped(d.ldFldInlinees[i].value)
      {
        BuiltIsWellShaped(cg.ldFldInlinees[i].value, ChildRuntime(LdFld, body, rt, isInlinee, i), inlineeDefault, inlineeDefault);
      }
      if cg.next.Some? {
        BuiltIsWellShaped(cg.next.value, NextRuntime(body, rt, isInlinee), inlineeDefault, inlineeDefault);
      }
  }

  /** The candidates the builder visits along `next`: the successor of a candidate is built only
      when that candidate has a body. */
  function VisitedChain(cg: CodeGenData): (c: seq<CodeGenData>)
    ensures |c| >= 1 && c[0] == cg
    decreases cg
  {
    [cg] + if cg.body.Some? && cg.next.Some? then VisitedChain(cg.next.value) else []
  }

  /** What the chain of a built node depends on: its identity address, whether it has a body,
      and its successor. */
  lemma BuiltLink(cg: CodeGenData, rt: Option<RuntimeData>, isInlinee: bool, inlineeDefault: bool)
    ensures var d := Built(cg, rt, isInlinee, inlineeDefault);
      && d.functionInfoAddr == cg.functionInfoAddr
      && (d.bodyData.Some? <==> cg.body.Some?)
      && d.next == (if cg.body.Some? && cg.next.Some?
                    then Some(Built(cg.next.value, NextRuntime(cg.body.value, rt, isInlinee), inlineeDefault, inlineeDefault))
                    else None)
  {
    if cg.body.Some? {
      BuiltFields(cg, rt, isInlinee, inlineeDefault);
    }
  }

  /** The snapshot's chain has one node per visited candidate, in the source's order: same
      identity address and same presence of a body at every position. */
  lemma {:induction false} BuiltChainFollowsSource(cg: CodeGenData, rt: Option<RuntimeData>, isInlinee: bool, inlineeDefault: bool)
    ensures var c := Chain(Built(cg, rt, isInlinee, inlineeDefault));
      && |c| == |VisitedChain(cg)|
      && forall k :: 0 <= k < |c| ==>
           c[k].functionInfoAddr == VisitedChain(cg)[k].functionInfoAddr &&
           (c[k].bodyData.Some? <==> VisitedChain(cg)[k].body.Some?)
    decreases cg
  {
    BuiltLink(cg, rt, isInlinee, inlineeDefault);
    if cg.body.Some? && cg.next.Some? {
      var d := Built(cg, rt, isInlinee, inlineeDefault);
      assert Chain(d) == [d] + Chain(d.next.value);
      assert VisitedChain(cg) == [cg] + VisitedChain(cg.next.value);
      BuiltChainFollowsSource(cg.next.value, NextRuntime(cg.body.value, rt, isInlinee), inlineeDefault, inlineeDefault);
    }
  }

  /** When every candidate but the last has a body, the builder visits the whole source chain. */
  lemma {:induction false} VisitedIsWholeChain(cg: CodeGenData)
    requires forall k :: 0 <= k < |SourceChain(cg)| - 1 ==> SourceChain(cg)[k].body.Some?
    ensures VisitedChain(cg) == SourceChain(cg)
    decreases cg
  {
    if cg.next.Some? {
      var rest := SourceChain(cg.next.value);
      assert SourceChain(cg) == [cg] + rest;
      forall k | 0 <= k < |rest| - 1 ensures rest[k].body.Some? {
        assert rest[k] == SourceChain(cg)[k + 1];
      }
      VisitedIsWholeChain(cg.next.value);
    }
  }

  /** Hence, when every candidate but the last has a body, the snapshot's chain has the same
      length and order as the source chain. */
  lemma BuiltChainMatchesSourceChain(cg: CodeGenData, rt: Option<RuntimeData>, isInlinee: bool, inlineeDefault: bool)
    requires forall k :: 0 <= k < |SourceChain(cg)| - 1 ==> SourceChain(cg)[k].body.Some?
    ensures var c := Chain(Built(cg, rt, isInlinee, inlineeDefault));
      && |c| == |SourceChain(cg)|
      && forall k :: 0 <= k < |c| ==> c[k].functionInfoAddr == SourceChain(cg)[k].functionInfoAddr
  {
    VisitedIsWholeChain(cg);
    BuiltChainFollowsSource(cg, rt, isInlinee, inlineeDefault);
  }
}
