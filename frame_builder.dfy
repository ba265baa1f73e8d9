/**
  The scene-assembly state: a single-owner builder that collects the stacking
  contexts and display lists of one scene, the root pipeline they belong to,
  and the serial counter scroll-layer ids are derived from.
 */
module FrameBuilder {
  import opened Types
  import opened Api

  /**
    A stacking context under construction. Registering a display list appends
    its id to the context's child list in place; the other attributes are
    fixed when the context is created.
   */
  class StackingContext {
    const scrollLayerId: Option<ScrollLayerId>
    const scrollPolicy: ScrollPolicy
    const zIndex: int
    var displayLists: seq<DisplayListId>
    /**
      Set once the context has been moved into a frame builder; the owner can
      then no longer reach it, so nothing may register display lists on it.
     */
    ghost var moved: bool

    /**
      Stands for the foreign constructor the stacking context is made with;
      its contract is assumed, since that constructor is not part of this model.
     */
    constructor (scrollLayerId: Option<ScrollLayerId>, scrollPolicy: ScrollPolicy, zIndex: int)
      // Assumed of the foreign constructor: the attributes passed in are kept.
      ensures this.scrollLayerId == scrollLayerId
      ensures this.scrollPolicy == scrollPolicy
      ensures this.zIndex == zIndex
      // Assumed of the foreign constructor: the child list starts empty.
      ensures displayLists == []
      ensures !moved
    {
      this.scrollLayerId := scrollLayerId;
      this.scrollPolicy := scrollPolicy;
      this.zIndex := zIndex;
      displayLists := [];
      moved := false;
    }

    /** The value the context becomes when it is moved into a frame builder. */
    function Value(): (v: StackingContextValue)
      reads this
    {
      StackingContextValue(scrollLayerId, scrollPolicy, zIndex, displayLists)
    }
  }

  /** The ids of a list of registered display lists. */
  ghost function RegisteredIds(lists: seq<(DisplayListId, BuiltDisplayList)>): (ids: set<DisplayListId>)
  {
    set i | 0 <= i < |lists| :: lists[i].0
  }

  /** Every id in `refs` names one of the registered display lists. */
  ghost predicate AllRegistered(refs: seq<DisplayListId>, registered: set<DisplayListId>)
  {
    forall k :: 0 <= k < |refs| ==> refs[k] in registered
  }

  /**
    The consistency a scene needs before it is committed: every display-list
    reference of every stacking context names a registered display list.
   */
  ghost predicate ReferencesRegistered(
    contexts: seq<(StackingContextId, StackingContextValue)>,
    lists: seq<(DisplayListId, BuiltDisplayList)>)
  {
    forall i :: 0 <= i < |contexts| ==> AllRegistered(contexts[i].1.displayLists, RegisteredIds(lists))
  }

  /**
    The scroll-layer ids that the first `n` calls of NextScrollLayerId on a
    builder for pipeline `root` return, in call order.
   */
  function IssuedScrollLayerIds(root: PipelineId, n: nat): (ids: seq<ScrollLayerId>)
  {
    if n == 0 then [] else IssuedScrollLayerIds(root, n - 1) + [ScrollLayerId(root, 0, ServoScrollRootId(n - 1))]
  }

  /** The i-th call hands out serial i (so the first call hands out serial 0). */
  lemma {:induction false} IssuedScrollLayerIdAt(root: PipelineId, n: nat, i: nat)
    requires i < n
    ensures |IssuedScrollLayerIds(root, n)| == n
    ensures IssuedScrollLayerIds(root, n)[i] == ScrollLayerId(root, 0, ServoScrollRootId(i))
  {
    if i < n - 1 {
      IssuedScrollLayerIdAt(root, n - 1, i);
    } else if n > 1 {
      IssuedScrollLayerIdAt(root, n - 1, 0);
    }
  }

  /** The ids handed out by one builder are pairwise distinct. */
  lemma IssuedScrollLayerIdsDistinct(root: PipelineId, n: nat)
    ensures |IssuedScrollLayerIds(root, n)| == n
    ensures forall i, j :: 0 <= i < j < n ==> IssuedScrollLayerIds(root, n)[i] != IssuedScrollLayerIds(root, n)[j]
  {
    if n > 0 {
      IssuedScrollLayerIdAt(root, n, 0);
    }
    forall i, j | 0 <= i < j < n
      ensures IssuedScrollLayerIds(root, n)[i] != IssuedScrollLayerIds(root, n)[j]
    {
      IssuedScrollLayerIdAt(root, n, i);
      IssuedScrollLayerIdAt(root, n, j);
    }
  }

  class WebRenderFrameBuilder {
    var stackingContexts: seq<(StackingContextId, StackingContextValue)>
    var displayLists: seq<(DisplayListId, BuiltDisplayList)>
    var auxiliaryListsBuilder: AuxiliaryListsBuilder
    var rootPipelineId: PipelineId
    var nextScrollLayerId: nat

    constructor (rootPipelineId: PipelineId)
      ensures stackingContexts == [] && displayLists == []
      ensures auxiliaryListsBuilder == AuxiliaryListsBuilder([])
      ensures this.rootPipelineId == rootPipelineId
      ensures nextScrollLayerId == 0 && IssuedScrollLayers() == []
    {
      stackingContexts := [];
      displayLists := [];
      auxiliaryListsBuilder := AuxiliaryListsBuilder([]);
      this.rootPipelineId := rootPipelineId;
      nextScrollLayerId := 0;
    }

    /** The scroll-layer ids this builder has handed out so far, in call order. */
    ghost function IssuedScrollLayers(): seq<ScrollLayerId>
      reads this
    {
      IssuedScrollLayerIds(rootPipelineId, nextScrollLayerId)
    }

    /** The ids of the display lists registered so far. */
    ghost function RegisteredDisplayLists(): set<DisplayListId>
      reads this
    {
      RegisteredIds(displayLists)
    }

    /**
      Every id the builder holds was handed out by `api`, and the ids of each
      kind are strictly increasing in registration order (hence distinct).
     */
    ghost predicate AllocatedBy(api: RenderApi)
      reads this, api
    {
      (forall i :: 0 <= i < |stackingContexts| ==>
        stackingContexts[i].0.namespace == api.idNamespace &&
        stackingContexts[i].0.serial < api.stackingContextWatermark) &&
      (forall i, j :: 0 <= i < j < |stackingContexts| ==>
        stackingContexts[i].0.serial < stackingContexts[j].0.serial) &&
      (forall i :: 0 <= i < |displayLists| ==>
        displayLists[i].0.namespace == api.idNamespace &&
        displayLists[i].0.serial < api.displayListWatermark) &&
      (forall i, j :: 0 <= i < j < |displayLists| ==>
        displayLists[i].0.serial < displayLists[j].0.serial)
    }

    /**
      Registers a stacking context, which is moved into the builder. A
      pipeline other than the root one is a fatal assertion failure.
     */
    method AddStackingContext(api: RenderApi, pipelineId: PipelineId, stackingContext: StackingContext)
      returns (id: StackingContextId)
      requires pipelineId == rootPipelineId
      requires !stackingContext.moved
      modifies this, api, stackingContext`moved
      ensures stackingContext.moved
      ensures stackingContexts == old(stackingContexts) + [(id, stackingContext.Value())]
      ensures displayLists == old(displayLists)
      ensures auxiliaryListsBuilder == old(auxiliaryListsBuilder)
      ensures rootPipelineId == old(rootPipelineId)
      ensures nextScrollLayerId == old(nextScrollLayerId)
      // the id is the one the allocator handed out
      ensures id.namespace == api.idNamespace
      ensures old(api.stackingContextWatermark) <= id.serial < api.stackingContextWatermark
      ensures api.displayListWatermark == old(api.displayListWatermark)
      ensures old(AllocatedBy(api)) ==> AllocatedBy(api)
      ensures old(AllocatedBy(api)) ==>
              forall i :: 0 <= i < |old(stackingContexts)| ==> old(stackingContexts)[i].0 != id
      ensures old(ReferencesRegistered(stackingContexts, displayLists))
              && AllRegistered(stackingContext.displayLists, RegisteredDisplayLists())
              ==> ReferencesRegistered(stackingContexts, displayLists)
    {
      id := api.NextStackingContextId();
      stackingContexts := stackingContexts + [(id, stackingContext.Value())];
      stackingContext.moved := true;
    }

    /**
      Registers a finalized display list: its new id is appended both to the
      child list of the given (still mutable) stacking context and, with the
      list, to the builder.
     */
    method AddDisplayList(api: RenderApi, displayList: BuiltDisplayList, stackingContext: StackingContext)
      returns (id: DisplayListId)
      requires !stackingContext.moved
      modifies this, api, stackingContext
      ensures !stackingContext.moved
      ensures stackingContext.displayLists == old(stackingContext.displayLists) + [id]
      ensures displayLists == old(displayLists) + [(id, displayList)]
      ensures RegisteredDisplayLists() == old(RegisteredDisplayLists()) + {id}
      ensures stackingContexts == old(stackingContexts)
      ensures auxiliaryListsBuilder == old(auxiliaryListsBuilder)
      ensures rootPipelineId == old(rootPipelineId)
      ensures nextScrollLayerId == old(nextScrollLayerId)
      // the id is the one the allocator handed out
      ensures id.namespace == api.idNamespace
      ensures old(api.displayListWatermark) <= id.serial < api.displayListWatermark
      ensures api.stackingContextWatermark == old(api.stackingContextWatermark)
      ensures old(AllocatedBy(api)) ==> AllocatedBy(api) && id !in old(RegisteredDisplayLists())
      ensures old(ReferencesRegistered(stackingContexts, displayLists)) ==> ReferencesRegistered(stackingContexts, displayLists)
      ensures old(AllRegistered(stackingContext.displayLists, RegisteredDisplayLists()))
              ==> AllRegistered(stackingContext.displayLists, RegisteredDisplayLists())
    {
      id := api.NextDisplayListId();
      stackingContext.displayLists := stackingContext.displayLists + [id];
      displayLists := displayLists + [(id, displayList)];
      assert RegisteredIds(displayLists) == RegisteredIds(old(displayLists)) + {id} by {
        assert displayLists[|displayLists| - 1].0 == id;
        forall d | d in RegisteredIds(old(displayLists))
          ensures d in RegisteredIds(displayLists)
        {
          var i :| 0 <= i < |old(displayLists)| && old(displayLists)[i].0 == d;
          assert displayLists[i].0 == d;
        }
      }
    }

    /**
      Hands out the next scroll-layer id of the root pipeline, at layer-tree
      depth 0, with the current serial, and advances the serial.
     */
    method NextScrollLayerId() returns (scrollLayerId: ScrollLayerId)
      modifies this
      ensures scrollLayerId == ScrollLayerId(rootPipelineId, 0, ServoScrollRootId(old(nextScrollLayerId)))
      ensures nextScrollLayerId == old(nextScrollLayerId) + 1
      ensures IssuedScrollLayers() == old(IssuedScrollLayers()) + [scrollLayerId]
      ensures scrollLayerId !in old(IssuedScrollLayers())
      ensures stackingContexts == old(stackingContexts)
      ensures displayLists == old(displayLists)
      ensures auxiliaryListsBuilder == old(auxiliaryListsBuilder)
      ensures rootPipelineId == old(rootPipelineId)
    {
      ghost var issued := IssuedScrollLayers();
      if nextScrollLayerId > 0 {
        IssuedScrollLayerIdAt(rootPipelineId, nextScrollLayerId, 0);
      }
      var serial := ServoScrollRootId(nextScrollLayerId);
      nextScrollLayerId := nextScrollLayerId + 1;
      scrollLayerId := ScrollLayerId(rootPipelineId, 0, serial);
      forall i | 0 <= i < |issued|
        ensures issued[i] != scrollLayerId
      {
        IssuedScrollLayerIdAt(rootPipelineId, nextScrollLayerId - 1, i);
      }
    }
  }
}
