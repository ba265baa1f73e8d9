/**
  The identifier allocator of the render API. The real allocator lives in
  the backend's traits crate and is not part of this model; this class is a
  stand-in whose body is one possible implementation. Callers may rely only
  on the postconditions, and those are ASSUMPTIONS about the foreign
  allocator, not facts this model proves about it: every id handed out
  carries the API's namespace and a serial at or above a watermark that then
  moves past it, so ids of one kind are fresh and strictly increasing.
 */
module Api {
  import opened Types

  class RenderApi {
    /** The id namespace of this API instance. */
    const idNamespace: nat
    /** Every stacking-context serial handed out so far is below this watermark. */
    var stackingContextWatermark: nat
    /** Every display-list serial handed out so far is below this watermark. */
    var displayListWatermark: nat

    constructor (idNamespace: nat)
      ensures this.idNamespace == idNamespace
    {
      this.idNamespace := idNamespace;
      stackingContextWatermark := 0;
      displayListWatermark := 0;
    }

    method NextStackingContextId() returns (id: StackingContextId)
      modifies this
      // Assumed of the foreign allocator: a fresh id, above all earlier ones.
      ensures id.namespace == idNamespace
      ensures old(stackingContextWatermark) <= id.serial < stackingContextWatermark
      // Assumed of the foreign allocator: the other kind of id is not affected.
      ensures displayListWatermark == old(displayListWatermark)
    {
      id := StackingContextId(idNamespace, stackingContextWatermark);
      stackingContextWatermark := stackingContextWatermark + 1;
    }

    method NextDisplayListId() returns (id: DisplayListId)
      modifies this
      // Assumed of the foreign allocator: a fresh id, above all earlier ones.
      ensures id.namespace == idNamespace
      ensures old(displayListWatermark) <= id.serial < displayListWatermark
      // Assumed of the foreign allocator: the other kind of id is not affected.
      ensures stackingContextWatermark == old(stackingContextWatermark)
    {
      id := DisplayListId(idNamespace, displayListWatermark);
      displayListWatermark := displayListWatermark + 1;
    }
  }
}
