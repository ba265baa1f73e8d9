/**
  Value types the frame builder works with. They belong to the rendering
  backend's traits crate; only the parts the frame builder and the render
  loop look at are modelled, the rest (geometry, colours, transforms) is
  left out.
 */
module Types {

  datatype Option<T> = None | Some(value: T)

  /** An independent rendering pipeline: (namespace, serial). */
  datatype PipelineId = PipelineId(namespace: nat, serial: nat)

  /** Identifier of a registered stacking context, allocated by the render API. */
  datatype StackingContextId = StackingContextId(namespace: nat, serial: nat)

  /** Identifier of a registered display list, allocated by the render API. */
  datatype DisplayListId = DisplayListId(namespace: nat, serial: nat)

  /** The serial that identifies a scroll root within a pipeline. */
  datatype ServoScrollRootId = ServoScrollRootId(serial: nat)

  /** A scrollable region: its pipeline, its depth in the layer tree and its scroll root. */
  datatype ScrollLayerId = ScrollLayerId(pipelineId: PipelineId, index: nat, scrollRootId: ServoScrollRootId)

  /** Version tag of a scene submission. */
  datatype Epoch = Epoch(value: nat)

  datatype ScrollPolicy = Scrollable | Fixed

  /** A finalized display list; its encoded items are opaque to the frame builder. */
  datatype BuiltDisplayList = BuiltDisplayList(data: seq<bv8>)

  /** Side tables shared by display items; opaque to the frame builder. */
  datatype AuxiliaryListsBuilder = AuxiliaryListsBuilder(data: seq<bv8>)

  /**
    A stacking context as a value: what the frame builder keeps once the
    context has been moved into it. Bounds, transforms, blend mode and
    filters are floating-point or backend data and are not modelled.
   */
  datatype StackingContextValue = StackingContextValue(
    scrollLayerId: Option<ScrollLayerId>,
    scrollPolicy: ScrollPolicy,
    zIndex: int,
    displayLists: seq<DisplayListId>)
}
