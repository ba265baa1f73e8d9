/**
  The two decisions `run` makes that do not belong to the window system or
  the GPU backend: how it assembles and commits the root scene, and when its
  render loop stops.
 */
module Run {
  import opened Types
  import opened Api
  import opened FrameBuilder

  /** The pipeline `run` renders: PipelineId(0, 0). */
  const ROOT_PIPELINE := PipelineId(0, 0)

  /** The epoch the root scene is committed with; `run` commits exactly one scene. */
  const ROOT_EPOCH := Epoch(0)

  /** What is handed to the backend as one atomic root-scene update. */
  datatype RootScene = RootScene(
    rootStackingContextId: StackingContextId,
    epoch: Epoch,
    pipelineId: PipelineId,
    stackingContexts: seq<(StackingContextId, StackingContextValue)>,
    displayLists: seq<(DisplayListId, BuiltDisplayList)>)

  /**
    Builds the scene `run` commits: one scrollable stacking context at
    z-index 0 carrying the first scroll-layer id of the root pipeline, holding
    the one display list the drawable produced. The render API is created
    with id namespace `idNamespace`; the display list stands for whatever the
    drawable emitted.
   */
  method AssembleRootScene(idNamespace: nat, displayList: BuiltDisplayList) returns (scene: RootScene)
    ensures scene.pipelineId == ROOT_PIPELINE && scene.epoch == ROOT_EPOCH
    ensures |scene.stackingContexts| == 1 && |scene.displayLists| == 1
    ensures scene.stackingContexts[0].0 == scene.rootStackingContextId
    ensures scene.displayLists[0].1 == displayList
    ensures scene.stackingContexts[0].1 ==
            StackingContextValue(Some(ScrollLayerId(ROOT_PIPELINE, 0, ServoScrollRootId(0))),
                                 Scrollable, 0, [scene.displayLists[0].0])
    ensures ReferencesRegistered(scene.stackingContexts, scene.displayLists)
  {
    var api := new RenderApi(idNamespace);
    var frameBuilder := new WebRenderFrameBuilder(ROOT_PIPELINE);
    var rootScrollLayerId := frameBuilder.NextScrollLayerId();
    var sc := new StackingContext(Some(rootScrollLayerId), Scrollable, 0);
    var _ := frameBuilder.AddDisplayList(api, displayList, sc);
    assert AllRegistered(sc.displayLists, frameBuilder.RegisteredDisplayLists());
    var scId := frameBuilder.AddStackingContext(api, ROOT_PIPELINE, sc);
    scene := RootScene(scId, ROOT_EPOCH, ROOT_PIPELINE, frameBuilder.stackingContexts, frameBuilder.displayLists);
  }

  datatype ElementState = Pressed | Released

  newtype ScanCode = x: int | 0 <= x < 256

  /** The window events the render loop tells apart; all others are Other. */
  datatype Event = Closed | KeyboardInput(state: ElementState, scanCode: ScanCode) | Other

  /** The scan code whose key event, pressed or released, ends the loop. */
  const QUIT_SCAN_CODE: ScanCode := 9

  predicate EndsLoop(e: Event)
  {
    e.Closed? || (e.KeyboardInput? && e.scanCode == QUIT_SCAN_CODE)
  }

  /** The position of the first event that ends the loop, if there is one. */
  function FirstTermination(events: seq<Event>): (r: Option<nat>)
    ensures r.Some? ==> r.value < |events| && EndsLoop(events[r.value])
    ensures r.Some? ==> forall j :: 0 <= j < r.value ==> !EndsLoop(events[j])
    ensures r.None? ==> forall j :: 0 <= j < |events| ==> !EndsLoop(events[j])
  {
    if events == [] then None
    else if EndsLoop(events[0]) then Some(0)
    else match FirstTermination(events[1..])
      case None => None
      case Some(k) => Some(k + 1)
  }

  /** The backend and window calls of one loop iteration, in order. */
  datatype RenderCall = Clear | Update | Render | SwapBuffers

  const RENDER_PASS: seq<RenderCall> := [Clear, Update, Render, SwapBuffers]

  /** The calls `n` loop iterations make. */
  function RenderPasses(n: nat): (calls: seq<RenderCall>)
  {
    if n == 0 then [] else RenderPasses(n - 1) + RENDER_PASS
  }

  lemma {:induction false} RenderPassesLength(n: nat)
    ensures |RenderPasses(n)| == 4 * n
  {
    if n > 0 {
      RenderPassesLength(n - 1);
    }
  }

  /** The calls of `n` iterations are `n` complete passes, one after another. */
  lemma {:induction false} RenderPassAt(n: nat, p: nat, c: nat)
    requires p < n && c < 4
    ensures |RenderPasses(n)| == 4 * n
    ensures RenderPasses(n)[4 * p + c] == RENDER_PASS[c]
  {
    RenderPassesLength(n);
    if p < n - 1 {
      RenderPassAt(n - 1, p, c);
    } else {
      RenderPassesLength(n - 1);
    }
  }

  /**
    The render loop over the events the window delivers: every event is
    followed by one clear/update/render/swap pass, and only then is it
    checked; a Closed event or a key event with the quit scan code stops the
    loop. `terminated` tells a stop from running out of events.
   */
  method RunEventLoop(events: seq<Event>) returns (calls: seq<RenderCall>, terminated: bool)
    ensures terminated <==> FirstTermination(events).Some?
    ensures terminated ==> calls == RenderPasses(FirstTermination(events).value + 1)
    ensures !terminated ==> calls == RenderPasses(|events|)
  {
    calls := [];
    terminated := false;
    var i := 0;
    while i < |events|
      invariant 0 <= i <= |events|
      invariant forall j :: 0 <= j < i ==> !EndsLoop(events[j])
      invariant calls == RenderPasses(i)
    {
      calls := calls + RENDER_PASS;
      match events[i] {
        case Closed =>
          terminated := true;
          break;
        case KeyboardInput(_, scanCode) =>
          if scanCode == QUIT_SCAN_CODE {
            terminated := true;
            break;
          }
        case Other =>
      }
      i := i + 1;
    }
  }
}
