# wrender scene assembly, in Dafny

A model of the scene-assembly core of `wrender`, a minimal front end for the
WebRender GPU display-list renderer. The model covers two parts.

- `WebRenderFrameBuilder` is the single-owner record that collects one scene. It holds:
  - the registered stacking contexts, as (id, context) pairs;
  - the registered display lists, as (id, list) pairs;
  - the root pipeline id;
  - the serial counter that scroll-layer ids are made from.
- The parts of `run` that are not windowing or GPU calls:
  - how it assembles the root scene it commits;
  - the rule that ends its render loop.

Files:

- `types.dfy` (module `Types`): the id and value types the builder handles. A
  stacking context that has been moved into the builder is the value
  `StackingContextValue`. Display lists and auxiliary lists are opaque bytes.
- `render_api.dfy` (module `Api`): `RenderApi`, a stand-in for the backend's
  id allocator. Its body is one possible implementation. Its postconditions
  are the assumptions the model makes about the real allocator:
  - each id carries the API's namespace;
  - each id's serial is at or above a watermark, and the watermark then moves past it;
  - allocating one kind of id leaves the other kind's watermark alone.
- `frame_builder.dfy` (module `FrameBuilder`): two classes.
  - `StackingContext` is a class because `add_display_list` appends to its
    child list through a mutable reference.
  - `WebRenderFrameBuilder` is a class whose methods append to its `seq` fields
    and advance its counter.
  - `add_stacking_context` takes the context by value (a Rust move). So the
    builder stores the context's value at the time of the call. A ghost flag
    `moved` on the context records the move: once it is set, neither
    `AddDisplayList` nor a second `AddStackingContext` may be called on that
    context, just as the borrow checker forbids it.
  - The stacking context's constructor stands for a foreign one. Its contract
    is assumed: it keeps the attributes passed in and starts with an empty
    child list.
- `run.dfy` (module `Run`):
  - the scene assembly of `run`, with a fresh API and a fresh builder;
  - the render loop over an abstract sequence of window events. Each event
    produces one clear/update/render/swap pass, and only then is the event
    checked. `Closed`, or a keyboard event with scan code 9, stops the loop.
    The key check ignores whether the key was pressed or released, so a
    release of key 9 also stops the loop.

The ids the builder holds stay strictly increasing, and so distinct. This is
the predicate `AllocatedBy(api)`, which `AddStackingContext` and
`AddDisplayList` preserve. It rests on the allocator assumptions above and
nowhere else.

Three facts about the code shape what the model can promise.

- Nothing in the code checks that a stacking context's display-list
  references name display lists registered in the same builder. The model
  states this as `ReferencesRegistered`. The builder methods preserve it when
  the caller keeps it, and the scene `run` assembles is proved to satisfy it.
- `run` commits a single scene with the constant `Epoch(0)`, so there is no
  epoch logic.
- The stacking-context and display-list ids are distinct and increasing only
  under the allocator assumption.

## Model

| member | source | states |
|---|---|---|
| `FrameBuilder.WebRenderFrameBuilder.constructor` | src/lib.rs:36-44 | a new builder has no stacking contexts, no display lists and a fresh auxiliary-list builder; it keeps the given root pipeline id; its scroll-layer counter starts at 0, so it has handed out no scroll-layer id |
| `FrameBuilder.WebRenderFrameBuilder.AddStackingContext` | src/lib.rs:46-55 | callable only with the root pipeline id (a mismatch is a fatal assertion) and a context not already moved, which it marks as moved; appends exactly one pair, (the id obtained from the allocator, the moved context), at the end; returns that id; display lists, root pipeline and counter unchanged; keeps ids allocated-by-the-API and increasing, so under the allocator assumption the new id differs from every earlier stacking-context id; keeps every context's references registered when the new context's references are registered |
| `FrameBuilder.WebRenderFrameBuilder.AddDisplayList` | src/lib.rs:57-66 | takes a context that has not been moved; obtains one id; appends it to the end of the given context's child list; appends (id, list) to the end of the builder's display lists and returns the id; earlier entries untouched, so after k calls the builder holds k pairs in call order; stacking contexts, root pipeline and counter unchanged; under the allocator assumption the id was not registered before and ids stay increasing; keeps references registered |
| `FrameBuilder.WebRenderFrameBuilder.NextScrollLayerId` | src/lib.rs:68-72 | returns the scroll-layer id of the root pipeline at depth 0 with the old counter as its scroll-root serial; the counter goes up by exactly 1; the id is appended to the ids handed out so far and differs from all of them; nothing else changes |
| `FrameBuilder.IssuedScrollLayerIdAt` | src/lib.rs:68-72 | starting from a new builder, the i-th of n calls hands out serial i; in particular the first call hands out serial 0 |
| `FrameBuilder.IssuedScrollLayerIdsDistinct` | src/lib.rs:68-72 | n calls on one builder hand out n pairwise distinct scroll-layer ids |
| `FrameBuilder.StackingContext.constructor` | src/lib.rs:128-138 | assumption about the foreign constructor: a new stacking context keeps its scroll-layer id, scroll policy and z-index, and has no display lists yet; it is not yet moved |
| `Api.RenderApi.NextStackingContextId` | src/lib.rs:52 | assumption about the foreign allocator: the stacking-context id is in the API's namespace, fresh, and above every earlier one |
| `Api.RenderApi.NextDisplayListId` | src/lib.rs:62 | assumption about the foreign allocator: the display-list id is in the API's namespace, fresh, and above every earlier one |
| `Run.AssembleRootScene` | src/lib.rs:122-157 | the committed root scene is for pipeline (0, 0) with epoch 0; it has exactly one stacking context and one display list; the context is the root context; it is scrollable at z-index 0 with the first scroll-layer id (serial 0) of the root pipeline; its child list is exactly the one registered display list, which is the drawable's list; every reference is registered |
| `Run.FirstTermination` | src/lib.rs:167-175 | finds the first Closed event or key event with scan code 9: when found, no earlier event ends the loop; when none is found, no event ends the loop |
| `Run.RenderPassesLength` | src/lib.rs:159-165 | n iterations make exactly 4n calls |
| `Run.RenderPassAt` | src/lib.rs:159-165 | the calls of n iterations are n complete clear/update/render/swap passes in that order |
| `Run.RunEventLoop` | src/lib.rs:159-176 | the loop stops exactly when some event ends it; the number of render passes is then the index of the first such event plus one, and no pass comes after it; with no such event, every event gets one pass |

## Left out

- Window creation, GL setup, `gl::clear`, `swap_buffers` and `wait_events` (src/lib.rs:88-100, 159-165). These are windowing and graphics I/O. The loop sees the events as a sequence, and its calls appear only as a trace of `RenderCall`s.
- The `webrender::Renderer` and its options, `set_render_notifier`, `renderer.update` and `renderer.render` (src/lib.rs:102-120, 161-163). These are foreign backend calls.
- `set_root_stacking_context` and `set_root_pipeline` (src/lib.rs:147-157). `Run.AssembleRootScene` returns the scene it would submit. The background colour and viewport size are floating point and are not part of it.
- `Notifier` and its `RenderNotifier` impl (src/lib.rs:17-25, 75-85). Its only job is a cross-thread wakeup of the event loop.
- `Rect`, `as_euclid_rect` and `AsDisplayItem` (src/lib.rs:179-201). These are f32 geometry and a call into the external `DisplayListBuilder`. The display list the drawable produces is a parameter.
- `AuxiliaryListsBuilder` and `finalize` (src/lib.rs:30, 40, 138, 154-155). This is an external type with no visible logic. It is kept as an opaque field of the builder. The foreign stacking-context constructor receives it mutably (src/lib.rs:138); the model assumes that call leaves it unchanged. The committed `RootScene` does not carry the finalized auxiliary lists.
- Stacking-context bounds, transforms, perspective, 3D flag, blend mode and filters (src/lib.rs:128-138). These are floating-point or backend data.
- The virtual key code of keyboard events. The loop does not look at it.
- `Api.RenderApi.NextStackingContextId`: the real allocator is not part of this model. Its freshness and ordering are assumptions. Its 32-bit id fields are unbounded here.
- `Api.RenderApi.NextDisplayListId`: the real allocator is not part of this model. Its freshness and ordering are assumptions. Its 32-bit id fields are unbounded here.
- `FrameBuilder.WebRenderFrameBuilder.NextScrollLayerId`: the counter is an unbounded `nat`. The `usize` increment (src/lib.rs:70) would panic in a debug build, or wrap in a release build, after `usize::MAX` + 1 calls, and distinctness then fails. That many calls is out of reach in practice.
