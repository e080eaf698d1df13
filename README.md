# SimpleDeferredRenderer, modelled in Dafny

`THREE.SimpleDeferredRenderer` draws a Three.js scene in three passes:

1. A normal + depth g-buffer pass.
2. A color g-buffer pass that reuses the first pass's depth buffer.
3. A full-screen composite that samples the color g-buffer.

This project models the CPU-side orchestration of that renderer and proves what it promises. It has four parts:

- **Material derivation** (`Materials.dfy`):
  - `createDeferredMaterials` is a pure function from an authored material's optional fields to the uniforms of the derived color material and to the normal + depth clone of the shared template.
  - The loop of `initDeferredMaterials` that builds two parallel lists for a face material is a method with loop invariants.
- **The per-object cache** (`ObjectCache.dfy`):
  - A scene node is a class with the fields the renderer mutates: `material`, and the `userData` entries `deferredInitialized`, `normalDepthMaterial` and `colorMaterial`.
  - `initDeferredProperties`, `setNormalDepthMaterial`, `setColorMaterial` and `scene.traverse` are methods on it.
  - Each method is proved against a function on the node's state (`Initialized`, `Swapped`, `VisitAll`).
- **Render targets and composers** (`Targets.dfy`):
  - Three.js `WebGLRenderTarget` and `EffectComposer` are values.
  - Each target has an explicit `id`, so that "a new object" and "a link to that object" can be stated.
- **The renderer** (`Renderer.dfy`):
  - The constructor's closure state is the class `SimpleDeferredRenderer`, with methods for the constructor, `createRenderTargets`, `setScale`, `setSize` and `render`.
  - GPU work is recorded as an event trace: each step of `render` (a traversal, a GL state change, a composer's draw) is its own method, which appends its event when it runs.
  - The trace is replayed by `Draws`/`After`, which prove the order and the GL state of each draw.

The class invariant `Valid()` has two parts:

- the six targets have distinct ids and the right parameters, and the passes have the right flags;
- all composers have the scaled size, the color g-buffer shares the normal + depth target's depth buffer, and the composite samples the color g-buffer.

The constructor establishes it. `setScale` and `setSize` re-establish it from any state with the right structure, and `render` keeps it.

The model follows the code in three places where a casual reading would differ:

- the `additiveSpecular` uniform tests for the *presence* of `additiveSpecular` but takes its sign from `metal`;
- both g-buffers use the nearest-filtered float parameters;
- nothing validates the scale or the size.

## Model

| member | source | states |
|---|---|---|
| Materials.CreateDeferredMaterials | src/SimpleDeferredRenderer.js:78-128 | The color material's diffuse is the colour of a single material and black for a face material, whose colour becomes the emissive term. Missing emissive and specular become black, and missing shininess becomes 1. wrapAround is -1 exactly when the flag is defined and truthy, and 1 otherwise. additiveSpecular is 1 exactly when additiveSpecular is defined and metal is truthy, and -1 otherwise. vertexColors and shading are copied. The normal + depth material is the no-blending template with the source's vertexColors. |
| Materials.DeferredFor | src/SimpleDeferredRenderer.js:54-74 | A single material gets its pair stored directly. A face material with n sub-materials gets two face lists of length n, whose entry i is the pair of sub-material i, in order. |
| Materials.DeferredLists | src/SimpleDeferredRenderer.js:56-64 | The push loop builds two lists as long as the sub-material list, entry i coming from createDeferredMaterials of sub-material i. |
| Materials.OnlyColorTakesDefaults | src/SimpleDeferredRenderer.js:94-105 | A material that defines only its colour gets black emissive and specular, shininess 1, wrapAround 1 and additiveSpecular -1. |
| Materials.FaceTintBecomesEmissive | src/SimpleDeferredRenderer.js:97-100 | A face material passed to the factory directly has a black diffuse and its colour as emissive. |
| Materials.AdditiveSpecularReadsPresenceAndMetal | src/SimpleDeferredRenderer.js:105 | The derived materials do not depend on the value of additiveSpecular, only on its presence. Without it, they do not depend on metal. |
| DeferredCache.Initialized | src/SimpleDeferredRenderer.js:130-138 | An initialized object is returned unchanged. Otherwise the flag is set even without a material, and the cache is filled with the derived pair exactly when the object has a material. The active material is never touched. |
| DeferredCache.Swapped | src/SimpleDeferredRenderer.js:142-152 | An object with a material gets the cached variant, and `undefined` if the cache is empty. An object without one is left as it is. The flag and the cache never change. |
| DeferredCache.InitDeferredMaterials | src/SimpleDeferredRenderer.js:52-76 | Stores the pair DeferredFor gives for the object's material into userData, using the list loop for a face material. The material and the flag are unchanged. |
| DeferredCache.InitDeferredProperties | src/SimpleDeferredRenderer.js:130-138 | The object's new state is Initialized of its old state, and it stays well formed. |
| DeferredCache.SetNormalDepthMaterial | src/SimpleDeferredRenderer.js:142-146 | The new state is Swapped with the cached normal + depth material. |
| DeferredCache.SetColorMaterial | src/SimpleDeferredRenderer.js:148-152 | The new state is Swapped with the cached color material. |
| DeferredCache.Traverse | src/SimpleDeferredRenderer.js:193 | After `scene.traverse(callback)` over distinct nodes, every node's state is the callback applied to its old state. |
| DeferredCache.InitializeTwice | src/SimpleDeferredRenderer.js:132 | initDeferredProperties is idempotent. |
| DeferredCache.FirstFrameOfAuthoredObject | src/SimpleDeferredRenderer.js:193-204 | In its first frame, a node with an authored material is drawn with the normal + depth variant after the second traversal and with the color variant after the third. |
| DeferredCache.SecondFrameChangesNothing | src/SimpleDeferredRenderer.js:132-152 | The three traversals of a second frame leave every node as the first frame did. |
| DeferredCache.LateMaterialIsDropped | src/SimpleDeferredRenderer.js:132-145 | A node initialized without a material that is later given one is never re-initialized. The material swap replaces that material by `undefined`. |
| RenderTargets.NewRenderTarget | src/SimpleDeferredRenderer.js:233-235 | A new target has the requested size and parameters under its own id, mipmaps on (as Three.js creates it) and no shared depth buffer. |
| RenderTargets.Clone | src/SimpleDeferredRenderer.js:245 | A clone is a new object with every property of the original, its depth link and mipmap flag included. |
| RenderTargets.NewComposer | src/SimpleDeferredRenderer.js:245-264 | A composer keeps the target it was given as its first target. Its second target is a copy of it under a new identity. |
| RenderTargets.Resized | src/SimpleDeferredRenderer.js:163-165 | setSize replaces both targets by new objects of the requested size. They keep the first target's parameters and mipmap flag, and the first target's depth link (none in a consistent renderer). |
| DeferredRenderer.ShareDepth | src/SimpleDeferredRenderer.js:167 | Only the second target's depth link changes, and it now names the given target. |
| DeferredRenderer.ScaledSizeIsFloor | src/SimpleDeferredRenderer.js:10-11 | The scaled size is the largest integer not above scale × pixels. |
| DeferredRenderer.HalfScaleOfDefaults | src/SimpleDeferredRenderer.js:6-11 | At scale 0.5 the default 800 × 600 canvas gives 400 × 300 targets. |
| DeferredRenderer.FrameStates | src/SimpleDeferredRenderer.js:193-204 | After one frame, every node is in the state its three traversals take it to. |
| DeferredRenderer.FrameDraws | src/SimpleDeferredRenderer.js:193-209 | Per node: without a material, neither draw shows a material. With one, the normal + depth draw shows the cached normal + depth material of the initialized node and the color draw its cached color material. |
| DeferredRenderer.DrawsAppend | src/SimpleDeferredRenderer.js:183-216 | Replaying a trace in two parts gives its draws in order; the second part starts from the state the first leaves. |
| DeferredRenderer.NormalDepthOrder | src/SimpleDeferredRenderer.js:193-201 | Stage 1 draws exactly once, after the init and normal + depth traversals, with autoClearDepth on. |
| DeferredRenderer.ColorOrder | src/SimpleDeferredRenderer.js:204-209 | Stage 2 draws exactly once, after the color traversal, with autoClearDepth on. |
| DeferredRenderer.CompositeOrder | src/SimpleDeferredRenderer.js:211-214 | The composite draws exactly once, with autoClearDepth on and the depth test LEQUAL. |
| DeferredRenderer.FrameOrder | src/SimpleDeferredRenderer.js:183-216 | From any GL state, a frame makes exactly three draws: normal + depth, then color, then the composite. Each happens after the traversals it depends on and with the depth buffer cleared. The composite uses LEQUAL. The frame ends with depth clearing on and the depth test LEQUAL, the values render leaves on the renderer. |
| DeferredRenderer.LinksAvoidFeedback | src/SimpleDeferredRenderer.js:255-259 | In a consistent renderer, the composite samples a target that is neither of the final composer's own targets (the composite pass itself draws to the screen). The color g-buffer borrows the depth buffer of a different target of the same size. |
| DeferredRenderer.CreatedTargetsConsistent | src/SimpleDeferredRenderer.js:220-269 | The targets and passes createRenderTargets builds satisfy the class invariant. |
| DeferredRenderer.ResizedTargetsConsistent | src/SimpleDeferredRenderer.js:156-171 | The three composers are resized to one size, and their six new targets are numbered from the renderer's next free id and re-linked. This restores the whole invariant and moves the next free id past the new targets. |
| DeferredRenderer.SimpleDeferredRenderer.constructor | src/SimpleDeferredRenderer.js:5-30 | The defaults are 800 × 600 at scale 1, and the scaled size is floor(scale × pixels). A given renderer is used as is. Otherwise a new WebGLRenderer gets the pixel size, a transparent black clear colour and autoClear off. The camera is null, and createRenderTargets establishes the invariant. |
| DeferredRenderer.SimpleDeferredRenderer.CreateRenderTargets | src/SimpleDeferredRenderer.js:220-269 | Three float/float/byte targets at the scaled size without mipmaps, a composer and a clearing pass for each, the depth link and the sampler link. |
| DeferredRenderer.SimpleDeferredRenderer.SetScale | src/SimpleDeferredRenderer.js:156-171 | Records the scale. All three composers then have size floor(scale × pixelWidth) × floor(scale × pixelHeight) and are re-linked. The composite pass keeps its flags. |
| DeferredRenderer.SimpleDeferredRenderer.ResizeComposers | src/SimpleDeferredRenderer.js:163-169 | The three composers are resized to the scaled size with new targets, and both links are re-established. |
| DeferredRenderer.SimpleDeferredRenderer.SetSize | src/SimpleDeferredRenderer.js:173-181 | Records the pixel size and resizes the WebGLRenderer. The scale is kept and setScale's guarantees follow. The camera, the trace and both geometry passes are unchanged. |
| DeferredRenderer.SimpleDeferredRenderer.BindPasses | src/SimpleDeferredRenderer.js:185-191 | Both geometry passes now draw the given scene through the given camera. Nothing else about them changes. |
| DeferredRenderer.SimpleDeferredRenderer.Render | src/SimpleDeferredRenderer.js:183-216 | Render binds the passes, and the nodes end in FrameStates. The renderer ends with autoClearDepth on and the depth test LEQUAL. Each step appends its event as it runs, and the trace grows by exactly one frame's events for the nodes' states before the call. The invariant is kept. |
| DeferredRenderer.SimpleDeferredRenderer.DrawGeometry | src/SimpleDeferredRenderer.js:193-209 | The two geometry stages. The first draw sees the nodes after initialization and the normal + depth swap, and the second after the color swap. The trace grows by both stages' events. |
| DeferredRenderer.SimpleDeferredRenderer.DrawNormalDepth | src/SimpleDeferredRenderer.js:193-201 | The init traversal, the normal + depth traversal, the depth clear, then the normal + depth composer's draw of the swapped scene, in that order. |
| DeferredRenderer.SimpleDeferredRenderer.DrawColor | src/SimpleDeferredRenderer.js:204-209 | The color traversal, the depth clear, then the color composer's draw of the swapped scene, in that order. |
| DeferredRenderer.SimpleDeferredRenderer.DrawComposite | src/SimpleDeferredRenderer.js:211-214 | The depth clear, the LEQUAL depth test, then the composite draw, in that order. |
| DeferredRenderer.SimpleDeferredRenderer.RecordedTraverse | src/SimpleDeferredRenderer.js:193 | Every node is visited by the callback, and the traversal is recorded. |
| DeferredRenderer.SimpleDeferredRenderer.SetAutoClearDepth | src/SimpleDeferredRenderer.js:199 | The renderer clears depth from now on, and the change is recorded. |
| DeferredRenderer.SimpleDeferredRenderer.SetDepthFunc | src/SimpleDeferredRenderer.js:212 | The renderer's depth test becomes the given function, and the change is recorded. |
| DeferredRenderer.SimpleDeferredRenderer.RenderGeometry | src/SimpleDeferredRenderer.js:201 | A geometry composer draws its pass's scene through its pass's camera, each node with the material it holds at that moment. |
| DeferredRenderer.SimpleDeferredRenderer.RenderComposite | src/SimpleDeferredRenderer.js:214 | The composite draws, sampling the target named by the final pass's sampler. |
| DeferredRenderer.NewWebGLRenderer | src/SimpleDeferredRenderer.js:17 | A fresh WebGLRenderer clears automatically, clears depth, and tests depth with LEQUAL. |

## Left out

- The shaders in `src/Shader_SimpleDeferredRenderer.js` are GLSL source and uniform tables for the GPU, so they are not part of this model.
- `copyGammaToLinear` and all colour arithmetic are float colour conversions inside Three.js. They are the uninterpreted parameter `toLinear`.
- Three.js internals are values with explicit ids. This covers `EffectComposer`, `RenderPass`, `ShaderPass`, `WebGLRenderTarget`, `ShaderMaterial.clone` and the scene graph. The following library behaviour is assumed, not derived from the renderer's code, and the invariant proofs rely on it:
  - RenderTargets.NewRenderTarget: a new `WebGLRenderTarget` has mipmaps on and no shared depth buffer.
  - RenderTargets.Clone: `clone()` copies every property, `shareDepthFrom` and `generateMipmaps` included, into a new object.
  - RenderTargets.NewComposer: `new EffectComposer(renderer, target)` keeps `target` as `renderTarget1` and makes `renderTarget2` a clone of it.
  - RenderTargets.Resized: `EffectComposer.setSize` replaces both targets by resized clones of `renderTarget1`.
  - DeferredRenderer.NewWebGLRenderer: a new `WebGLRenderer` is 300 × 150, clears automatically, clears depth and tests depth with LEQUAL.
  - Derived materials are values without identity, so "initialization happens once" is stated as equality of the stored values, not as the same material objects being kept.
  - The scene is a sequence of distinct nodes, meaning a traversal visits each node once.
  - `addPass` is implied by which pass belongs to which composer.
  - `domElement` and `renderer.context` are not modelled.
- GPU work is recorded as events only: the composers' `render()`, `gl.depthFunc`, and drawing to the screen. The `0.1` delta passed to the final composer is dropped.
- The renderer is a value, so a renderer the caller passes in is copied, not shared with the caller.
- `rtParamsFloatLinear` is declared in `createRenderTargets` but no target uses it. It is kept as the constant `RtParamsFloatLinear` only.
- `material.color` is always present. Without it `copyGammaToLinear(undefined)` would throw inside Three.js, which is not modelled.
- DeferredCache.InitDeferredMaterials requires an object that still carries its authored material, which is the only way `initDeferredProperties` calls it.
- DeferredRenderer.SimpleDeferredRenderer.Valid does not include `scaledWidth == floor(currentScale * pixelWidth)`. The constructor, SetScale and SetSize ensure that equality instead, because keeping real `floor` in the invariant makes every proof about the renderer too costly.
- DeferredRenderer.SimpleDeferredRenderer.SetScale and SetSize require only the structural half of the invariant: six ordered ids, the parameters and the pass flags. They do not require the sizes or links, which they re-establish.
- DeferredCache.SceneObject.constructor and DeferredCache.SceneObject.SetMaterial stand for the host creating a node and assigning a material. They are not renderer code.
