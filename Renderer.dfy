/**
 * THREE.SimpleDeferredRenderer: the renderer's closure state, the resize
 * bookkeeping that keeps its three composers the same size and re-links the
 * shared depth buffer and the composite sampler, and the strictly ordered
 * frame. Draw submissions and GL state changes are recorded as events of an
 * abstract trace; what the GPU does with them is not modelled.
 */
module DeferredRenderer {
  import opened Wrappers
  import opened Materials
  import opened DeferredCache
  import opened RenderTargets

  /** The WebGL depth comparison functions. */
  datatype DepthFunction = Never | Less | Equal | LessEqual | Greater | NotEqual | GreaterEqual | Always

  /** The wrapped THREE.WebGLRenderer and its GL context, as far as the renderer touches them. */
  datatype GLRenderer = GLRenderer(
    width: real,
    height: real,
    clearColor: int,
    clearAlpha: real,
    autoClear: bool,
    autoClearDepth: bool,
    depthFunc: DepthFunction)

  /** A scene camera; only its identity matters here. */
  class Camera {
    constructor () { }
  }

  /** A THREE.RenderPass: draws `scene` through `camera`. */
  datatype RenderPass = RenderPass(scene: seq<SceneObject>, camera: Camera?, clear: bool)

  /** The THREE.ShaderPass of the "passThrough" shader; `sampler` is its one uniform, the id of the target it samples. */
  datatype ShaderPass = ShaderPass(sampler: Option<nat>, blending: Blending, clear: bool, renderToScreen: bool)

  /** The two geometry passes, each drawing the scene into its g-buffer. */
  datatype Stage = NormalDepthStage | ColorStage

  datatype Event =
    | Traversal(visitor: Visitor)                     // scene.traverse with one of the three callbacks
    | AutoClearDepthSet(on: bool)                     // renderer.autoClearDepth = on
    | DepthFuncSet(func: DepthFunction)               // gl.depthFunc(func)
    | SceneRendered(stage: Stage, camera: Camera?, materials: seq<Option<Slot>>)
                                                      // a geometry composer draws, through the pass camera, every node with its active material
    | CompositeRendered(sampler: Option<nat>)         // the final composer draws its full-screen quad, sampling target `sampler`

  /** The constructor's `parameters`: each field may be undefined. */
  datatype Parameters = Parameters(width: Option<real>, height: Option<real>, scale: Option<real>, renderer: Option<GLRenderer>)

  /** `Math.floor(scale * pixels)`, in exact arithmetic. */
  function ScaledSize(scale: real, pixels: real): (size: int)
  {
    (scale * pixels).Floor
  }

  /** The scaled size is the largest whole number not above scale * pixels. */
  lemma ScaledSizeIsFloor(scale: real, pixels: real)
    ensures ScaledSize(scale, pixels) as real <= scale * pixels < ScaledSize(scale, pixels) as real + 1.0
  {
  }

  /** The defaults at half scale: an 800 x 600 canvas renders into 400 x 300 g-buffers. */
  lemma HalfScaleOfDefaults()
    ensures ScaledSize(0.5, 800.0) == 400 && ScaledSize(0.5, 600.0) == 300
  {
    ScaledSizeIsFloor(0.5, 800.0);
    ScaledSizeIsFloor(0.5, 600.0);
  }

  /**
   * The events of one frame, given what the two geometry passes draw: the
   * three traversals, the depth-buffer clears, the normal + depth draw, the
   * color draw, the LEQUAL depth test and the composite.
   */
  function FrameEvents(camera: Camera?, normalDepthDraw: seq<Option<Slot>>, colorDraw: seq<Option<Slot>>, sampler: Option<nat>): (events: seq<Event>)
  {
    NormalDepthEvents(camera, normalDepthDraw) + ColorEvents(camera, colorDraw) + CompositeEvents(sampler)
  }

  /** Stage 1: initialize the scene, swap in the normal + depth materials, clear depth and draw into the first g-buffer. */
  function NormalDepthEvents(camera: Camera?, draw: seq<Option<Slot>>): (events: seq<Event>) {
    [ Traversal(InitDeferredPropertiesVisitor),
      Traversal(SetNormalDepthMaterialVisitor),
      AutoClearDepthSet(true),
      SceneRendered(NormalDepthStage, camera, draw) ]
  }

  /** Stage 2: swap in the color materials, clear depth and draw into the second g-buffer. */
  function ColorEvents(camera: Camera?, draw: seq<Option<Slot>>): (events: seq<Event>) {
    [ Traversal(SetColorMaterialVisitor),
      AutoClearDepthSet(true),
      SceneRendered(ColorStage, camera, draw) ]
  }

  /** Stage 3: clear depth, set the depth test to LEQUAL and composite. */
  function CompositeEvents(sampler: Option<nat>): (events: seq<Event>) {
    [ AutoClearDepthSet(true),
      DepthFuncSet(LessEqual),
      CompositeRendered(sampler) ]
  }

  /** The node states the normal + depth pass draws, given the states before the frame. */
  function NormalDepthStates(states: seq<ObjState>, toLinear: Color -> Color): (r: seq<ObjState>)
    requires AllWellFormed(states)
    ensures AllWellFormed(r)
  {
    VisitAll(SetNormalDepthMaterialVisitor, VisitAll(InitDeferredPropertiesVisitor, states, toLinear), toLinear)
  }

  /** The events one call of render appends, given the node states before it. */
  function FrameTrace(states: seq<ObjState>, camera: Camera?, sampler: Option<nat>, toLinear: Color -> Color): (events: seq<Event>)
    requires AllWellFormed(states)
  {
    var normalDepth := NormalDepthStates(states, toLinear);
    FrameEvents(camera, ActiveMaterials(normalDepth), ActiveMaterials(VisitAll(SetColorMaterialVisitor, normalDepth, toLinear)), sampler)
  }

  /** The node states after one call of render. */
  function FrameStates(states: seq<ObjState>, toLinear: Color -> Color): (r: seq<ObjState>)
    requires AllWellFormed(states)
    ensures |r| == |states| && AllWellFormed(r)
    ensures forall i :: 0 <= i < |states| ==> r[i] == AfterFrame(states[i], toLinear)
  {
    VisitAll(SetColorMaterialVisitor, NormalDepthStates(states, toLinear), toLinear)
  }

  /**
   * What the two draws of a frame show of each node: nothing for a node
   * without a material; otherwise the normal + depth draw shows the cached
   * normal + depth material and the color draw the cached color material,
   * the cache being filled on the node's first frame.
   */
  lemma FrameDraws(states: seq<ObjState>, toLinear: Color -> Color)
    requires AllWellFormed(states)
    ensures forall i :: 0 <= i < |states| && states[i].material.None? ==>
      ActiveMaterials(NormalDepthStates(states, toLinear))[i].None? && ActiveMaterials(FrameStates(states, toLinear))[i].None?
    ensures forall i :: 0 <= i < |states| && states[i].material.Some? ==>
      ActiveMaterials(NormalDepthStates(states, toLinear))[i] == AsSlot(Initialized(states[i], toLinear).normalDepthMaterial) &&
      ActiveMaterials(FrameStates(states, toLinear))[i] == AsSlot(Initialized(states[i], toLinear).colorMaterial)
  {
    var initialized := VisitAll(InitDeferredPropertiesVisitor, states, toLinear);
    VisitAllVisitsEach(InitDeferredPropertiesVisitor, states, toLinear);
    VisitAllVisitsEach(SetNormalDepthMaterialVisitor, initialized, toLinear);
    VisitAllVisitsEach(SetColorMaterialVisitor, NormalDepthStates(states, toLinear), toLinear);
  }

  /** The GL state the trace has set so far, and the traversals done so far. */
  datatype GLState = GLState(autoClearDepth: Option<bool>, depthFunc: Option<DepthFunction>, traversals: seq<Visitor>)

  /** A draw of the trace, with the GL state it was issued in. */
  datatype Draw = Draw(event: Event, state: GLState)

  /** The effect of one event on the GL state and the traversal record. */
  function Step(e: Event, s: GLState): (next: GLState) {
    match e
    case Traversal(v) => s.(traversals := s.traversals + [v])
    case AutoClearDepthSet(on) => s.(autoClearDepth := Some(on))
    case DepthFuncSet(f) => s.(depthFunc := Some(f))
    case SceneRendered(_, _, _) => s
    case CompositeRendered(_) => s
  }

  /** The events that submit a draw. */
  predicate IsDraw(e: Event) {
    e.SceneRendered? || e.CompositeRendered?
  }

  /** The state after `t`, starting from `s`. */
  function After(t: seq<Event>, s: GLState): (last: GLState)
    decreases |t|
  {
    if t == [] then s else After(t[1..], Step(t[0], s))
  }

  /** The draws of `t`, in order, each with the state it was issued in, starting from `s`. */
  function Draws(t: seq<Event>, s: GLState): (r: seq<Draw>)
    ensures |r| <= |t|
    decreases |t|
  {
    if t == [] then []
    else (if IsDraw(t[0]) then [Draw(t[0], s)] else []) + Draws(t[1..], Step(t[0], s))
  }

  /** Replaying a trace in two parts: the draws of `a + b` are those of `a`, then those of `b` from where `a` left off. */
  lemma {:induction false} DrawsAppend(a: seq<Event>, b: seq<Event>, s: GLState)
    ensures Draws(a + b, s) == Draws(a, s) + Draws(b, After(a, s))
    ensures After(a + b, s) == After(b, After(a, s))
    decreases |a|
  {
    if a == [] {
      assert a + b == b;
    } else {
      assert (a + b)[0] == a[0] && (a + b)[1..] == a[1..] + b;
      DrawsAppend(a[1..], b, Step(a[0], s));
    }
  }

  /** One event of a trace replayed on its own. */
  lemma DrawsAt(t: seq<Event>, k: nat, s: GLState)
    requires k < |t|
    ensures Draws(t[k..], s) == (if IsDraw(t[k]) then [Draw(t[k], s)] else []) + Draws(t[k + 1..], Step(t[k], s))
    ensures After(t[k..], s) == After(t[k + 1..], Step(t[k], s))
  {
    assert t[k..][0] == t[k] && t[k..][1..] == t[k + 1..];
  }

  /** Stage 1 draws once, after both traversals and with the depth buffer cleared. */
  lemma NormalDepthOrder(camera: Camera?, draw: seq<Option<Slot>>, s: GLState)
    ensures var after := GLState(Some(true), s.depthFunc, s.traversals + [InitDeferredPropertiesVisitor, SetNormalDepthMaterialVisitor]);
      Draws(NormalDepthEvents(camera, draw), s) == [Draw(SceneRendered(NormalDepthStage, camera, draw), after)] &&
      After(NormalDepthEvents(camera, draw), s) == after
  {
    var t := NormalDepthEvents(camera, draw);
    var s1 := Step(t[0], s);
    var s2 := Step(t[1], s1);
    var s3 := Step(t[2], s2);
    assert s.traversals + [InitDeferredPropertiesVisitor] + [SetNormalDepthMaterialVisitor] ==
      s.traversals + [InitDeferredPropertiesVisitor, SetNormalDepthMaterialVisitor];
    DrawsAt(t, 3, s3);
    assert t[4..] == [];
    DrawsAt(t, 2, s2);
    DrawsAt(t, 1, s1);
    DrawsAt(t, 0, s);
    assert t[0..] == t;
  }

  /** Stage 2 draws once, after the color traversal and with the depth buffer cleared. */
  lemma ColorOrder(camera: Camera?, draw: seq<Option<Slot>>, s: GLState)
    ensures var after := GLState(Some(true), s.depthFunc, s.traversals + [SetColorMaterialVisitor]);
      Draws(ColorEvents(camera, draw), s) == [Draw(SceneRendered(ColorStage, camera, draw), after)] &&
      After(ColorEvents(camera, draw), s) == after
  {
    var t := ColorEvents(camera, draw);
    var s1 := Step(t[0], s);
    var s2 := Step(t[1], s1);
    DrawsAt(t, 2, s2);
    assert t[3..] == [];
    DrawsAt(t, 1, s1);
    DrawsAt(t, 0, s);
    assert t[0..] == t;
  }

  /** Stage 3 draws once, with the depth buffer cleared and the depth test LEQUAL. */
  lemma CompositeOrder(sampler: Option<nat>, s: GLState)
    ensures var after := GLState(Some(true), Some(LessEqual), s.traversals);
      Draws(CompositeEvents(sampler), s) == [Draw(CompositeRendered(sampler), after)] &&
      After(CompositeEvents(sampler), s) == after
  {
    var t := CompositeEvents(sampler);
    var s1 := Step(t[0], s);
    var s2 := Step(t[1], s1);
    DrawsAt(t, 2, s2);
    assert t[3..] == [];
    DrawsAt(t, 1, s1);
    DrawsAt(t, 0, s);
    assert t[0..] == t;
  }

  /**
   * The order render promises. From any GL state, one frame makes exactly
   * three draws: the normal + depth draw after the initialization and the
   * normal + depth swap, the color draw after the color swap, and the
   * composite last; each with the depth buffer cleared, the composite with
   * the depth test set to LEQUAL. The geometry draws keep whatever depth test
   * was set before the frame. The frame leaves depth clearing on and the
   * depth test LEQUAL, the two settings render also leaves on the renderer.
   */
  lemma FrameOrder(camera: Camera?, normalDepthDraw: seq<Option<Slot>>, colorDraw: seq<Option<Slot>>, sampler: Option<nat>, s: GLState)
    ensures var initialized := s.traversals + [InitDeferredPropertiesVisitor, SetNormalDepthMaterialVisitor];
      var swapped := initialized + [SetColorMaterialVisitor];
      Draws(FrameEvents(camera, normalDepthDraw, colorDraw, sampler), s) ==
        [ Draw(SceneRendered(NormalDepthStage, camera, normalDepthDraw), GLState(Some(true), s.depthFunc, initialized)),
          Draw(SceneRendered(ColorStage, camera, colorDraw), GLState(Some(true), s.depthFunc, swapped)),
          Draw(CompositeRendered(sampler), GLState(Some(true), Some(LessEqual), swapped)) ] &&
      After(FrameEvents(camera, normalDepthDraw, colorDraw, sampler), s) == GLState(Some(true), Some(LessEqual), swapped)
  {
    var initialized := s.traversals + [InitDeferredPropertiesVisitor, SetNormalDepthMaterialVisitor];
    var swapped := initialized + [SetColorMaterialVisitor];
    var nd, c, f := NormalDepthEvents(camera, normalDepthDraw), ColorEvents(camera, colorDraw), CompositeEvents(sampler);
    DrawsAppend(nd + c, f, s);
    DrawsAppend(nd, c, s);
    NormalDepthOrder(camera, normalDepthDraw, s);
    var s1 := After(nd, s);
    assert s1 == GLState(Some(true), s.depthFunc, initialized);
    ColorOrder(camera, colorDraw, s1);
    var s2 := After(nd + c, s);
    assert s2 == GLState(Some(true), s.depthFunc, swapped);
    CompositeOrder(sampler, s2);
  }

  /**
   * Six distinct targets, their ids increasing from the normal + depth
   * composer's to the final composer's and all below `nextId`; the
   * g-buffers' float parameters, the final target's byte parameters, no
   * mipmaps.
   */
  predicate TargetsShaped(normalDepth: Composer, color: Composer, final: Composer, nextId: nat) {
    normalDepth.renderTarget1.id < normalDepth.renderTarget2.id < color.renderTarget1.id &&
    color.renderTarget1.id < color.renderTarget2.id < final.renderTarget1.id &&
    final.renderTarget1.id < final.renderTarget2.id < nextId &&
    Shaped(normalDepth, RtParamsFloatNearest) &&
    Shaped(color, RtParamsFloatNearest) &&
    Shaped(final, RtParamsUByte)
  }

  /** Both geometry passes clear; the composite pass clears, does not blend and draws to the screen. */
  predicate PassFlags(normalDepthPass: RenderPass, colorPass: RenderPass, finalPass: ShaderPass) {
    normalDepthPass.clear && colorPass.clear &&
    finalPass.clear && finalPass.renderToScreen && finalPass.blending == NoBlending
  }

  /** All three composers have the given size. */
  predicate AllSizedTo(normalDepth: Composer, color: Composer, final: Composer, width: int, height: int) {
    SizedTo(normalDepth, width, height) && SizedTo(color, width, height) && SizedTo(final, width, height)
  }

  /**
   * The color composer's second target reuses the depth buffer of the normal
   * + depth composer's second target, and the composite samples the color
   * composer's second target.
   */
  predicate Linked(normalDepth: Composer, color: Composer, finalPass: ShaderPass) {
    color.renderTarget2.shareDepthFrom == Some(normalDepth.renderTarget2.id) &&
    finalPass.sampler == Some(color.renderTarget2.id)
  }

  /**
   * What the links guarantee on a consistent set of targets: the composite
   * samples a target of neither of the final composer's ping-pong targets,
   * and the color g-buffer borrows the depth buffer of a different target of
   * the same size.
   */
  lemma LinksAvoidFeedback(normalDepth: Composer, color: Composer, final: Composer, finalPass: ShaderPass, nextId: nat, width: int, height: int)
    requires TargetsShaped(normalDepth, color, final, nextId)
    requires AllSizedTo(normalDepth, color, final, width, height)
    requires Linked(normalDepth, color, finalPass)
    ensures finalPass.sampler.Some?
    ensures finalPass.sampler.value != final.renderTarget1.id && finalPass.sampler.value != final.renderTarget2.id
    ensures color.renderTarget2.shareDepthFrom == Some(normalDepth.renderTarget2.id)
    ensures normalDepth.renderTarget2.id != color.renderTarget2.id
    ensures normalDepth.renderTarget2.width == color.renderTarget2.width
    ensures normalDepth.renderTarget2.height == color.renderTarget2.height
  { }

  /** `c.renderTarget2.shareDepthFrom = from`. */
  function ShareDepth(c: Composer, from: RenderTarget): (r: Composer)
    ensures r.renderTarget1 == c.renderTarget1
    ensures r.renderTarget2 == c.renderTarget2.(shareDepthFrom := Some(from.id))
  {
    c.(renderTarget2 := c.renderTarget2.(shareDepthFrom := Some(from.id)))
  }

  /**
   * createRenderTargets, on targets numbered 0 to 5 in the order of the
   * composers: the result is shaped, sized and linked.
   */
  lemma CreatedTargetsConsistent(width: int, height: int, normalDepth: Composer, color: Composer, final: Composer, finalPass: ShaderPass)
    requires normalDepth == NewComposer(NewRenderTarget(0, width, height, RtParamsFloatNearest).(generateMipmaps := false), 1)
    requires color == ShareDepth(NewComposer(NewRenderTarget(2, width, height, RtParamsFloatNearest).(generateMipmaps := false), 3), normalDepth.renderTarget2)
    requires final == NewComposer(NewRenderTarget(4, width, height, RtParamsUByte).(generateMipmaps := false), 5)
    requires finalPass.sampler == Some(color.renderTarget2.id)
    ensures TargetsShaped(normalDepth, color, final, 6)
    ensures AllSizedTo(normalDepth, color, final, width, height)
    ensures Linked(normalDepth, color, finalPass)
  {
  }

  /**
   * setScale's resizing: three setSize calls numbering the new targets from
   * `nextId`, then re-linking the depth buffer, keep the targets shaped,
   * size all to the new size, and link the new targets.
   */
  lemma ResizedTargetsConsistent(normalDepth: Composer, color: Composer, final: Composer, nextId: nat, width: int, height: int,
                                 normalDepth': Composer, color': Composer, final': Composer, finalPass: ShaderPass)
    requires TargetsShaped(normalDepth, color, final, nextId)
    requires normalDepth' == Resized(normalDepth, width, height, nextId, nextId + 1)
    requires color' == ShareDepth(Resized(color, width, height, nextId + 2, nextId + 3), normalDepth'.renderTarget2)
    requires final' == Resized(final, width, height, nextId + 4, nextId + 5)
    requires finalPass.sampler == Some(color'.renderTarget2.id)
    ensures TargetsShaped(normalDepth', color', final', nextId + 6)
    ensures AllSizedTo(normalDepth', color', final', width, height)
    ensures Linked(normalDepth', color', finalPass)
  {
  }

  class SimpleDeferredRenderer {
    /** Three.js's Color.copyGammaToLinear, left uninterpreted. */
    const toLinear: Color -> Color

    var renderer: GLRenderer
    var pixelWidth: real
    var pixelHeight: real
    var currentScale: real
    var scaledWidth: int
    var scaledHeight: int
    var currentCamera: Camera?

    var normalDepthComposer: Composer
    var colorComposer: Composer
    var finalComposer: Composer
    var normalDepthPass: RenderPass
    var colorPass: RenderPass
    var finalPass: ShaderPass

    /** The first id no render target has yet. */
    var nextId: nat
    /** The draw submissions and GL state changes made so far. */
    var trace: seq<Event>

    /** What createRenderTargets establishes and resizing keeps. */
    ghost predicate Structure()
      reads this
    {
      TargetsShaped(normalDepthComposer, colorComposer, finalComposer, nextId) &&
      PassFlags(normalDepthPass, colorPass, finalPass)
    }

    /** The state setScale establishes: all composers at the scaled size, the depth link and the composite sampler. */
    ghost predicate SizedAndLinked()
      reads this
    {
      AllSizedTo(normalDepthComposer, colorComposer, finalComposer, scaledWidth, scaledHeight) &&
      Linked(normalDepthComposer, colorComposer, finalPass)
    }

    ghost predicate Valid()
      reads this
    {
      Structure() && SizedAndLinked()
    }

    /**
     * The constructor: defaults 800 x 600 at scale 1, a WebGLRenderer of its
     * own when none is given, then createRenderTargets.
     */
    constructor (parameters: Parameters, toLinear: Color -> Color)
      ensures Valid()
      ensures scaledWidth == ScaledSize(currentScale, pixelWidth) && scaledHeight == ScaledSize(currentScale, pixelHeight)
      ensures pixelWidth == parameters.width.GetOr(800.0) && pixelHeight == parameters.height.GetOr(600.0)
      ensures currentScale == parameters.scale.GetOr(1.0)
      ensures parameters.renderer.Some? ==> renderer == parameters.renderer.value
      ensures parameters.renderer.None? ==>
        renderer == NewWebGLRenderer().(width := pixelWidth, height := pixelHeight, clearColor := 0, clearAlpha := 0.0, autoClear := false)
      ensures normalDepthPass.camera == null && colorPass.camera == null
      ensures currentCamera == null && trace == [] && this.toLinear == toLinear
    {
      this.toLinear := toLinear;
      new;

      var width := parameters.width.GetOr(800.0);
      var height := parameters.height.GetOr(600.0);
      var scale := parameters.scale.GetOr(1.0);

      pixelWidth, pixelHeight, currentScale := width, height, scale;
      scaledWidth := ScaledSize(scale, width);
      scaledHeight := ScaledSize(scale, height);

      if parameters.renderer.None? {
        renderer := NewWebGLRenderer();
        renderer := renderer.(width := width, height := height);
        renderer := renderer.(clearColor := 0, clearAlpha := 0.0);
        renderer := renderer.(autoClear := false);
      } else {
        renderer := parameters.renderer.value;
      }

      currentCamera := null;
      trace := [];

      CreateRenderTargets();
    }

    /**
     * createRenderTargets: three targets at the scaled size (two float
     * g-buffers and a byte target for the composite), a composer and a pass
     * for each, the color composer's second target sharing the depth buffer
     * of the normal + depth composer's, and the composite sampling the color
     * composer's second target. Target ids restart at 0, in the order of the
     * composers, each composer's clone right after its target.
     */
    method CreateRenderTargets()
      modifies this`normalDepthComposer, this`colorComposer, this`finalComposer, this`nextId
      modifies this`normalDepthPass, this`colorPass, this`finalPass
      ensures Valid()
      ensures normalDepthPass.camera == null && colorPass.camera == null
      ensures normalDepthPass.scene == [] && colorPass.scene == []
    {
      var rtNormalDepth := NewRenderTarget(0, scaledWidth, scaledHeight, RtParamsFloatNearest);
      var rtColor := NewRenderTarget(2, scaledWidth, scaledHeight, RtParamsFloatNearest);
      var rtFinal := NewRenderTarget(4, scaledWidth, scaledHeight, RtParamsUByte);

      rtNormalDepth := rtNormalDepth.(generateMipmaps := false);
      rtColor := rtColor.(generateMipmaps := false);
      rtFinal := rtFinal.(generateMipmaps := false);

      // the normal + depth pass and its composer over the first g-buffer
      var ndPass := RenderPass([], null, true);
      var ndComposer := NewComposer(rtNormalDepth, 1);

      // the color pass and its composer, whose clone reuses the first g-buffer's depth
      var cPass := RenderPass([], null, true);
      var cComposer := NewComposer(rtColor, 3);

      cComposer := ShareDepth(cComposer, ndComposer.renderTarget2);

      // the composite pass, sampling the color g-buffer and drawing to the screen
      var fPass := ShaderPass(None, NormalBlending, false, false);
      fPass := fPass.(sampler := Some(cComposer.renderTarget2.id));
      fPass := fPass.(blending := NoBlending, clear := true);

      var fComposer := NewComposer(rtFinal, 5);

      fPass := fPass.(renderToScreen := true);

      CreatedTargetsConsistent(scaledWidth, scaledHeight, ndComposer, cComposer, fComposer, fPass);
      normalDepthPass, colorPass, finalPass := ndPass, cPass, fPass;
      normalDepthComposer, colorComposer, finalComposer := ndComposer, cComposer, fComposer;
      nextId := 6;
    }

    /**
     * setScale: recompute the scaled size, then resize all three composers to
     * it and re-link the new targets. It restores consistency from any state.
     */
    method SetScale(scale: real)
      requires Structure()
      modifies this`currentScale, this`scaledWidth, this`scaledHeight
      modifies this`normalDepthComposer, this`colorComposer, this`finalComposer, this`finalPass, this`nextId
      ensures Valid()
      ensures currentScale == scale
      ensures scaledWidth == ScaledSize(scale, pixelWidth) && scaledHeight == ScaledSize(scale, pixelHeight)
      ensures normalDepthComposer.renderTarget1.id >= old(nextId)
      ensures finalPass.blending == old(finalPass).blending && finalPass.clear == old(finalPass).clear
      ensures finalPass.renderToScreen == old(finalPass).renderToScreen
    {
      currentScale := scale;

      scaledWidth := ScaledSize(currentScale, pixelWidth);
      scaledHeight := ScaledSize(currentScale, pixelHeight);

      ResizeComposers();
    }

    /**
     * The rest of setScale: the three setSize calls, which number their new
     * targets from nextId, then the depth link and the composite sampler.
     */
    method ResizeComposers()
      requires Structure()
      modifies this`normalDepthComposer, this`colorComposer, this`finalComposer, this`finalPass, this`nextId
      ensures Valid()
      ensures normalDepthComposer.renderTarget1.id >= old(nextId)
      ensures finalPass.blending == old(finalPass).blending && finalPass.clear == old(finalPass).clear
      ensures finalPass.renderToScreen == old(finalPass).renderToScreen
    {
      var nd := Resized(normalDepthComposer, scaledWidth, scaledHeight, nextId, nextId + 1);
      var c := Resized(colorComposer, scaledWidth, scaledHeight, nextId + 2, nextId + 3);
      var f := Resized(finalComposer, scaledWidth, scaledHeight, nextId + 4, nextId + 5);

      c := ShareDepth(c, nd.renderTarget2);

      var fp := finalPass.(sampler := Some(c.renderTarget2.id));

      ResizedTargetsConsistent(normalDepthComposer, colorComposer, finalComposer, nextId, scaledWidth, scaledHeight, nd, c, f, fp);
      normalDepthComposer, colorComposer, finalComposer, finalPass := nd, c, f, fp;
      nextId := nextId + 6;
    }

    /** setSize: record the new pixel size, resize the WebGLRenderer, then setScale at the current scale. */
    method SetSize(width: real, height: real)
      requires Structure()
      modifies this`pixelWidth, this`pixelHeight, this`renderer
      modifies this`currentScale, this`scaledWidth, this`scaledHeight
      modifies this`normalDepthComposer, this`colorComposer, this`finalComposer, this`finalPass, this`nextId
      ensures Valid()
      ensures pixelWidth == width && pixelHeight == height && currentScale == old(currentScale)
      ensures scaledWidth == ScaledSize(currentScale, width) && scaledHeight == ScaledSize(currentScale, height)
      ensures renderer == old(renderer).(width := width, height := height)
      ensures normalDepthComposer.renderTarget1.id >= old(nextId)
      ensures currentCamera == old(currentCamera) && trace == old(trace)
      ensures normalDepthPass == old(normalDepthPass) && colorPass == old(colorPass)
    {
      pixelWidth := width;
      pixelHeight := height;

      renderer := renderer.(width := pixelWidth, height := pixelHeight);

      SetScale(currentScale);
    }

    /** The start of render: the camera and the scene become those of both geometry passes. */
    method BindPasses(scene: seq<SceneObject>, camera: Camera)
      requires Valid()
      modifies this`currentCamera, this`normalDepthPass, this`colorPass
      ensures Valid()
      ensures currentCamera == camera
      ensures normalDepthPass == old(normalDepthPass).(scene := scene, camera := camera)
      ensures colorPass == old(colorPass).(scene := scene, camera := camera)
    {
      currentCamera := camera;

      normalDepthPass := normalDepthPass.(camera := currentCamera);
      colorPass := colorPass.(camera := currentCamera);

      normalDepthPass := normalDepthPass.(scene := scene);
      colorPass := colorPass.(scene := scene);
    }

    /**
     * render: bind camera and scene to both geometry passes, then the three
     * stages in order: the normal + depth draw, the color draw, the composite.
     */
    method Render(scene: seq<SceneObject>, camera: Camera)
      requires Valid()
      requires Distinct(scene) && AllWellFormed(States(scene))
      modifies this`currentCamera, this`normalDepthPass, this`colorPass, this`renderer, this`trace, scene
      ensures Valid()
      ensures currentCamera == camera
      ensures normalDepthPass == old(normalDepthPass).(scene := scene, camera := camera)
      ensures colorPass == old(colorPass).(scene := scene, camera := camera)
      ensures renderer == old(renderer).(autoClearDepth := true, depthFunc := LessEqual)
      ensures AllWellFormed(States(scene))
      ensures States(scene) == FrameStates(old(States(scene)), toLinear)
      ensures trace == old(trace) + FrameTrace(old(States(scene)), camera, finalPass.sampler, toLinear)
    {
      ghost var before := States(scene);

      BindPasses(scene, camera);

      var normalDepthDraw, colorDraw := DrawGeometry(scene);

      DrawComposite();

      assert FrameTrace(before, camera, finalPass.sampler, toLinear) == FrameEvents(camera, normalDepthDraw, colorDraw, finalPass.sampler);
    }

    /**
     * Stages 1 and 2 of render, on the scene both geometry passes are bound
     * to; the results are what each draw shows of the nodes.
     */
    method DrawGeometry(scene: seq<SceneObject>) returns (normalDepthDraw: seq<Option<Slot>>, colorDraw: seq<Option<Slot>>)
      requires Distinct(scene) && AllWellFormed(States(scene))
      requires normalDepthPass.scene == scene && colorPass.scene == scene
      modifies this`renderer, this`trace, scene
      ensures AllWellFormed(States(scene))
      ensures States(scene) == FrameStates(old(States(scene)), toLinear)
      ensures normalDepthDraw == ActiveMaterials(NormalDepthStates(old(States(scene)), toLinear))
      ensures colorDraw == ActiveMaterials(States(scene))
      ensures renderer == old(renderer).(autoClearDepth := true)
      ensures trace == old(trace) + NormalDepthEvents(normalDepthPass.camera, normalDepthDraw) + ColorEvents(colorPass.camera, colorDraw)
    {
      ghost var before := States(scene);
      DrawNormalDepth(scene);
      normalDepthDraw := ActiveMaterials(States(scene));
      DrawColor(scene);
      colorDraw := ActiveMaterials(States(scene));
      assert States(scene) == VisitAll(SetColorMaterialVisitor, NormalDepthStates(before, toLinear), toLinear);
    }

    /**
     * Stage 1 of render: initialize every node, swap in the normal + depth
     * materials, clear depth and render the normal + depth composer.
     */
    method DrawNormalDepth(scene: seq<SceneObject>)
      requires Distinct(scene) && AllWellFormed(States(scene))
      requires normalDepthPass.scene == scene
      modifies this`renderer, this`trace, scene
      ensures AllWellFormed(States(scene))
      ensures States(scene) == NormalDepthStates(old(States(scene)), toLinear)
      ensures renderer == old(renderer).(autoClearDepth := true)
      ensures trace == old(trace) + NormalDepthEvents(normalDepthPass.camera, ActiveMaterials(States(scene)))
    {
      ghost var trace0 := trace;
      RecordedTraverse(scene, InitDeferredPropertiesVisitor);
      RecordedTraverse(scene, SetNormalDepthMaterialVisitor);
      assert trace == trace0 + [Traversal(InitDeferredPropertiesVisitor), Traversal(SetNormalDepthMaterialVisitor)];
      SetAutoClearDepth();
      RenderGeometry(NormalDepthStage);
    }

    /** Stage 2 of render: swap in the color materials, clear depth and render the color composer. */
    method DrawColor(scene: seq<SceneObject>)
      requires Distinct(scene) && AllWellFormed(States(scene))
      requires colorPass.scene == scene
      modifies this`renderer, this`trace, scene
      ensures AllWellFormed(States(scene))
      ensures States(scene) == VisitAll(SetColorMaterialVisitor, old(States(scene)), toLinear)
      ensures renderer == old(renderer).(autoClearDepth := true)
      ensures trace == old(trace) + ColorEvents(colorPass.camera, ActiveMaterials(States(scene)))
    {
      RecordedTraverse(scene, SetColorMaterialVisitor);
      SetAutoClearDepth();
      RenderGeometry(ColorStage);
    }

    /** Stage 3 of render: clear depth, set the depth test to LEQUAL and render the final composer. */
    method DrawComposite()
      modifies this`renderer, this`trace
      ensures renderer == old(renderer).(autoClearDepth := true, depthFunc := LessEqual)
      ensures trace == old(trace) + CompositeEvents(finalPass.sampler)
    {
      SetAutoClearDepth();
      SetDepthFunc(LessEqual);
      RenderComposite();
    }

    /** `scene.traverse(callback)`, recorded in the trace once it has visited every node. */
    method RecordedTraverse(scene: seq<SceneObject>, v: Visitor)
      requires Distinct(scene) && AllWellFormed(States(scene))
      modifies this`trace, scene
      ensures AllWellFormed(States(scene))
      ensures States(scene) == VisitAll(v, old(States(scene)), toLinear)
      ensures trace == old(trace) + [Traversal(v)]
    {
      Traverse(scene, v, toLinear);
      trace := trace + [Traversal(v)];
    }

    /** `this.renderer.autoClearDepth = true`. */
    method SetAutoClearDepth()
      modifies this`renderer, this`trace
      ensures renderer == old(renderer).(autoClearDepth := true)
      ensures trace == old(trace) + [AutoClearDepthSet(true)]
    {
      renderer := renderer.(autoClearDepth := true);
      trace := trace + [AutoClearDepthSet(true)];
    }

    /** `gl.depthFunc(f)` on the renderer's context. */
    method SetDepthFunc(f: DepthFunction)
      modifies this`renderer, this`trace
      ensures renderer == old(renderer).(depthFunc := f)
      ensures trace == old(trace) + [DepthFuncSet(f)]
    {
      renderer := renderer.(depthFunc := f);
      trace := trace + [DepthFuncSet(f)];
    }

    /**
     * A geometry composer's `render()`: its pass draws the pass's scene
     * through the pass's camera, each node with the material it holds now.
     */
    method RenderGeometry(stage: Stage)
      modifies this`trace
      ensures var pass := if stage == NormalDepthStage then normalDepthPass else colorPass;
        trace == old(trace) + [SceneRendered(stage, pass.camera, ActiveMaterials(States(pass.scene)))]
    {
      var pass := if stage == NormalDepthStage then normalDepthPass else colorPass;
      trace := trace + [SceneRendered(stage, pass.camera, ActiveMaterials(States(pass.scene)))];
    }

    /** `finalComposer.render(0.1)`: the composite draws, sampling the target its sampler uniform names. */
    method RenderComposite()
      modifies this`trace
      ensures trace == old(trace) + [CompositeRendered(finalPass.sampler)]
    {
      trace := trace + [CompositeRendered(finalPass.sampler)];
    }
  }

  /** A WebGLRenderer as Three.js creates it: clearing on, depth test LEQUAL. Its size and clear colour are set right after. */
  function NewWebGLRenderer(): (r: GLRenderer)
    ensures r.autoClear && r.autoClearDepth && r.depthFunc == LessEqual
  {
    GLRenderer(300.0, 150.0, 0, 0.0, true, true, LessEqual)
  }
}
