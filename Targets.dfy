/**
 * The offscreen render targets and effect composers the renderer drives.
 * Both are Three.js objects; only what the renderer reads and writes is kept:
 * a target's size, pixel parameters, mipmap flag and depth-sharing link, and a
 * composer's two ping-pong targets. Object identity is an explicit `id`: a
 * new or cloned target gets an id no other target has, and a link names the
 * id of the target it points at.
 */
module RenderTargets {
  import opened Wrappers

  datatype Filter = NearestFilter | LinearFilter
  datatype PixelFormat = RGBAFormat | RGBFormat
  datatype TexelType = FloatType | UnsignedByteType

  /** The parameter object a WebGLRenderTarget is created with. */
  datatype TargetParams = TargetParams(
    minFilter: Filter,
    magFilter: Filter,
    stencilBuffer: bool,
    format: PixelFormat,
    texelType: TexelType)

  /** rtParamsFloatLinear: declared by createRenderTargets, but no target is created with it. */
  const RtParamsFloatLinear: TargetParams := TargetParams(NearestFilter, LinearFilter, true, RGBAFormat, FloatType)
  /** rtParamsFloatNearest: the parameters of both g-buffer targets. */
  const RtParamsFloatNearest: TargetParams := TargetParams(NearestFilter, NearestFilter, true, RGBAFormat, FloatType)
  /** rtParamsUByte: the parameters of the final target. */
  const RtParamsUByte: TargetParams := TargetParams(NearestFilter, LinearFilter, false, RGBFormat, UnsignedByteType)

  /** A WebGLRenderTarget; `shareDepthFrom` holds the id of the target whose depth buffer it reuses. */
  datatype RenderTarget = RenderTarget(
    id: nat,
    width: int,
    height: int,
    params: TargetParams,
    generateMipmaps: bool,
    shareDepthFrom: Option<nat>)

  /** `new THREE.WebGLRenderTarget(width, height, params)` as object `id`: mipmaps on, no shared depth. */
  function NewRenderTarget(id: nat, width: int, height: int, params: TargetParams): (t: RenderTarget)
    ensures t.id == id && t.width == width && t.height == height && t.params == params
    ensures t.generateMipmaps && t.shareDepthFrom.None?
  {
    RenderTarget(id, width, height, params, true, None)
  }

  /** `target.clone()` as object `id`: everything but the identity is copied. */
  function Clone(t: RenderTarget, id: nat): (c: RenderTarget)
    ensures c.id == id && c.(id := t.id) == t
  {
    t.(id := id)
  }

  /** An EffectComposer: renderTarget1 is the target it was given, renderTarget2 a clone of it. */
  datatype Composer = Composer(renderTarget1: RenderTarget, renderTarget2: RenderTarget)

  /** `new THREE.EffectComposer(renderer, target)`, cloning the target as object `id`. */
  function NewComposer(target: RenderTarget, id: nat): (c: Composer)
    ensures c.renderTarget1 == target && c.renderTarget2 == Clone(target, id)
  {
    Composer(target, Clone(target, id))
  }

  /**
   * `composer.setSize(width, height)`: both targets are replaced by new objects
   * `id1`, `id2` of the given size, cloned from the old renderTarget1. Links that
   * named the old targets keep naming them.
   */
  function Resized(c: Composer, width: int, height: int, id1: nat, id2: nat): (r: Composer)
    ensures r.renderTarget1.id == id1 && r.renderTarget2.id == id2
    ensures r.renderTarget1.width == width && r.renderTarget1.height == height
    ensures r.renderTarget2.width == width && r.renderTarget2.height == height
    ensures r.renderTarget1.params == c.renderTarget1.params && r.renderTarget2.params == c.renderTarget1.params
    ensures r.renderTarget1.generateMipmaps == c.renderTarget1.generateMipmaps
    ensures r.renderTarget2.generateMipmaps == c.renderTarget1.generateMipmaps
    ensures r.renderTarget1.shareDepthFrom == c.renderTarget1.shareDepthFrom
    ensures r.renderTarget2.shareDepthFrom == c.renderTarget1.shareDepthFrom
  {
    var target := Clone(c.renderTarget1, id1).(width := width, height := height);
    Composer(target, Clone(target, id2))
  }

  /** Both targets of `c` have the given size. */
  predicate SizedTo(c: Composer, width: int, height: int) {
    c.renderTarget1.width == width && c.renderTarget1.height == height &&
    c.renderTarget2.width == width && c.renderTarget2.height == height
  }

  /** Both targets of `c` have parameters `p`, no mipmaps, and the first shares no depth buffer. */
  predicate Shaped(c: Composer, p: TargetParams) {
    c.renderTarget1.params == p && c.renderTarget2.params == p &&
    !c.renderTarget1.generateMipmaps && !c.renderTarget2.generateMipmaps &&
    c.renderTarget1.shareDepthFrom.None?
  }
}
