/**
 * The deferred material factory of SimpleDeferredRenderer.js: from an authored
 * surface material it derives the two materials the g-buffer passes draw with,
 * a "color" material whose uniforms carry the surface terms and a
 * "normal + depth" material cloned from one shared template.
 *
 * Colours are opaque values. Three.js's `Color.copyGammaToLinear` is not
 * interpreted: every member that stores a colour uniform takes it as the
 * parameter `toLinear`.
 */
module Materials {
  import opened Wrappers

  datatype Color = Rgb(r: real, g: real, b: real)

  /** `new THREE.Color(0x000000)`, the renderer's shared black. */
  const Black: Color := Rgb(0.0, 0.0, 0.0)

  /**
   * The properties of an authored material that the factory reads. A flag is
   * `Some(b)` when the property is defined, with `b` its JavaScript truthiness;
   * the additiveSpecular value itself is never read, only its presence.
   */
  datatype Props = Props(
    color: Color,
    emissive: Option<Color>,
    specular: Option<Color>,
    shininess: Option<real>,
    wrapAround: Option<bool>,
    additiveSpecular: Option<bool>,
    metal: Option<bool>,
    vertexColors: Option<int>,
    shading: Option<int>)

  /** An authored material: a single surface material, or a `MeshFaceMaterial` holding a list of them. */
  datatype Material =
    | Single(props: Props)
    | Face(props: Props, materials: seq<Material>)

  datatype Blending = NormalBlending | NoBlending

  /** The uniforms of the "color" shader that the factory sets. */
  datatype ColorUniforms = ColorUniforms(
    diffuse: Color,
    specular: Color,
    emissive: Color,
    shininess: real,
    wrapAround: int,
    additiveSpecular: int)

  /** A material the renderer derives: a color shader material, a normal + depth shader material, or a face material wrapping a list of derived materials. */
  datatype DerivedMaterial =
    | ColorShader(uniforms: ColorUniforms, vertexColors: Option<int>, shading: Option<int>)
    | NormalDepthShader(blending: Blending, vertexColors: Option<int>)
    | FaceList(entries: seq<DerivedMaterial>)

  datatype DeferredPair = DeferredPair(normalDepthMaterial: DerivedMaterial, colorMaterial: DerivedMaterial)

  /** `THREE.NoColors`, the vertex-colour mode a fresh shader material starts with. */
  const NoColors: int := 0

  /** The shared normal + depth template: the "normalDepth" shader with blending switched off. */
  const DefaultNormalDepthMaterial: DerivedMaterial := NormalDepthShader(NoBlending, Some(NoColors))

  /** JavaScript truthiness of an optional flag: `undefined` is falsy. */
  predicate Truthy(flag: Option<bool>) {
    flag == Some(true)
  }

  /** createDeferredMaterials: the pair of derived materials for one material. */
  function CreateDeferredMaterials(m: Material, toLinear: Color -> Color): (r: DeferredPair)
    // a single surface keeps its colour as diffuse; a face material's colour becomes emissive over black
    ensures r.colorMaterial.ColorShader? && r.normalDepthMaterial.NormalDepthShader?
    ensures m.Single? ==> r.colorMaterial.uniforms.diffuse == toLinear(m.props.color)
    ensures m.Face? ==> r.colorMaterial.uniforms.diffuse == toLinear(Black)
    ensures m.Face? ==> r.colorMaterial.uniforms.emissive == toLinear(m.props.color)
    // missing emissive, specular and shininess take their defaults
    ensures m.Single? && m.props.emissive.Some? ==> r.colorMaterial.uniforms.emissive == toLinear(m.props.emissive.value)
    ensures m.Single? && m.props.emissive.None? ==> r.colorMaterial.uniforms.emissive == toLinear(Black)
    ensures m.props.specular.Some? ==> r.colorMaterial.uniforms.specular == toLinear(m.props.specular.value)
    ensures m.props.specular.None? ==> r.colorMaterial.uniforms.specular == toLinear(Black)
    ensures m.props.shininess.Some? ==> r.colorMaterial.uniforms.shininess == m.props.shininess.value
    ensures m.props.shininess.None? ==> r.colorMaterial.uniforms.shininess == 1.0
    // the two sign flags
    ensures r.colorMaterial.uniforms.wrapAround in {-1, 1}
    ensures r.colorMaterial.uniforms.wrapAround == -1 <==> Truthy(m.props.wrapAround)
    ensures r.colorMaterial.uniforms.additiveSpecular in {-1, 1}
    ensures r.colorMaterial.uniforms.additiveSpecular == 1 <==> m.props.additiveSpecular.Some? && Truthy(m.props.metal)
    // copied properties, and the normal + depth material is the template with the vertex-colour mode replaced
    ensures r.colorMaterial.vertexColors == m.props.vertexColors && r.colorMaterial.shading == m.props.shading
    ensures r.normalDepthMaterial == NormalDepthShader(DefaultNormalDepthMaterial.blending, m.props.vertexColors)
  {
    var p := m.props;
    var diffuse := if m.Face? then Black else p.color;
    var emissive := if m.Face? then p.color else p.emissive.GetOr(Black);
    var specular := p.specular.GetOr(Black);
    var shininess := p.shininess.GetOr(1.0);
    var wrapAround := if p.wrapAround.Some? then (if p.wrapAround.value then -1 else 1) else 1;
    var additiveSpecular := if p.additiveSpecular.Some? then (if Truthy(p.metal) then 1 else -1) else -1;
    var uniforms := ColorUniforms(toLinear(diffuse), toLinear(specular), toLinear(emissive), shininess, wrapAround, additiveSpecular);
    DeferredPair(
      NormalDepthShader(DefaultNormalDepthMaterial.blending, p.vertexColors),
      ColorShader(uniforms, p.vertexColors, p.shading))
  }

  /**
   * What initDeferredMaterials stores for an object's material: the pair for a
   * single material, and for a face material two face materials whose lists run
   * parallel to its sub-materials.
   */
  function DeferredFor(m: Material, toLinear: Color -> Color): (r: DeferredPair)
    ensures m.Single? ==> r == CreateDeferredMaterials(m, toLinear)
    ensures m.Face? ==> r.normalDepthMaterial.FaceList? && r.colorMaterial.FaceList?
    ensures m.Face? ==> |r.normalDepthMaterial.entries| == |m.materials| && |r.colorMaterial.entries| == |m.materials|
    ensures m.Face? ==> forall i :: 0 <= i < |m.materials| ==>
      r.normalDepthMaterial.entries[i] == CreateDeferredMaterials(m.materials[i], toLinear).normalDepthMaterial &&
      r.colorMaterial.entries[i] == CreateDeferredMaterials(m.materials[i], toLinear).colorMaterial
  {
    match m
    case Single(_) => CreateDeferredMaterials(m, toLinear)
    case Face(_, ms) =>
      DeferredPair(
        FaceList(seq(|ms|, i requires 0 <= i < |ms| => CreateDeferredMaterials(ms[i], toLinear).normalDepthMaterial)),
        FaceList(seq(|ms|, i requires 0 <= i < |ms| => CreateDeferredMaterials(ms[i], toLinear).colorMaterial)))
  }

  /** The loop of initDeferredMaterials: derive each sub-material in turn and push the two results onto two lists. */
  method DeferredLists(materials: seq<Material>, toLinear: Color -> Color)
    returns (normalDepthMaterials: seq<DerivedMaterial>, colorMaterials: seq<DerivedMaterial>)
    ensures |normalDepthMaterials| == |materials| && |colorMaterials| == |materials|
    ensures forall i :: 0 <= i < |materials| ==>
      normalDepthMaterials[i] == CreateDeferredMaterials(materials[i], toLinear).normalDepthMaterial &&
      colorMaterials[i] == CreateDeferredMaterials(materials[i], toLinear).colorMaterial
  {
    normalDepthMaterials, colorMaterials := [], [];
    var i := 0;
    while i < |materials|
      invariant 0 <= i <= |materials|
      invariant |normalDepthMaterials| == i && |colorMaterials| == i
      invariant forall k :: 0 <= k < i ==>
        normalDepthMaterials[k] == CreateDeferredMaterials(materials[k], toLinear).normalDepthMaterial &&
        colorMaterials[k] == CreateDeferredMaterials(materials[k], toLinear).colorMaterial
    {
      var deferredMaterials := CreateDeferredMaterials(materials[i], toLinear);
      normalDepthMaterials := normalDepthMaterials + [deferredMaterials.normalDepthMaterial];
      colorMaterials := colorMaterials + [deferredMaterials.colorMaterial];
      i := i + 1;
    }
  }

  /** A material that sets only its colour gets black emissive and specular, shininess 1 and both sign flags at their defaults. */
  lemma OnlyColorTakesDefaults(c: Color, toLinear: Color -> Color)
    ensures CreateDeferredMaterials(Single(Props(c, None, None, None, None, None, None, None, None)), toLinear).colorMaterial.uniforms
         == ColorUniforms(toLinear(c), toLinear(Black), toLinear(Black), 1.0, 1, -1)
  {
  }

  /** A face material given to the factory directly: its colour becomes the emissive term and diffuse is black. */
  lemma FaceTintBecomesEmissive(p: Props, ms: seq<Material>, toLinear: Color -> Color)
    ensures var u := CreateDeferredMaterials(Face(p, ms), toLinear).colorMaterial.uniforms;
      u.diffuse == toLinear(Black) && u.emissive == toLinear(p.color)
  {
  }

  /**
   * The additiveSpecular uniform reads the presence of additiveSpecular and the
   * truthiness of metal: the value of additiveSpecular does not matter, and
   * without it metal does not matter either.
   */
  lemma AdditiveSpecularReadsPresenceAndMetal(m: Material, a: bool, b: Option<bool>, toLinear: Color -> Color)
    ensures m.props.additiveSpecular.Some? ==>
      CreateDeferredMaterials(m.(props := m.props.(additiveSpecular := Some(a))), toLinear) == CreateDeferredMaterials(m, toLinear)
    ensures m.props.additiveSpecular.None? ==>
      CreateDeferredMaterials(m.(props := m.props.(metal := b)), toLinear) == CreateDeferredMaterials(m, toLinear)
  {
  }
}
