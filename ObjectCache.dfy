/**
 * The per-object deferred state of SimpleDeferredRenderer.js. A scene object
 * has an active `material` slot and a `userData` bag in which the renderer
 * caches the two derived materials and a `deferredInitialized` flag; the
 * renderer's traversal callbacks fill the cache once and swap the active
 * material between the cached variants.
 */
module DeferredCache {
  import opened Wrappers
  import opened Materials

  /** What an object's material slot can hold: the material its author gave it, or one the renderer derived. */
  datatype Slot = Authored(material: Material) | Deferred(derived: DerivedMaterial)

  /** The observable state of one scene object: its material slot and the three userData entries. */
  datatype ObjState = ObjState(
    material: Option<Slot>,
    deferredInitialized: bool,
    normalDepthMaterial: Option<DerivedMaterial>,
    colorMaterial: Option<DerivedMaterial>)

  /** The traversal callbacks that render passes to `scene.traverse`. */
  datatype Visitor = InitDeferredPropertiesVisitor | SetNormalDepthMaterialVisitor | SetColorMaterialVisitor

  /**
   * The two cache entries are filled together; until an object is
   * initialized its cache is empty and its slot holds an authored material,
   * if any.
   */
  predicate WellFormed(s: ObjState) {
    (s.normalDepthMaterial.None? <==> s.colorMaterial.None?) &&
    (!s.deferredInitialized ==>
      s.normalDepthMaterial.None? && s.colorMaterial.None? && (s.material.Some? ==> s.material.value.Authored?))
  }

  /** A userData entry assigned to `object.material`: `undefined` stays `undefined`. */
  function AsSlot(d: Option<DerivedMaterial>): (r: Option<Slot>)
    ensures r.None? <==> d.None?
    ensures d.Some? ==> r == Some(Deferred(d.value))
  {
    match d
    case None => None
    case Some(x) => Some(Deferred(x))
  }

  /** initDeferredProperties on the object's state. */
  function Initialized(s: ObjState, toLinear: Color -> Color): (r: ObjState)
    requires WellFormed(s)
    ensures WellFormed(r) && r.deferredInitialized && r.material == s.material
    ensures s.deferredInitialized ==> r == s
    ensures !s.deferredInitialized && s.material.None? ==>
      r.normalDepthMaterial.None? && r.colorMaterial.None?
    ensures !s.deferredInitialized && s.material.Some? ==>
      r.normalDepthMaterial == Some(DeferredFor(s.material.value.material, toLinear).normalDepthMaterial) &&
      r.colorMaterial == Some(DeferredFor(s.material.value.material, toLinear).colorMaterial)
  {
    if s.deferredInitialized then s
    else if s.material.None? then s.(deferredInitialized := true)
    else
      var pair := DeferredFor(s.material.value.material, toLinear);
      ObjState(s.material, true, Some(pair.normalDepthMaterial), Some(pair.colorMaterial))
  }

  /** setNormalDepthMaterial (cached = the normal + depth entry) or setColorMaterial (cached = the color entry) on the object's state. */
  function Swapped(s: ObjState, cached: Option<DerivedMaterial>): (r: ObjState)
    ensures r.deferredInitialized == s.deferredInitialized
    ensures r.normalDepthMaterial == s.normalDepthMaterial && r.colorMaterial == s.colorMaterial
    ensures s.material.None? ==> r.material.None?
    ensures s.material.Some? ==> r.material == AsSlot(cached)
    ensures WellFormed(s) && (!s.deferredInitialized ==> cached.None?) ==> WellFormed(r)
  {
    if s.material.Some? then s.(material := AsSlot(cached)) else s
  }

  /** One traversal callback applied to one object's state. */
  function Visit(v: Visitor, s: ObjState, toLinear: Color -> Color): (r: ObjState)
    requires WellFormed(s)
    ensures WellFormed(r)
  {
    match v
    case InitDeferredPropertiesVisitor => Initialized(s, toLinear)
    case SetNormalDepthMaterialVisitor => Swapped(s, s.normalDepthMaterial)
    case SetColorMaterialVisitor => Swapped(s, s.colorMaterial)
  }

  /** The effect of one frame's three traversals on one object: initialize, swap to normal + depth, swap to color. */
  function AfterFrame(s: ObjState, toLinear: Color -> Color): (r: ObjState)
    requires WellFormed(s)
    ensures WellFormed(r)
  {
    Visit(SetColorMaterialVisitor, Visit(SetNormalDepthMaterialVisitor, Visit(InitDeferredPropertiesVisitor, s, toLinear), toLinear), toLinear)
  }

  /** A scene node: its active material and the entries of its userData the renderer uses. */
  class SceneObject {
    var material: Option<Slot>
    var deferredInitialized: bool
    var normalDepthMaterial: Option<DerivedMaterial>
    var colorMaterial: Option<DerivedMaterial>

    function State(): (s: ObjState)
      reads this
    {
      ObjState(material, deferredInitialized, normalDepthMaterial, colorMaterial)
    }

    ghost predicate Valid()
      reads this
    {
      WellFormed(State())
    }

    /** A node as the host creates it: with or without a material, and an empty userData. */
    constructor (material: Option<Material>)
      ensures Valid()
      ensures State() == ObjState(if material.Some? then Some(Authored(material.value)) else None, false, None, None)
    {
      this.material := if material.Some? then Some(Authored(material.value)) else None;
      deferredInitialized := false;
      normalDepthMaterial := None;
      colorMaterial := None;
    }

    /** The host assigns a material to the node. */
    method SetMaterial(m: Option<Material>)
      requires Valid()
      modifies this
      ensures Valid()
      ensures State() == old(State()).(material := if m.Some? then Some(Authored(m.value)) else None)
    {
      material := if m.Some? then Some(Authored(m.value)) else None;
    }
  }

  /** initDeferredMaterials: store the derived pair of the object's (authored) material in its userData. */
  method InitDeferredMaterials(o: SceneObject, toLinear: Color -> Color)
    requires o.material.Some? && o.material.value.Authored?
    modifies o
    ensures o.material == old(o.material) && o.deferredInitialized == old(o.deferredInitialized)
    ensures o.normalDepthMaterial == Some(DeferredFor(o.material.value.material, toLinear).normalDepthMaterial)
    ensures o.colorMaterial == Some(DeferredFor(o.material.value.material, toLinear).colorMaterial)
  {
    var m := o.material.value.material;
    if m.Face? {
      var normalDepthMaterials, colorMaterials := DeferredLists(m.materials, toLinear);
      assert normalDepthMaterials == DeferredFor(m, toLinear).normalDepthMaterial.entries;
      assert colorMaterials == DeferredFor(m, toLinear).colorMaterial.entries;
      o.normalDepthMaterial := Some(FaceList(normalDepthMaterials));
      o.colorMaterial := Some(FaceList(colorMaterials));
    } else {
      var deferredMaterials := CreateDeferredMaterials(m, toLinear);
      o.normalDepthMaterial := Some(deferredMaterials.normalDepthMaterial);
      o.colorMaterial := Some(deferredMaterials.colorMaterial);
    }
  }

  /** initDeferredProperties: fill the cache once; later calls change nothing. */
  method InitDeferredProperties(o: SceneObject, toLinear: Color -> Color)
    requires o.Valid()
    modifies o
    ensures o.Valid()
    ensures o.State() == Initialized(old(o.State()), toLinear)
  {
    if o.deferredInitialized {
      return;
    }
    if o.material.Some? {
      InitDeferredMaterials(o, toLinear);
    }
    o.deferredInitialized := true;
  }

  /** setNormalDepthMaterial: an object with a material now draws with its cached normal + depth material. */
  method SetNormalDepthMaterial(o: SceneObject)
    requires o.Valid()
    modifies o
    ensures o.Valid()
    ensures o.State() == Swapped(old(o.State()), old(o.normalDepthMaterial))
  {
    if o.material.Some? {
      o.material := AsSlot(o.normalDepthMaterial);
    }
  }

  /** setColorMaterial: an object with a material now draws with its cached color material. */
  method SetColorMaterial(o: SceneObject)
    requires o.Valid()
    modifies o
    ensures o.Valid()
    ensures o.State() == Swapped(old(o.State()), old(o.colorMaterial))
  {
    if o.material.Some? {
      o.material := AsSlot(o.colorMaterial);
    }
  }

  /** Objects of a scene are pairwise distinct: a traversal visits each node once. */
  ghost predicate Distinct(scene: seq<SceneObject>) {
    forall i, j :: 0 <= i < j < |scene| ==> scene[i] != scene[j]
  }

  function States(scene: seq<SceneObject>): (r: seq<ObjState>)
    reads scene
    ensures |r| == |scene| && forall i :: 0 <= i < |scene| ==> r[i] == scene[i].State()
  {
    seq(|scene|, i reads scene requires 0 <= i < |scene| => scene[i].State())
  }

  /** The active materials of a scene's objects, in traversal order. */
  function ActiveMaterials(states: seq<ObjState>): (r: seq<Option<Slot>>)
    ensures |r| == |states| && forall i :: 0 <= i < |states| ==> r[i] == states[i].material
  {
    seq(|states|, i requires 0 <= i < |states| => states[i].material)
  }

  ghost predicate AllWellFormed(states: seq<ObjState>) {
    forall i :: 0 <= i < |states| ==> WellFormed(states[i])
  }

  /** One traversal with callback `v`, on the states of all objects. */
  function VisitAll(v: Visitor, states: seq<ObjState>, toLinear: Color -> Color): (r: seq<ObjState>)
    requires AllWellFormed(states)
    ensures |r| == |states| && AllWellFormed(r)
  {
    seq(|states|, i requires 0 <= i < |states| => Visit(v, states[i], toLinear))
  }

  /** A traversal visits every object once, in place. */
  lemma VisitAllVisitsEach(v: Visitor, states: seq<ObjState>, toLinear: Color -> Color)
    requires AllWellFormed(states)
    ensures forall i :: 0 <= i < |states| ==> VisitAll(v, states, toLinear)[i] == Visit(v, states[i], toLinear)
  {
  }

  /** scene.traverse(callback): apply the callback to every node once. */
  method Traverse(scene: seq<SceneObject>, v: Visitor, toLinear: Color -> Color)
    requires Distinct(scene)
    requires AllWellFormed(States(scene))
    modifies scene
    ensures AllWellFormed(States(scene))
    ensures States(scene) == VisitAll(v, old(States(scene)), toLinear)
  {
    ghost var before := States(scene);
    var i := 0;
    while i < |scene|
      invariant 0 <= i <= |scene|
      invariant AllWellFormed(before)
      invariant forall k :: 0 <= k < |scene| ==> WellFormed(scene[k].State())
      invariant forall k :: 0 <= k < i ==> scene[k].State() == Visit(v, before[k], toLinear)
      invariant forall k :: i <= k < |scene| ==> scene[k].State() == before[k]
    {
      var o := scene[i];
      match v {
        case InitDeferredPropertiesVisitor => InitDeferredProperties(o, toLinear);
        case SetNormalDepthMaterialVisitor => SetNormalDepthMaterial(o);
        case SetColorMaterialVisitor => SetColorMaterial(o);
      }
      i := i + 1;
    }
    VisitAllVisitsEach(v, before, toLinear);
    assert States(scene) == VisitAll(v, before, toLinear);
  }

  /** Initialization is idempotent: a second initDeferredProperties changes nothing. */
  lemma InitializeTwice(s: ObjState, toLinear: Color -> Color)
    requires WellFormed(s)
    ensures Initialized(Initialized(s, toLinear), toLinear) == Initialized(s, toLinear)
  {
  }

  /**
   * During a frame, an object that still carries its authored material is
   * drawn by the normal + depth pass with the normal + depth variant of that
   * material and by the color pass with its color variant.
   */
  lemma FirstFrameOfAuthoredObject(m: Material, toLinear: Color -> Color)
    ensures var s := ObjState(Some(Authored(m)), false, None, None);
      var nd := Visit(SetNormalDepthMaterialVisitor, Initialized(s, toLinear), toLinear);
      nd.material == Some(Deferred(DeferredFor(m, toLinear).normalDepthMaterial)) &&
      AfterFrame(s, toLinear).material == Some(Deferred(DeferredFor(m, toLinear).colorMaterial))
  {
  }

  /** Frames are steady: a second frame leaves every object as the first one did. */
  lemma SecondFrameChangesNothing(s: ObjState, toLinear: Color -> Color)
    requires WellFormed(s)
    ensures AfterFrame(AfterFrame(s, toLinear), toLinear) == AfterFrame(s, toLinear)
  {
  }

  /**
   * An object first visited without a material is flagged as initialized with
   * an empty cache; a material given to it afterwards is replaced by
   * `undefined` at the next normal + depth swap.
   */
  lemma LateMaterialIsDropped(m: Material, toLinear: Color -> Color)
    ensures var s := Initialized(ObjState(None, false, None, None), toLinear).(material := Some(Authored(m)));
      Visit(SetNormalDepthMaterialVisitor, Visit(InitDeferredPropertiesVisitor, s, toLinear), toLinear).material.None?
  {
  }
}
