/**
 * The order in which one frame draws the scene's objects and the stencil
 * value each is drawn with. The stencil value is what a left click reads back
 * to tell which object it hit.
 */
module DrawPasses {
  import opened Wrappers
  import opened Objects
  import opened Config
  import opened Scene

  /** One draw call of the frame: an object of a type with its stencil value (`None`: stencil test off), or the skybox. */
  datatype Pass = ObjectPass(kind: ObjectType, drawn: Object, stencil: Option<int>) | SkyboxPass

  /**
   * The stencil value an object type is drawn with: palms 3, snowman 1,
   * raider 2, couch 4, duck 5, diamond 6, banner 7; terrain and fire are
   * drawn with the stencil test off.
   */
  function StencilId(t: ObjectType): (id: Option<int>)
    ensures id.Some? <==> t !in {TerrainElement, Fire}
    ensures id.Some? ==> 1 <= id.value <= 7
  {
    match t
    case TerrainElement => None
    case Palm => Some(3)
    case Snowman => Some(1)
    case Raider => Some(2)
    case Couch => Some(4)
    case Duck => Some(5)
    case Diamond => Some(6)
    case Fire => None
    case Banner => Some(7)
  }

  /** No two types share a stencil value, so a stencil value read back names one type. */
  lemma StencilIdInjective(a: ObjectType, b: ObjectType)
    requires StencilId(a).Some? && StencilId(a) == StencilId(b)
    ensures a == b
  {
  }

  /** The terrain passes: every terrain element, in list order, stencil off. */
  function TerrainPasses(elements: seq<Object>): (ps: seq<Pass>)
    ensures |ps| == |elements|
    ensures forall i :: 0 <= i < |ps| ==> ps[i] == ObjectPass(TerrainElement, elements[i], None)
  {
    seq(|elements|, i requires 0 <= i < |elements| => ObjectPass(TerrainElement, elements[i], None))
  }

  /** The palm passes: the first `count` palms of the list, in order, with stencil 3. */
  function PalmPasses(palms: seq<Object>, count: nat): (ps: seq<Pass>)
    requires count <= |palms|
    ensures |ps| == count
    ensures forall i :: 0 <= i < count ==> ps[i] == ObjectPass(Palm, palms[i], StencilId(Palm))
  {
    seq(count, i requires 0 <= i < count => ObjectPass(Palm, palms[i], Some(3)))
  }

  /** One pass for a singleton object, drawn with its type's stencil value. */
  function SingletonPass(t: ObjectType, o: Object): Pass {
    ObjectPass(t, o, StencilId(t))
  }

  /**
   * The frame's draw order: the terrain, the configured number of palms, the
   * snowman, raider, couch, duck and diamond, the skybox, then the fire when
   * it is switched on and the banner when it is switched on and exists.
   */
  function DrawAllObjects(w: World): (ps: seq<Pass>)
    requires Ready(w)
    ensures var fixed := |w.objects.terrainElements| + w.config.numPalms + 6;
      && |ps| == fixed + (if w.state.sparklesOn then 1 else 0)
                      + (if w.state.amongusOn && w.objects.amongus.Some? then 1 else 0)
    ensures forall i :: 0 <= i < |w.objects.terrainElements| ==>
      ps[i] == ObjectPass(TerrainElement, w.objects.terrainElements[i], None)
    ensures var t := |w.objects.terrainElements|; forall i :: t <= i < t + w.config.numPalms ==>
      ps[i] == ObjectPass(Palm, w.objects.palms[i - t], Some(3))
    ensures var k := |w.objects.terrainElements| + w.config.numPalms;
      && ps[k] == ObjectPass(Snowman, w.objects.snowman.value, Some(1))
      && ps[k + 1] == ObjectPass(Raider, w.objects.raider.value, Some(2))
      && ps[k + 2] == ObjectPass(Couch, w.objects.couch.value, Some(4))
      && ps[k + 3] == ObjectPass(Duck, w.objects.duck.value, Some(5))
      && ps[k + 4] == ObjectPass(Diamond, w.objects.diamond.value, Some(6))
      && ps[k + 5] == SkyboxPass
    ensures w.state.sparklesOn ==>
      ps[|w.objects.terrainElements| + w.config.numPalms + 6] == ObjectPass(Fire, w.objects.sparkles.value, None)
    ensures w.state.amongusOn && w.objects.amongus.Some? ==>
      ps[|ps| - 1] == ObjectPass(Banner, w.objects.amongus.value, Some(7))
  {
    var o := w.objects;
    var singletons := [
      SingletonPass(Snowman, o.snowman.value),
      SingletonPass(Raider, o.raider.value),
      SingletonPass(Couch, o.couch.value),
      SingletonPass(Duck, o.duck.value),
      SingletonPass(Diamond, o.diamond.value),
      SkyboxPass];
    var fire := if w.state.sparklesOn then [ObjectPass(Fire, o.sparkles.value, None)] else [];
    var banner := if w.state.amongusOn && o.amongus.Some? then [SingletonPass(Banner, o.amongus.value)] else [];
    TerrainPasses(o.terrainElements) + PalmPasses(o.palms, w.config.numPalms) + singletons + fire + banner
  }

  /** Every object pass of a frame is drawn with its own type's stencil value. */
  lemma PassesCarryTheirStencil(w: World)
    requires Ready(w)
    ensures forall p :: p in DrawAllObjects(w) && p.ObjectPass? ==> p.stencil == StencilId(p.kind)
  {
    var ps := DrawAllObjects(w);
    forall p | p in ps && p.ObjectPass?
      ensures p.stencil == StencilId(p.kind)
    {
      var i :| 0 <= i < |ps| && ps[i] == p;
    }
  }

  /**
   * A click that reads stencil 1, 2 or 4 hit the snowman, the raider or the
   * couch: the only passes drawn with that value draw that object.
   */
  lemma ClickTargets(w: World)
    requires Ready(w)
    ensures forall p :: p in DrawAllObjects(w) && p.ObjectPass? && p.stencil == Some(1) ==>
      p.kind == Snowman && p.drawn == w.objects.snowman.value
    ensures forall p :: p in DrawAllObjects(w) && p.ObjectPass? && p.stencil == Some(2) ==>
      p.kind == Raider && p.drawn == w.objects.raider.value
    ensures forall p :: p in DrawAllObjects(w) && p.ObjectPass? && p.stencil == Some(4) ==>
      p.kind == Couch && p.drawn == w.objects.couch.value
  {
    PassesCarryTheirStencil(w);
    var ps := DrawAllObjects(w);
    forall p | p in ps && p.ObjectPass? && p.stencil in {Some(1), Some(2), Some(4)}
      ensures p.stencil == Some(1) ==> p.kind == Snowman && p.drawn == w.objects.snowman.value
      ensures p.stencil == Some(2) ==> p.kind == Raider && p.drawn == w.objects.raider.value
      ensures p.stencil == Some(4) ==> p.kind == Couch && p.drawn == w.objects.couch.value
    {
      var i :| 0 <= i < |ps| && ps[i] == p;
    }
  }
}
