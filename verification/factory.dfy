/** The type-keyed object factory. */
module Factory {
  import opened Wrappers
  import opened Vectors
  import opened Objects
  import opened Config

  /** Where a diamond is always placed, whatever position it is created at. */
  const DiamondPosition: Vec3 := Vec3(-1.0, 0.0, 0.5)

  /**
   * Creates an object of a known type at `pos`. Both timestamps are the scene's
   * elapsed time. A static prop's direction is the normalisation of the zero
   * vector, which is not a number: the model leaves it unspecified.
   */
  function Create(t: ObjectType, pos: Vec3, cfg: Config, elapsed: real, n: Numerics): (o: Object)
    ensures o.startTime == elapsed && o.currentTime == elapsed && o.viewAngle == 0.0
    ensures 0.0 < o.size
    ensures o.speed == (if t == Raider then 0.7 else 0.0)
    ensures o.frameDuration == (if t == Fire then 0.1 else 0.0)
    ensures t == Diamond ==> o.position == DiamondPosition && o.size == 0.1
    ensures t != Diamond ==> o.position.x == pos.x && o.position.y == pos.y
    ensures t in {TerrainElement, Palm, Raider, Fire, Banner} ==> o.position == pos
    ensures t == TerrainElement ==> o.size == 1.0
    ensures t == Banner ==> o.size == 3.0
    ensures t == Couch ==> o.size == 0.5 && o.position.z == -0.07
    ensures t == Duck ==> if IsSet(cfg.bigDuck) then o.size == 0.8 && o.position.z == 0.3
                          else o.size == 0.4 && o.position == pos
    ensures t == Snowman ==> if IsSet(cfg.bigSnowman) then o.size == 0.8 && o.position.z == 0.3
                             else o.size == 0.5 && o.position == pos
    ensures t == Palm ==> o.size == (if IsSet(cfg.bigPalms) then 4.0 else 2.0)
    ensures t == Raider ==> o.size == 0.3 && o.direction == HeadingDirection(n, 0.0)
    ensures t == Fire ==> o.size == (if IsSet(cfg.bigDuck) then 1.0 else 0.5)
    ensures t == Snowman ==> o.direction == Vec3(0.3, 0.0, 0.0)
  {
    var base := Object(pos, n.normalize(Zero), 0.0, 1.0, elapsed, elapsed, 0.0, 0.0);
    match t
    case TerrainElement => base.(size := 1.0)
    case Couch => base.(size := 0.5, position := pos.(z := -0.07))
    case Duck =>
      if !IsSet(cfg.bigDuck) then base.(size := 0.4)
      else base.(size := 0.8, position := pos.(z := 0.3))
    case Snowman =>
      var sized := if !IsSet(cfg.bigSnowman) then base.(size := 0.5)
                   else base.(size := 0.8, position := pos.(z := 0.3));
      sized.(direction := Vec3(0.3, 0.0, 0.0))
    case Palm => base.(size := if !IsSet(cfg.bigPalms) then 2.0 else 4.0)
    case Banner => base.(size := 3.0)
    case Diamond => base.(size := 0.1, position := DiamondPosition)
    case Raider => base.(direction := HeadingDirection(n, base.viewAngle), size := 0.3, speed := 0.7)
    case Fire => base.(size := if !IsSet(cfg.bigDuck) then 0.5 else 1.0, frameDuration := 0.1)
  }

  /**
   * The factory entry point, taking the raw enum value: a value outside the
   * enum is reported and gives no object.
   */
  function SetObject(code: int, pos: Vec3, cfg: Config, elapsed: real, n: Numerics): (r: Option<Object>)
    ensures r.Some? <==> 0 <= code < ObjectTypeCount
    ensures r.Some? ==> r.value.startTime == elapsed && r.value.currentTime == elapsed && 0.0 < r.value.size
  {
    match FromOrdinal(code)
    case None => None
    case Some(t) => Some(Create(t, pos, cfg, elapsed, n))
  }

  /** Creating through the enum value of a type gives that type's object. */
  lemma SetObjectOfType(t: ObjectType, pos: Vec3, cfg: Config, elapsed: real, n: Numerics)
    ensures SetObject(Ordinal(t), pos, cfg, elapsed, n) == Some(Create(t, pos, cfg, elapsed, n))
  {
    OrdinalRoundTrip(t);
  }

  /** The big variant exactly doubles the duck, the palm and the fire; the snowman grows from 0.5 to 0.8 only. */
  lemma BigVariantSizes(pos: Vec3, small: Config, big: Config, elapsed: real, n: Numerics)
    requires !IsSet(small.bigDuck) && !IsSet(small.bigPalms) && !IsSet(small.bigSnowman)
    requires IsSet(big.bigDuck) && IsSet(big.bigPalms) && IsSet(big.bigSnowman)
    ensures Create(Duck, pos, big, elapsed, n).size == 2.0 * Create(Duck, pos, small, elapsed, n).size
    ensures Create(Palm, pos, big, elapsed, n).size == 2.0 * Create(Palm, pos, small, elapsed, n).size
    ensures Create(Fire, pos, big, elapsed, n).size == 2.0 * Create(Fire, pos, small, elapsed, n).size
    ensures Create(Snowman, pos, big, elapsed, n).size != 2.0 * Create(Snowman, pos, small, elapsed, n).size
  {
  }

  /** A raider is born heading along +x when cosine and sine are exact at 0. */
  lemma RaiderBornFacingX(pos: Vec3, cfg: Config, elapsed: real, n: Numerics)
    requires n.cos(0.0) == 1.0 && n.sin(0.0) == 0.0
    ensures Create(Raider, pos, cfg, elapsed, n).direction == Vec3(1.0, 0.0, 0.0)
  {
  }
}
