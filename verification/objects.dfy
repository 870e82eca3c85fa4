/** The entity records of the scene: object types, placed objects and loaded mesh geometry. */
module Objects {
  import opened Wrappers
  import opened Vectors

  /** The closed set of object types, in the declaration order of the source enum. */
  datatype ObjectType = TerrainElement | Palm | Snowman | Raider | Fire | Banner | Couch | Duck | Diamond

  const ObjectTypeCount: nat := 9

  /** The integer value the source enum gives each type. */
  function Ordinal(t: ObjectType): (i: nat)
    ensures i < ObjectTypeCount
  {
    match t
    case TerrainElement => 0
    case Palm => 1
    case Snowman => 2
    case Raider => 3
    case Fire => 4
    case Banner => 5
    case Couch => 6
    case Duck => 7
    case Diamond => 8
  }

  /** Reads an enum value back from its integer; values outside the enum name no type. */
  function FromOrdinal(i: int): (r: Option<ObjectType>)
    ensures r.Some? <==> 0 <= i < ObjectTypeCount
    ensures r.Some? ==> Ordinal(r.value) == i
  {
    if i == 0 then Some(TerrainElement)
    else if i == 1 then Some(Palm)
    else if i == 2 then Some(Snowman)
    else if i == 3 then Some(Raider)
    else if i == 4 then Some(Fire)
    else if i == 5 then Some(Banner)
    else if i == 6 then Some(Couch)
    else if i == 7 then Some(Duck)
    else if i == 8 then Some(Diamond)
    else None
  }

  /** Every type survives the trip through its integer value, so the nine values are distinct. */
  lemma OrdinalRoundTrip(t: ObjectType)
    ensures FromOrdinal(Ordinal(t)) == Some(t)
  {
  }

  /** One placed scene object. */
  datatype Object = Object(
    position: Vec3,
    direction: Vec3,
    speed: real,
    size: real,
    startTime: real,
    currentTime: real,
    viewAngle: real,
    frameDuration: real)

  /**
   * One uploaded mesh. The GPU buffer handles are replaced by what they hold
   * that the model can see: the element (index) buffer contents. Texture 0
   * means "no texture".
   */
  datatype SingMeshGeom = SingMeshGeom(
    indices: seq<nat>,
    numTriangles: nat,
    texture: nat,
    shininess: real,
    ambient: Vec3,
    diffuse: Vec3,
    specular: Vec3)

  /** A mesh record with every field at its default: untextured. */
  const DefaultSingMeshGeom: SingMeshGeom := SingMeshGeom([], 0, 0, 0.0, Zero, Zero, Zero)

  /** A model made of several meshes, drawn in sequence order. */
  type MultMeshGeom = seq<SingMeshGeom>
}
