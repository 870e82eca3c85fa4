/**
 * The material each object type is drawn with: what the material setter
 * hands to the shader, and which geometry and shininess each type uses.
 */
module Materials {
  import opened Wrappers
  import opened Vectors
  import opened Objects

  /**
   * The material uniforms of one draw: the three colours, the shininess,
   * whether the shader samples a texture, and the texture bound to unit 0
   * (`None`: the binding is left as it was).
   */
  datatype MaterialUniforms = MaterialUniforms(
    diffuse: Vec3,
    ambient: Vec3,
    specular: Vec3,
    shininess: real,
    useTexture: bool,
    boundTexture: Option<nat>)

  /** Texture name 0 is the "no texture" name. */
  const NoTexture: nat := 0

  /**
   * Passes a material to the shader. The texture is used, and bound, exactly
   * when its name is not 0.
   */
  function SetUniformMaterial(texture: nat, shininess: real, ambient: Vec3, diffuse: Vec3, specular: Vec3): (u: MaterialUniforms)
    ensures u.useTexture <==> texture != NoTexture
    ensures u.boundTexture.Some? <==> u.useTexture
    ensures u.boundTexture.Some? ==> u.boundTexture.value == texture
    ensures u.diffuse == diffuse && u.ambient == ambient && u.specular == specular && u.shininess == shininess
  {
    var hasTexture := texture != 0;
    MaterialUniforms(diffuse, ambient, specular, shininess, hasTexture, if hasTexture then Some(texture) else None)
  }

  /** A freshly made geometry record has texture name 0, so it is drawn untextured. */
  lemma DefaultGeometryUntextured(shininess: real)
    ensures var g := DefaultSingMeshGeom;
      !SetUniformMaterial(g.texture, shininess, g.ambient, g.diffuse, g.specular).useTexture
  {
  }

  /** The geometry the renderer holds for each object type that is drawn through the material setter. */
  datatype Geometries = Geometries(
    terrain: SingMeshGeom,
    raider: SingMeshGeom,
    duck: SingMeshGeom,
    palm: SingMeshGeom,
    diamond: SingMeshGeom,
    snowman: MultMeshGeom,
    couch: MultMeshGeom)

  /** One draw call: a material and the number of triangles drawn with it. */
  datatype MeshDraw = MeshDraw(material: MaterialUniforms, triangles: nat)

  /** One draw of a single mesh with the given shininess and the mesh's own colours. */
  function DrawWith(g: SingMeshGeom, shininess: real): MeshDraw {
    MeshDraw(SetUniformMaterial(g.texture, shininess, g.ambient, g.diffuse, g.specular), g.numTriangles)
  }

  /** The diamond's fixed colours: black ambient, grey diffuse, white specular. */
  const DiamondAmbient: Vec3 := Vec3(0.0, 0.0, 0.0)
  const DiamondDiffuse: Vec3 := Vec3(0.7, 0.7, 0.7)
  const DiamondSpecular: Vec3 := Vec3(1.0, 1.0, 1.0)

  /** Draws every sub-mesh of a multi-mesh model, in order, with shininess 2 and each sub-mesh's colours. */
  function DrawSubMeshes(meshes: MultMeshGeom): (ds: seq<MeshDraw>)
    ensures |ds| == |meshes|
    ensures forall i :: 0 <= i < |meshes| ==> ds[i] == DrawWith(meshes[i], 2.0)
  {
    seq(|meshes|, i requires 0 <= i < |meshes| => DrawWith(meshes[i], 2.0))
  }

  /**
   * The draw calls that set a type's material. Terrain, duck and diamond use
   * shininess 3; the raider and palm use the shininess they were loaded
   * with; the diamond replaces its colours by fixed ones; the snowman and
   * couch draw each sub-mesh with shininess 2. Fire and the banner are not
   * drawn through here.
   */
  function SetMaterial(t: ObjectType, g: Geometries): (ds: seq<MeshDraw>)
    ensures t in {Fire, Banner} ==> ds == []
    ensures t in {TerrainElement, Raider, Duck, Palm, Diamond} ==> |ds| == 1
    ensures t == Snowman ==> |ds| == |g.snowman|
    ensures t == Couch ==> |ds| == |g.couch|
    ensures t in {TerrainElement, Duck, Diamond} ==> ds[0].material.shininess == 3.0
    ensures t == Raider ==> ds[0].material.shininess == g.raider.shininess
    ensures t == Palm ==> ds[0].material.shininess == g.palm.shininess
    ensures t == Diamond ==>
      && ds[0].material.ambient == DiamondAmbient
      && ds[0].material.diffuse == DiamondDiffuse
      && ds[0].material.specular == DiamondSpecular
      && ds[0].triangles == g.diamond.numTriangles
      && (ds[0].material.useTexture <==> g.diamond.texture != NoTexture)
    ensures forall i :: t == Snowman && 0 <= i < |ds| ==>
      ds[i].material.shininess == 2.0 && ds[i].triangles == g.snowman[i].numTriangles
    ensures forall i :: t == Couch && 0 <= i < |ds| ==>
      ds[i].material.shininess == 2.0 && ds[i].triangles == g.couch[i].numTriangles
  {
    match t
    case TerrainElement => [DrawWith(g.terrain, 3.0)]
    case Raider => [DrawWith(g.raider, g.raider.shininess)]
    case Duck => [DrawWith(g.duck, 3.0)]
    case Palm => [DrawWith(g.palm, g.palm.shininess)]
    case Snowman => DrawSubMeshes(g.snowman)
    case Couch => DrawSubMeshes(g.couch)
    case Diamond =>
      var d := g.diamond;
      [MeshDraw(SetUniformMaterial(d.texture, 3.0, DiamondAmbient, DiamondDiffuse, DiamondSpecular), d.numTriangles)]
    case Fire => []
    case Banner => []
  }

  /** A single-mesh type draws its own mesh: every triangle of it, with its texture exactly when it has one. */
  lemma SingleMeshDrawsItsMesh(t: ObjectType, g: Geometries)
    requires t in {TerrainElement, Raider, Duck, Palm}
    ensures var m := match t
                     case TerrainElement => g.terrain
                     case Raider => g.raider
                     case Duck => g.duck
                     case _ => g.palm;
      var d := SetMaterial(t, g)[0];
      && d.triangles == m.numTriangles
      && d.material.diffuse == m.diffuse && d.material.ambient == m.ambient && d.material.specular == m.specular
      && (d.material.useTexture <==> m.texture != NoTexture)
  {
  }

  /** Appending a sub-mesh to the snowman or couch appends one draw at the end and leaves the others as they were. */
  lemma SubMeshDrawsFollowOrder(meshes: MultMeshGeom, extra: SingMeshGeom)
    ensures DrawSubMeshes(meshes + [extra]) == DrawSubMeshes(meshes) + [DrawWith(extra, 2.0)]
  {
    assert |DrawSubMeshes(meshes + [extra])| == |DrawSubMeshes(meshes) + [DrawWith(extra, 2.0)]|;
  }
}
