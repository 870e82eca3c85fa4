/**
 * The mesh loaders, reduced to what they compute from an imported scene: the
 * mesh-count gate, the flattened triangle index list, the material colours
 * and shininess with their defaults, and the texture file name resolved
 * against the model file's directory. The importer's result and the texture
 * upload are inputs.
 */
module MeshLoader {
  import opened Wrappers
  import opened Vectors
  import opened Objects

  /** A triangulated face: three vertex indices. */
  datatype Face = Face(i0: nat, i1: nat, i2: nat)

  /** An imported material: each entry is `None` when the importer has no value for it. */
  datatype ImportedMaterial = ImportedMaterial(
    diffuse: Option<Vec3>,
    ambient: Option<Vec3>,
    specular: Option<Vec3>,
    shininess: Option<real>,
    shininessStrength: Option<real>,
    diffuseTextures: seq<string>)

  datatype ImportedMesh = ImportedMesh(faces: seq<Face>, materialIndex: nat)

  datatype ImportedScene = ImportedScene(meshes: seq<ImportedMesh>, materials: seq<ImportedMaterial>)

  /** Every mesh's material index names a material, as the importer guarantees. */
  predicate MaterialsResolve(s: ImportedScene) {
    forall i :: 0 <= i < |s.meshes| ==> s.meshes[i].materialIndex < |s.materials|
  }

  /** The characters a path separator can be. */
  const Separators: set<char> := {'/', '\\'}

  /** The position of the last character of `s` that is in `chars`, if any (std::string::find_last_of). */
  function FindLastOf(s: string, chars: set<char>): (r: Option<nat>)
    ensures r.Some? ==> r.value < |s| && s[r.value] in chars
    ensures r.Some? ==> forall j :: r.value < j < |s| ==> s[j] !in chars
    ensures r.None? ==> forall j :: 0 <= j < |s| ==> s[j] !in chars
    decreases |s|
  {
    if s == [] then None
    else if s[|s| - 1] in chars then Some(|s| - 1)
    else FindLastOf(s[..|s| - 1], chars)
  }

  /**
   * The file a texture is read from: the name the material gives, prefixed by
   * the model file's name up to and including its last separator; unchanged
   * when the model file name has no separator.
   */
  function ResolveTexturePath(fileName: string, textureName: string): (path: string)
    ensures FindLastOf(fileName, Separators).None? ==> path == textureName
    ensures FindLastOf(fileName, Separators).Some? ==>
      var k := FindLastOf(fileName, Separators).value;
      path == fileName[..k + 1] + textureName
  {
    match FindLastOf(fileName, Separators)
    case None => textureName
    case Some(found) => fileName[..found + 1] + textureName
  }

  /**
   * A resolved path ends with the texture name, and what precedes it is
   * either nothing or a directory prefix of the model file that ends in a
   * separator and holds every separator of the model file name.
   */
  lemma ResolvedPathShape(fileName: string, textureName: string)
    ensures var path := ResolveTexturePath(fileName, textureName);
      var dir := path[..|path| - |textureName|];
      && |textureName| <= |path|
      && path[|path| - |textureName|..] == textureName
      && dir <= fileName
      && (dir == [] || dir[|dir| - 1] in Separators)
      && (forall j :: |dir| <= j < |fileName| ==> fileName[j] !in Separators)
  {
    var path := ResolveTexturePath(fileName, textureName);
    match FindLastOf(fileName, Separators)
    case None =>
      assert path == textureName;
    case Some(k) =>
      assert path == fileName[..k + 1] + textureName;
      assert path[..|path| - |textureName|] == fileName[..k + 1];
  }

  /** The element-buffer contents: the three indices of every face, face after face. */
  function FlattenFaces(faces: seq<Face>): (indices: seq<nat>)
    ensures |indices| == 3 * |faces|
    ensures forall f :: 0 <= f < |faces| ==>
      && indices[3 * f] == faces[f].i0
      && indices[3 * f + 1] == faces[f].i1
      && indices[3 * f + 2] == faces[f].i2
    decreases |faces|
  {
    if faces == [] then []
    else
      var last := faces[|faces| - 1];
      FlattenFaces(faces[..|faces| - 1]) + [last.i0, last.i1, last.i2]
  }

  /** Reads a flat index list back as faces, three indices at a time. */
  function Regroup(indices: seq<nat>): (faces: seq<Face>)
    requires |indices| % 3 == 0
    ensures 3 * |faces| == |indices|
    decreases |indices|
  {
    if indices == [] then []
    else
      var k := |indices| - 3;
      Regroup(indices[..k]) + [Face(indices[k], indices[k + 1], indices[k + 2])]
  }

  /** Flattening loses nothing: regrouping the flat list gives the faces back. */
  lemma {:induction false} RegroupFlattenRoundTrip(faces: seq<Face>)
    ensures Regroup(FlattenFaces(faces)) == faces
    decreases |faces|
  {
    if faces != [] {
      var init := faces[..|faces| - 1];
      var last := faces[|faces| - 1];
      var flat := FlattenFaces(faces);
      assert flat == FlattenFaces(init) + [last.i0, last.i1, last.i2];
      assert flat[..|flat| - 3] == FlattenFaces(init);
      RegroupFlattenRoundTrip(init);
      assert faces == init + [last];
    }
  }

  /**
   * The index-copying loop of the loaders: three entries per face, in face
   * order.
   */
  method FillIndices(faces: seq<Face>) returns (indices: seq<nat>)
    ensures indices == FlattenFaces(faces)
  {
    indices := [];
    var f := 0;
    while f < |faces|
      invariant 0 <= f <= |faces|
      invariant indices == FlattenFaces(faces[..f])
    {
      assert faces[..f + 1][..f] == faces[..f];
      indices := indices + [faces[f].i0, faces[f].i1, faces[f].i2];
      f := f + 1;
    }
    assert faces[..|faces|] == faces;
  }

  /** A missing colour reads as black. */
  function ColourOrBlack(c: Option<Vec3>): (v: Vec3)
    ensures c.Some? ==> v == c.value
    ensures c.None? ==> v == Zero
  {
    if c.Some? then c.value else Zero
  }

  /** A missing shininess or strength reads as 1; the stored shininess is their product. */
  function MaterialShininess(m: ImportedMaterial): (s: real)
    ensures m.shininess.None? && m.shininessStrength.None? ==> s == 1.0
    ensures m.shininess.Some? && m.shininessStrength.None? ==> s == m.shininess.value
    ensures m.shininess.None? && m.shininessStrength.Some? ==> s == m.shininessStrength.value
    ensures m.shininess.Some? && m.shininessStrength.Some? ==> s == m.shininess.value * m.shininessStrength.value
  {
    var shininess := if m.shininess.Some? then m.shininess.value else 1.0;
    var strength := if m.shininessStrength.Some? then m.shininessStrength.value else 1.0;
    shininess * strength
  }

  /**
   * The geometry record made from one imported mesh of the file `fileName`.
   * `createTexture` stands for loading a texture file and returning its
   * name; a material without a diffuse texture leaves the texture at 0.
   */
  function MeshGeometry(fileName: string, mesh: ImportedMesh, mat: ImportedMaterial, createTexture: string -> nat): (g: SingMeshGeom)
    ensures g.indices == FlattenFaces(mesh.faces) && g.numTriangles == |mesh.faces|
    ensures g.diffuse == ColourOrBlack(mat.diffuse)
    ensures g.ambient == ColourOrBlack(mat.ambient)
    ensures g.specular == ColourOrBlack(mat.specular)
    ensures g.shininess == MaterialShininess(mat)
    ensures mat.diffuseTextures == [] ==> g.texture == 0
    ensures mat.diffuseTextures != [] ==> g.texture == createTexture(ResolveTexturePath(fileName, mat.diffuseTextures[0]))
  {
    var texture := if |mat.diffuseTextures| > 0 then createTexture(ResolveTexturePath(fileName, mat.diffuseTextures[0])) else 0;
    SingMeshGeom(FlattenFaces(mesh.faces), |mesh.faces|, texture, MaterialShininess(mat),
                 ColourOrBlack(mat.ambient), ColourOrBlack(mat.diffuse), ColourOrBlack(mat.specular))
  }

  /**
   * The single-mesh loader: fails when the importer gave no scene or a scene
   * whose mesh count is not exactly one, and otherwise builds the geometry
   * of that one mesh.
   */
  function LoadSingMesh(fileName: string, scene: Option<ImportedScene>, createTexture: string -> nat): (g: Option<SingMeshGeom>)
    requires scene.Some? ==> MaterialsResolve(scene.value)
    ensures g.Some? <==> scene.Some? && |scene.value.meshes| == 1
    ensures g.Some? ==>
      var mesh := scene.value.meshes[0];
      g.value == MeshGeometry(fileName, mesh, scene.value.materials[mesh.materialIndex], createTexture)
  {
    if scene.None? then None
    else if |scene.value.meshes| != 1 then None
    else
      var mesh := scene.value.meshes[0];
      Some(MeshGeometry(fileName, mesh, scene.value.materials[mesh.materialIndex], createTexture))
  }

  /** The geometry of every mesh of a scene, in the scene's order. */
  function SceneGeometries(fileName: string, s: ImportedScene, createTexture: string -> nat): (gs: MultMeshGeom)
    requires MaterialsResolve(s)
    ensures |gs| == |s.meshes|
    ensures forall i :: 0 <= i < |s.meshes| ==>
      gs[i] == MeshGeometry(fileName, s.meshes[i], s.materials[s.meshes[i].materialIndex], createTexture)
  {
    seq(|s.meshes|, i requires 0 <= i < |s.meshes| =>
      MeshGeometry(fileName, s.meshes[i], s.materials[s.meshes[i].materialIndex], createTexture))
  }

  /**
   * The multi-mesh loader: fails, leaving the list as it was, when the
   * importer gave no scene; otherwise appends the geometry of every mesh, in
   * order, to the list it is given.
   */
  function LoadMultMesh(fileName: string, scene: Option<ImportedScene>, existing: MultMeshGeom, createTexture: string -> nat): (r: (bool, MultMeshGeom))
    requires scene.Some? ==> MaterialsResolve(scene.value)
    ensures r.0 <==> scene.Some?
    ensures !r.0 ==> r.1 == existing
    ensures r.0 ==> |r.1| == |existing| + |scene.value.meshes| && r.1[..|existing|] == existing
    ensures r.0 ==> r.1[|existing|..] == SceneGeometries(fileName, scene.value, createTexture)
  {
    if scene.None? then (false, existing)
    else
      var added := SceneGeometries(fileName, scene.value, createTexture);
      assert (existing + added)[|existing|..] == added;
      (true, existing + added)
  }

  /** On a one-mesh scene the two loaders agree: the multi-mesh loader appends what the single-mesh loader builds. */
  lemma LoadersAgreeOnOneMesh(fileName: string, s: ImportedScene, existing: MultMeshGeom, createTexture: string -> nat)
    requires MaterialsResolve(s) && |s.meshes| == 1
    ensures LoadMultMesh(fileName, Some(s), existing, createTexture).1
         == existing + [LoadSingMesh(fileName, Some(s), createTexture).value]
  {
    var r := LoadMultMesh(fileName, Some(s), existing, createTexture).1;
    assert r == r[..|existing|] + r[|existing|..];
  }

  /** A mesh with no material values at all gets black colours and shininess 1, and no texture. */
  lemma EmptyMaterialDefaults(fileName: string, mesh: ImportedMesh, createTexture: string -> nat)
    ensures var g := MeshGeometry(fileName, mesh, ImportedMaterial(None, None, None, None, None, []), createTexture);
      g.diffuse == Zero && g.ambient == Zero && g.specular == Zero && g.shininess == 1.0 && g.texture == 0
  {
  }

  /** The meshes the scene loads at startup, each `None` (or an empty list) when its loading failed. */
  datatype LoadedMeshes = LoadedMeshes(
    terrain: Option<SingMeshGeom>,
    raider: Option<SingMeshGeom>,
    palm: Option<SingMeshGeom>,
    duck: Option<SingMeshGeom>,
    snowman: MultMeshGeom,
    couch: MultMeshGeom)

  /** What the importer returns for each model file of the scene. */
  datatype ModelFiles = ModelFiles(
    terrain: Option<ImportedScene>,
    raider: Option<ImportedScene>,
    palm: Option<ImportedScene>,
    duck: Option<ImportedScene>,
    snowman: Option<ImportedScene>,
    couch: Option<ImportedScene>)

  predicate FilesResolve(f: ModelFiles) {
    && (f.terrain.Some? ==> MaterialsResolve(f.terrain.value))
    && (f.raider.Some? ==> MaterialsResolve(f.raider.value))
    && (f.palm.Some? ==> MaterialsResolve(f.palm.value))
    && (f.duck.Some? ==> MaterialsResolve(f.duck.value))
    && (f.snowman.Some? ==> MaterialsResolve(f.snowman.value))
    && (f.couch.Some? ==> MaterialsResolve(f.couch.value))
  }

  /** The model file names the scene loads. */
  const TerrainModel: string := "data/ground/ground.obj"
  const SnowmanModel: string := "data/snehulak/snehulak.obj"
  const RaiderModel: string := "data/raider/raider.obj"
  const PalmModel: string := "data/PalmTree/PalmTree.obj"
  const CouchModel: string := "data/gauc/gauc.obj"
  const DuckModel: string := "data/rubberduck/rubberduck.obj"

  /** Whatever texture the terrain's material names is read from the terrain model's directory. */
  lemma TerrainTextureBesideModel(textureName: string)
    ensures ResolveTexturePath(TerrainModel, textureName) == "data/ground/" + textureName
  {
    var found := FindLastOf(TerrainModel, Separators);
    assert TerrainModel[11] in Separators;
    assert forall j :: 11 < j < |TerrainModel| ==> TerrainModel[j] !in Separators;
    assert found == Some(11);
    assert TerrainModel[..12] == "data/ground/";
  }

  /**
   * Loads the four single-mesh models and the two multi-mesh models into
   * empty lists; a failed load is reported and the program carries on with
   * the geometry missing. Returns the meshes and the renderer's fog flag,
   * which loading switches off.
   */
  function LoadMeshes(f: ModelFiles, createTexture: string -> nat): (r: (LoadedMeshes, bool))
    requires FilesResolve(f)
    ensures r.0.terrain.Some? <==> f.terrain.Some? && |f.terrain.value.meshes| == 1
    ensures r.0.raider.Some? <==> f.raider.Some? && |f.raider.value.meshes| == 1
    ensures r.0.palm.Some? <==> f.palm.Some? && |f.palm.value.meshes| == 1
    ensures r.0.duck.Some? <==> f.duck.Some? && |f.duck.value.meshes| == 1
    ensures |r.0.snowman| == (if f.snowman.Some? then |f.snowman.value.meshes| else 0)
    ensures |r.0.couch| == (if f.couch.Some? then |f.couch.value.meshes| else 0)
    ensures !r.1
  {
    var meshes := LoadedMeshes(
      LoadSingMesh(TerrainModel, f.terrain, createTexture),
      LoadSingMesh(RaiderModel, f.raider, createTexture),
      LoadSingMesh(PalmModel, f.palm, createTexture),
      LoadSingMesh(DuckModel, f.duck, createTexture),
      LoadMultMesh(SnowmanModel, f.snowman, [], createTexture).1,
      LoadMultMesh(CouchModel, f.couch, [], createTexture).1);
    (meshes, false)
  }
}
