/**
 * The model matrices: the glm transforms the renderer composes, the frame
 * that aligns the raider with its flight direction, and the per-type model
 * matrix, with what each does to points of the mesh.
 */
module Transforms {
  import opened Wrappers
  import opened Vectors
  import opened Objects

  const E0: Vec4 := Vec4(Vec3(1.0, 0.0, 0.0), 0.0)
  const E1: Vec4 := Vec4(Vec3(0.0, 1.0, 0.0), 0.0)
  const E2: Vec4 := Vec4(Vec3(0.0, 0.0, 1.0), 0.0)
  const E3: Vec4 := Vec4(Zero, 1.0)

  /** glm::mat4(1.0f) */
  const Identity: Mat4 := Mat4(E0, E1, E2, E3)

  function ScaleVec4(k: real, v: Vec4): Vec4 { Vec4(Scale(k, v.xyz), k * v.w) }

  function AddVec4(a: Vec4, b: Vec4): Vec4 { Vec4(Add(a.xyz, b.xyz), a.w + b.w) }

  /** The matrix applied to the point `p` (w = 1). */
  function MulPoint(m: Mat4, p: Vec3): (q: Vec4)
    ensures q.w == m.c0.w * p.x + m.c1.w * p.y + m.c2.w * p.z + m.c3.w
  {
    AddVec4(AddVec4(ScaleVec4(p.x, m.c0), ScaleVec4(p.y, m.c1)), AddVec4(ScaleVec4(p.z, m.c2), m.c3))
  }

  /** glm::translate(m, v): m times the translation by v, which moves only the last column. */
  function GlmTranslate(m: Mat4, v: Vec3): Mat4 {
    m.(c3 := MulPoint(m, v))
  }

  /** glm::scale(m, v): m times the axis scaling by v, which scales the first three columns. */
  function GlmScale(m: Mat4, v: Vec3): Mat4 {
    Mat4(ScaleVec4(v.x, m.c0), ScaleVec4(v.y, m.c1), ScaleVec4(v.z, m.c2), m.c3)
  }

  /** The matrix that scales by `v` about the origin and then moves the origin to `position`. */
  function Placement(position: Vec3, v: Vec3): Mat4 {
    Mat4(Vec4(Vec3(v.x, 0.0, 0.0), 0.0), Vec4(Vec3(0.0, v.y, 0.0), 0.0), Vec4(Vec3(0.0, 0.0, v.z), 0.0), Vec4(position, 1.0))
  }

  /** Translating the identity and then scaling builds the placement matrix. */
  lemma TranslateThenScale(position: Vec3, v: Vec3)
    ensures GlmScale(GlmTranslate(Identity, position), v) == Placement(position, v)
  {
    var t := GlmTranslate(Identity, position);
    assert MulPoint(Identity, position) == Vec4(position, 1.0);
    assert t == Identity.(c3 := Vec4(position, 1.0));
  }

  /** A placement scales a point axis by axis and then moves it by the position. */
  lemma PlacementMapsPoint(position: Vec3, v: Vec3, p: Vec3)
    ensures MulPoint(Placement(position, v), p) == Vec4(Add(Vec3(v.x * p.x, v.y * p.y, v.z * p.z), position), 1.0)
  {
    var m := Placement(position, v);
    assert ScaleVec4(p.x, m.c0) == Vec4(Vec3(p.x * v.x, 0.0, 0.0), 0.0);
    assert ScaleVec4(p.y, m.c1) == Vec4(Vec3(0.0, p.y * v.y, 0.0), 0.0);
    assert ScaleVec4(p.z, m.c2) == Vec4(Vec3(0.0, 0.0, p.z * v.z), 0.0);
  }

  /** glm::scale by the same factor on every axis. */
  function Uniform(s: real): Vec3 { Vec3(s, s, s) }

  /**
   * glm::rotate(m, angle, (1, 0, 0)): m times the rotation about x by the
   * angle whose cosine and sine are `c` and `s`.
   */
  function GlmRotateX(m: Mat4, c: real, s: real): (r: Mat4)
    ensures r.c0 == m.c0 && r.c3 == m.c3
    ensures r.c1 == AddVec4(ScaleVec4(c, m.c1), ScaleVec4(s, m.c2))
    ensures r.c2 == AddVec4(ScaleVec4(-s, m.c1), ScaleVec4(c, m.c2))
  {
    Mat4(m.c0, AddVec4(ScaleVec4(c, m.c1), ScaleVec4(s, m.c2)), AddVec4(ScaleVec4(-s, m.c1), ScaleVec4(c, m.c2)), m.c3)
  }

  /**
   * The frame that places a model at `position` with its -z axis along
   * `front` and its y axis as close to `up` as the front allows: the columns
   * are right, new up, the negated front and the position.
   */
  function FrontDirectionMat(n: Numerics, position: Vec3, front: Vec3, up: Vec3): (m: Mat4)
    ensures m.c3 == Vec4(position, 1.0)
    ensures m.c0.w == 0.0 && m.c1.w == 0.0 && m.c2.w == 0.0
    ensures m.c2.xyz == Neg(n.normalize(front))
    ensures m.c0.xyz == n.normalize(Cross(up, m.c2.xyz))
    ensures m.c1.xyz == Cross(m.c2.xyz, m.c0.xyz)
  {
    var negFront := Neg(n.normalize(front));
    var right := n.normalize(Cross(up, negFront));
    var newUp := Cross(negFront, right);
    Mat4(Vec4(right, 0.0), Vec4(newUp, 0.0), Vec4(negFront, 0.0), Vec4(position, 1.0))
  }

  /**
   * With exact normalisation and a front not parallel to up, the frame's three
   * axes are pairwise orthogonal, so the raider is rotated and not sheared.
   */
  lemma FrontFrameOrthogonal(n: Numerics, position: Vec3, front: Vec3, up: Vec3)
    requires var negFront := Neg(n.normalize(front)); var c := Cross(up, negFront);
      NormalizeExactAt(n, c) && 0.0 < SqNorm(c)
    ensures var m := FrontDirectionMat(n, position, front, up);
      && Dot(m.c0.xyz, m.c1.xyz) == 0.0
      && Dot(m.c0.xyz, m.c2.xyz) == 0.0
      && Dot(m.c1.xyz, m.c2.xyz) == 0.0
  {
    var negFront := Neg(n.normalize(front));
    var c := Cross(up, negFront);
    var right := n.normalize(c);
    assert right == Scale(1.0 / Length(n, c), c);
    CrossOrthogonal(up, negFront);
    DotScale(1.0 / Length(n, c), c, negFront);
    assert Dot(right, negFront) == 0.0;
    CrossOrthogonal(negFront, right);
    var m := FrontDirectionMat(n, position, front, up);
    assert m.c0.xyz == right && m.c1.xyz == Cross(negFront, right) && m.c2.xyz == negFront;
    assert Dot(right, Cross(negFront, right)) == Dot(Cross(negFront, right), right);
    assert Dot(negFront, Cross(negFront, right)) == Dot(Cross(negFront, right), negFront);
  }

  /** The world's up direction, which the raider's frame keeps its wings level with. */
  const WorldUp: Vec3 := Vec3(0.0, 0.0, 1.0)

  /**
   * The model matrix of an object of type `t`. Terrain is flattened to a
   * fifth of a unit in height; the raider flies in its direction frame; the
   * duck, snowman and couch, modelled with y up, are tipped a quarter turn
   * about x to stand in the z-up world; palms and the diamond are placed and
   * scaled. Fire and the banner have no model matrix here (they are drawn
   * by their own routines).
   */
  function SetModelMat(n: Numerics, t: ObjectType, o: Object): (m: Option<Mat4>)
    ensures m.None? <==> t in {Fire, Banner}
    ensures m.Some? ==> m.value.c3 == Vec4(o.position, 1.0)
  {
    var placed := GlmTranslate(Identity, o.position);
    match t
    case TerrainElement => Some(GlmScale(placed, Vec3(o.size, o.size, 0.2)))
    case Raider => Some(GlmScale(FrontDirectionMat(n, o.position, o.direction, WorldUp), Uniform(o.size)))
    case Duck => Some(GlmRotateX(GlmScale(placed, Uniform(o.size)), n.cos(n.pi / 2.0), n.sin(n.pi / 2.0)))
    case Palm => Some(GlmScale(placed, Uniform(o.size)))
    case Snowman =>
      var a := Radians(n, 90.0);
      Some(GlmRotateX(GlmScale(placed, Uniform(o.size)), n.cos(a), n.sin(a)))
    case Couch =>
      var a := Radians(n, 90.0);
      Some(GlmRotateX(GlmScale(placed, Uniform(o.size)), n.cos(a), n.sin(a)))
    case Diamond => Some(GlmScale(placed, Uniform(o.size)))
    case Fire => None
    case Banner => None
  }

  /** Any matrix sends the origin to its last column. */
  lemma OriginToLastColumn(m: Mat4)
    ensures MulPoint(m, Zero) == m.c3
  {
    assert ScaleVec4(0.0, m.c0) == Vec4(Zero, 0.0);
    assert ScaleVec4(0.0, m.c1) == Vec4(Zero, 0.0);
    assert ScaleVec4(0.0, m.c2) == Vec4(Zero, 0.0);
  }

  /** Every model matrix puts the mesh's origin at the object's position. */
  lemma ModelOriginAtPosition(n: Numerics, t: ObjectType, o: Object)
    requires t !in {Fire, Banner}
    ensures MulPoint(SetModelMat(n, t, o).value, Zero) == Vec4(o.position, 1.0)
  {
    var m := SetModelMat(n, t, o).value;
    assert m.c3 == Vec4(o.position, 1.0);
    OriginToLastColumn(m);
  }

  /** Palms and the diamond are the mesh scaled by the object's size about its position. */
  lemma PlacedAndScaled(n: Numerics, t: ObjectType, o: Object, p: Vec3)
    requires t in {Palm, Diamond}
    ensures MulPoint(SetModelMat(n, t, o).value, p) == Vec4(Add(Scale(o.size, p), o.position), 1.0)
  {
    TranslateThenScale(o.position, Uniform(o.size));
    PlacementMapsPoint(o.position, Uniform(o.size), p);
  }

  /** Terrain keeps its footprint scaled by its size and is squashed to a fifth in height. */
  lemma TerrainFlattened(n: Numerics, o: Object, p: Vec3)
    ensures MulPoint(SetModelMat(n, TerrainElement, o).value, p)
         == Vec4(Add(Vec3(o.size * p.x, o.size * p.y, 0.2 * p.z), o.position), 1.0)
  {
    TranslateThenScale(o.position, Vec3(o.size, o.size, 0.2));
    PlacementMapsPoint(o.position, Vec3(o.size, o.size, 0.2), p);
  }

  /** Scaling a column twice is scaling it once by the product. */
  lemma ScaleVec4Twice(a: real, b: real, v: Vec4)
    ensures ScaleVec4(a, ScaleVec4(b, v)) == ScaleVec4(b * a, v)
  {
    assert a * (b * v.xyz.x) == (b * a) * v.xyz.x;
    assert a * (b * v.xyz.y) == (b * a) * v.xyz.y;
    assert a * (b * v.xyz.z) == (b * a) * v.xyz.z;
    assert a * (b * v.w) == (b * a) * v.w;
  }

  /** A frame followed by a uniform glm::scale sends a point where the frame sends the scaled point. */
  lemma UniformScaleFirst(m: Mat4, s: real, p: Vec3)
    ensures MulPoint(GlmScale(m, Uniform(s)), p) == MulPoint(m, Scale(s, p))
  {
    var g := GlmScale(m, Uniform(s));
    var q := Scale(s, p);
    ScaleVec4Twice(p.x, s, m.c0);
    ScaleVec4Twice(p.y, s, m.c1);
    ScaleVec4Twice(p.z, s, m.c2);
    assert ScaleVec4(p.x, g.c0) == ScaleVec4(q.x, m.c0);
    assert ScaleVec4(p.y, g.c1) == ScaleVec4(q.y, m.c1);
    assert ScaleVec4(p.z, g.c2) == ScaleVec4(q.z, m.c2);
    assert g.c3 == m.c3;
  }

  /** The raider's mesh is scaled by its size about its own origin and then carried by its direction frame. */
  lemma RaiderScaledThenFramed(n: Numerics, o: Object, p: Vec3)
    ensures MulPoint(SetModelMat(n, Raider, o).value, p)
         == MulPoint(FrontDirectionMat(n, o.position, o.direction, WorldUp), Scale(o.size, p))
  {
    var frame := FrontDirectionMat(n, o.position, o.direction, WorldUp);
    assert SetModelMat(n, Raider, o).value == GlmScale(frame, Uniform(o.size));
    UniformScaleFirst(frame, o.size, p);
  }

  /**
   * With an exact quarter turn, the duck, snowman and couch stand upright: a
   * mesh point (x, y, z) lands at size * (x, -z, y) from the position, so the
   * mesh's x axis stays along x, its y axis points along the world's z axis
   * and its z axis along the world's -y axis.
   */
  lemma UprightModels(n: Numerics, t: ObjectType, o: Object, p: Vec3)
    requires t in {Duck, Snowman, Couch}
    requires n.cos(n.pi / 2.0) == 0.0 && n.sin(n.pi / 2.0) == 1.0
    ensures MulPoint(SetModelMat(n, t, o).value, p)
         == Vec4(Add(Scale(o.size, Vec3(p.x, -p.z, p.y)), o.position), 1.0)
  {
    assert Radians(n, 90.0) == n.pi / 2.0;
    TranslateThenScale(o.position, Uniform(o.size));
    var s := o.size;
    var scaled := Placement(o.position, Uniform(s));
    var m := GlmRotateX(scaled, 0.0, 1.0);
    assert SetModelMat(n, t, o).value == m;
    assert m.c0 == Vec4(Vec3(s, 0.0, 0.0), 0.0);
    assert m.c1 == Vec4(Vec3(0.0, 0.0, s), 0.0);
    assert m.c2 == Vec4(Vec3(0.0, -s, 0.0), 0.0);
    assert ScaleVec4(p.x, m.c0) == Vec4(Vec3(s * p.x, 0.0, 0.0), 0.0);
    assert ScaleVec4(p.y, m.c1) == Vec4(Vec3(0.0, 0.0, s * p.y), 0.0);
    assert ScaleVec4(p.z, m.c2) == Vec4(Vec3(0.0, s * -p.z, 0.0), 0.0);
  }
}
