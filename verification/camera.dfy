/** Camera movement: the bounds clamp, the duck collision test and push-out, and the move commands. */
module CameraControl {
  import opened Vectors
  import opened Settings
  import opened Utils

  /** The fixed collision radius of the camera. */
  const CameraRadius: real := 0.5
  /** The collision radius of the duck. */
  const DuckRadius: real := 0.7

  /** x and y lie inside the scene extents. */
  predicate InBounds(p: Vec3) {
    -SceneWidth <= p.x <= SceneWidth && -SceneHeight <= p.y <= SceneHeight
  }

  /** Clamps x and y into the scene extents independently; z passes through. */
  function CorrectCameraBoundsPosition(p: Vec3): (r: Vec3)
    ensures InBounds(r) && r.z == p.z
    ensures InBounds(p) ==> r == p
    ensures p.x < -SceneWidth ==> r.x == -SceneWidth
    ensures SceneWidth < p.x ==> r.x == SceneWidth
    ensures p.y < -SceneHeight ==> r.y == -SceneHeight
    ensures SceneHeight < p.y ==> r.y == SceneHeight
  {
    Vec3(ClampFromStd(p.x, -SceneWidth, SceneWidth), ClampFromStd(p.y, -SceneHeight, SceneHeight), p.z)
  }

  /** Clamping a clamped position changes nothing. */
  lemma BoundsClampIdempotent(p: Vec3)
    ensures CorrectCameraBoundsPosition(CorrectCameraBoundsPosition(p)) == CorrectCameraBoundsPosition(p)
  {
  }

  /** The camera collides with the duck when closer than the padded radius. */
  predicate IsCameraCollidingWithDuck(n: Numerics, camera: Vec3, duck: Vec3, duckRadius: real) {
    Length(n, Sub(camera, duck)) < CameraRadius + duckRadius
  }

  /** With an exact length, the collision test is a squared-distance comparison. */
  lemma CollisionBySquaredDistance(n: Numerics, camera: Vec3, duck: Vec3, duckRadius: real)
    requires SqrtExactAt(n, SqNorm(Sub(camera, duck)))
    requires 0.0 <= CameraRadius + duckRadius
    ensures IsCameraCollidingWithDuck(n, camera, duck, duckRadius)
        <==> SqNorm(Sub(camera, duck)) < (CameraRadius + duckRadius) * (CameraRadius + duckRadius)
  {
    var l := Length(n, Sub(camera, duck));
    var b := CameraRadius + duckRadius;
    if l < b {
      SquareStrictlyMonotone(l, b);
    } else {
      SquareMonotone(b, l);
    }
  }

  lemma SquareStrictlyMonotone(a: real, b: real)
    requires 0.0 <= a < b
    ensures a * a < b * b
  {
    assert b * b - a * a == (b - a) * (b + a);
    PositiveProduct(b - a, b + a);
  }

  lemma SquareMonotone(a: real, b: real)
    requires 0.0 <= a <= b
    ensures a * a <= b * b
  {
    if a < b { SquareStrictlyMonotone(a, b); }
  }

  lemma PositiveProduct(x: real, y: real)
    requires 0.0 < x && 0.0 < y
    ensures 0.0 < x * y
  {
  }

  /**
   * Pushes a camera that is strictly inside the bare radius out along the
   * duck-to-camera vector by the penetration depth; anything else is returned
   * unchanged.
   */
  function GetAdjustedCameraPosition(n: Numerics, camera: Vec3, duck: Vec3, duckRadius: real): (r: Vec3)
    ensures duckRadius <= Length(n, Sub(camera, duck)) ==> r == camera
  {
    var duckToCamera := Sub(camera, duck);
    var distance := Length(n, duckToCamera);
    if distance < duckRadius then
      Add(camera, Scale(duckRadius - distance, n.normalize(duckToCamera)))
    else camera
  }

  /** A push-out lands on the sphere of the bare radius, along the original offset. */
  lemma PushOutReachesRadius(n: Numerics, camera: Vec3, duck: Vec3, duckRadius: real)
    requires NormalizeExactAt(n, Sub(camera, duck))
    requires 0.0 < Length(n, Sub(camera, duck)) < duckRadius
    ensures var r := GetAdjustedCameraPosition(n, camera, duck, duckRadius);
            && Sub(r, duck) == Scale(duckRadius / Length(n, Sub(camera, duck)), Sub(camera, duck))
            && SqNorm(Sub(r, duck)) == duckRadius * duckRadius
  {
    var d := Sub(camera, duck);
    var l := Length(n, d);
    var k := duckRadius / l;
    assert n.normalize(d) == Scale(1.0 / l, d);
    var r := GetAdjustedCameraPosition(n, camera, duck, duckRadius);
    assert r == Add(camera, Scale(duckRadius - l, Scale(1.0 / l, d)));
    OffsetAlongScaled(camera, duck, duckRadius - l, 1.0 / l, k);
    SqNormScale(k, d);
    assert k * k * (l * l) == duckRadius * duckRadius;
  }

  /** camera + a * (b * (camera - duck)) differs from duck by k * (camera - duck) when 1 + a * b == k. */
  lemma OffsetAlongScaled(camera: Vec3, duck: Vec3, a: real, b: real, k: real)
    requires 1.0 + a * b == k
    ensures Sub(Add(camera, Scale(a, Scale(b, Sub(camera, duck)))), duck) == Scale(k, Sub(camera, duck))
  {
    var d := Sub(camera, duck);
    assert d.x + a * (b * d.x) == k * d.x;
    assert d.y + a * (b * d.y) == k * d.y;
    assert d.z + a * (b * d.z) == k * d.z;
  }

  /** Inside the padded band but outside the bare radius a collision is reported and nothing moves. */
  lemma PaddedBandNotCorrected(n: Numerics, camera: Vec3, duck: Vec3)
    requires DuckRadius <= Length(n, Sub(camera, duck)) < CameraRadius + DuckRadius
    ensures IsCameraCollidingWithDuck(n, camera, duck, DuckRadius)
    ensures GetAdjustedCameraPosition(n, camera, duck, DuckRadius) == camera
  {
  }

  /** The duck's collision centre: its position dropped to z = 0. */
  function DuckCentre(duckPosition: Vec3): Vec3 { duckPosition.(z := 0.0) }

  /** The collision correction as the move applies it: test against the padded radius, then push out. */
  function CollisionCorrected(n: Numerics, p: Vec3, duckPosition: Vec3): (r: Vec3)
    ensures !IsCameraCollidingWithDuck(n, p, DuckCentre(duckPosition), DuckRadius) ==> r == p
    ensures DuckRadius <= Length(n, Sub(p, DuckCentre(duckPosition))) ==> r == p
    ensures Length(n, Sub(p, DuckCentre(duckPosition))) < DuckRadius ==>
      r == GetAdjustedCameraPosition(n, p, DuckCentre(duckPosition), DuckRadius)
  {
    var duck := DuckCentre(duckPosition);
    if IsCameraCollidingWithDuck(n, p, duck, DuckRadius) then GetAdjustedCameraPosition(n, p, duck, DuckRadius)
    else p
  }

  /** Turning left: add the delta, and take off 360 once if the sum reached 360. */
  function TurnLeftAngle(angle: real, delta: real): (r: real)
    ensures angle + delta < 360.0 ==> r == angle + delta
    ensures 360.0 <= angle + delta ==> r == angle + delta - 360.0
    ensures r < 360.0 || 720.0 <= angle + delta
  {
    var a := angle + delta;
    if a >= 360.0 then a - 360.0 else a
  }

  /** Turning right: subtract the delta, and add 360 once if the difference went below 0. */
  function TurnRightAngle(angle: real, delta: real): (r: real)
    ensures 0.0 <= angle - delta ==> r == angle - delta
    ensures angle - delta < 0.0 ==> r == angle - delta + 360.0
    ensures 0.0 <= r || angle - delta < -360.0
  {
    var a := angle - delta;
    if a < 0.0 then a + 360.0 else a
  }

  /** For a heading in [0, 360) and a delta in [0, 360), both turns keep the heading in [0, 360). */
  lemma TurnKeepsHeadingInRange(angle: real, delta: real)
    requires 0.0 <= angle < 360.0 && 0.0 <= delta < 360.0
    ensures 0.0 <= TurnLeftAngle(angle, delta) < 360.0
    ensures 0.0 <= TurnRightAngle(angle, delta) < 360.0
  {
  }

  /** On in-range headings and deltas, turning right undoes turning left and vice versa. */
  lemma TurnsAreInverse(angle: real, delta: real)
    requires 0.0 <= angle < 360.0 && 0.0 <= delta < 360.0
    ensures TurnRightAngle(TurnLeftAngle(angle, delta), delta) == angle
    ensures TurnLeftAngle(TurnRightAngle(angle, delta), delta) == angle
  {
  }

  /** The wrap is a single step: a delta of 720 from heading 0 ends at 360, outside the range. */
  lemma SingleStepWrap()
    ensures TurnLeftAngle(0.0, 720.0) == 360.0
    ensures TurnRightAngle(0.0, 720.0) == -360.0
  {
  }

  /** The vector the Left command moves along: the facing turned a quarter left, keeping its z. */
  function LeftOf(direction: Vec3): Vec3 {
    Vec3(-direction.y, direction.x, direction.z)
  }

  /** The position a command aims for before any correction. */
  function PlannedPosition(cam: Camera, speed: real, dir: Direction): (p: Vec3)
    ensures dir == Forward ==> p == Add(cam.position, Scale(speed / 2.0, cam.direction))
    ensures dir == Backward ==> p == Sub(cam.position, Scale(speed / 2.0, cam.direction))
    ensures dir == Left ==> p == Add(cam.position, Scale(speed / 2.0, LeftOf(cam.direction)))
    ensures dir == Right ==> p == Sub(cam.position, Scale(speed / 2.0, LeftOf(cam.direction)))
    ensures !dir.IsTranslation() ==> p == cam.position
  {
    var step := (d: Vec3) => Vec3(speed * d.x / 2.0, speed * d.y / 2.0, speed * d.z / 2.0);
    match dir
    case Forward => Add(cam.position, step(cam.direction))
    case Backward => Sub(cam.position, step(cam.direction))
    case Left => Add(cam.position, step(LeftOf(cam.direction)))
    case Right => Sub(cam.position, step(LeftOf(cam.direction)))
    case TurnLeft => cam.position
    case TurnRight => cam.position
  }

  /** Backward undoes Forward and Right undoes Left, before corrections. */
  lemma OppositeCommandsCancel(cam: Camera, speed: real)
    ensures PlannedPosition(cam.(position := PlannedPosition(cam, speed, Forward)), speed, Backward) == cam.position
    ensures PlannedPosition(cam.(position := PlannedPosition(cam, speed, Left)), speed, Right) == cam.position
  {
  }

  /** For a horizontal facing, Left moves at right angles to it, by the same distance as Forward. */
  lemma SidestepIsPerpendicular(direction: Vec3)
    requires direction.z == 0.0
    ensures Dot(LeftOf(direction), direction) == 0.0
    ensures SqNorm(LeftOf(direction)) == SqNorm(direction)
  {
  }

  /**
   * Applies one camera command. Translations move the position and keep the
   * heading; turns change the heading and facing and keep the planned
   * position. Either way the position is then corrected against the duck and
   * then clamped to the scene extents, in that order.
   */
  function MoveCamera(n: Numerics, cam: Camera, speed: real, dir: Direction, deltaAngle: real, duckPosition: Vec3): (c: Camera)
    ensures InBounds(c.position)
    ensures c.position == CorrectCameraBoundsPosition(CollisionCorrected(n, PlannedPosition(cam, speed, dir), duckPosition))
    ensures dir.IsTranslation() ==> c.direction == cam.direction && c.viewAngle == cam.viewAngle
    ensures dir == TurnLeft ==>
      c.viewAngle == TurnLeftAngle(cam.viewAngle, deltaAngle) && c.direction == HeadingDirection(n, c.viewAngle)
    ensures dir == TurnRight ==>
      c.viewAngle == TurnRightAngle(cam.viewAngle, deltaAngle) && c.direction == HeadingDirection(n, c.viewAngle)
  {
    var turned :=
      match dir
      case TurnLeft =>
        var a := TurnLeftAngle(cam.viewAngle, deltaAngle);
        cam.(viewAngle := a, direction := HeadingDirection(n, a))
      case TurnRight =>
        var a := TurnRightAngle(cam.viewAngle, deltaAngle);
        cam.(viewAngle := a, direction := HeadingDirection(n, a))
      case _ => cam;
    var planned := PlannedPosition(cam, speed, dir);
    turned.(position := CorrectCameraBoundsPosition(CollisionCorrected(n, planned, duckPosition)))
  }

  /** A move that stays inside the scene and clear of the duck's bare radius lands exactly where planned. */
  lemma UncorrectedMoveIsExact(n: Numerics, cam: Camera, speed: real, dir: Direction, deltaAngle: real, duckPosition: Vec3)
    requires InBounds(PlannedPosition(cam, speed, dir))
    requires DuckRadius <= Length(n, Sub(PlannedPosition(cam, speed, dir), DuckCentre(duckPosition)))
    ensures MoveCamera(n, cam, speed, dir, deltaAngle, duckPosition).position == PlannedPosition(cam, speed, dir)
  {
  }
}
