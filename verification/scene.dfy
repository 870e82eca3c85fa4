/**
 * The scene as a whole: its objects, the camera and scene state, and the
 * per-tick update, the reset and the timer tick that drive it.
 */
module Scene {
  import opened Wrappers
  import opened Vectors
  import opened Settings
  import opened Utils
  import opened Objects
  import opened Config
  import opened Factory
  import opened CameraControl

  /** The scene's objects; a missing object is `None` where the source holds a null pointer. */
  datatype SceneObjects = SceneObjects(
    snowman: Option<Object>,
    amongus: Option<Object>,
    duck: Option<Object>,
    raider: Option<Object>,
    sparkles: Option<Object>,
    couch: Option<Object>,
    diamond: Option<Object>,
    terrainElements: seq<Object>,
    palms: seq<Object>)

  const NoSceneObjects: SceneObjects := SceneObjects(None, None, None, None, None, None, None, [], [])

  /**
   * Everything the callbacks read and write: the scene state, the camera, the
   * objects, the configuration, the renderer's fog flag, whether the
   * pointer-look callback is registered, and whether the program was asked to
   * leave its main loop.
   */
  datatype World = World(
    state: SceneState,
    camera: Camera,
    objects: SceneObjects,
    config: Config,
    useFog: bool,
    pointerLook: bool,
    quit: bool)

  /** What the host supplies: the configuration file's lines and the screen size. */
  datatype Host = Host(configFile: seq<seq<int>>, screenWidth: int, screenHeight: int)

  /** Where reset places the singletons. */
  const DuckStart: Vec3 := Vec3(0.4, 2.0, 0.0)
  const CouchStart: Vec3 := Vec3(1.0, 1.0, 0.0)
  const SnowmanStart: Vec3 := Vec3(2.0, 1.0, 0.1)
  const RaiderStart: Vec3 := Vec3(1.0, 0.0, 0.5)
  const FireStart: Vec3 := Vec3(0.4, 2.0, 0.0)

  /** The camera pose of camera 2. */
  const Camera2Position: Vec3 := Vec3(3.0, 3.0, 0.0)
  const Camera2Direction: Vec3 := Vec3(-1.0, 0.0, 0.0)

  /** The camera mode that free movement with the keys applies to. */
  const FreeCameraNum: int := 4
  /** The camera mode that rides with the raider. */
  const RaiderCameraNum: int := 5
  /** The heading reset gives the camera. */
  const ResetViewAngle: real := 90.0

  /** The objects the callbacks dereference exist, and the palm list covers the palm count. */
  predicate Ready(w: World) {
    && w.objects.raider.Some?
    && w.objects.duck.Some?
    && w.objects.couch.Some?
    && w.objects.sparkles.Some?
    && w.objects.snowman.Some?
    && w.objects.diamond.Some?
    && 0 <= w.config.numPalms <= |w.objects.palms|
  }

  /** What every reachable world satisfies. */
  predicate Invariant(w: World) {
    && Ready(w)
    && w.useFog == w.state.fogOn
    && InBounds(w.camera.position)
  }

  /** Creates one object of type `t` per position, in order. */
  function CreateAll(t: ObjectType, positions: seq<Vec3>, cfg: Config, elapsed: real, n: Numerics): (r: seq<Object>)
    ensures |r| == |positions|
    ensures forall i :: 0 <= i < |positions| ==> r[i] == Create(t, positions[i], cfg, elapsed, n)
  {
    seq(|positions|, i requires 0 <= i < |positions| => Create(t, positions[i], cfg, elapsed, n))
  }

  /**
   * Drops the objects: both lists are emptied and every singleton except the
   * diamond is cleared; the diamond is left for the next reset to replace.
   */
  function DeleteObjects(o: SceneObjects): (r: SceneObjects)
    ensures r.terrainElements == [] && r.palms == []
    ensures r.snowman.None? && r.amongus.None? && r.duck.None? && r.raider.None? && r.sparkles.None? && r.couch.None?
    ensures r.diamond == o.diamond
  {
    NoSceneObjects.(diamond := o.diamond)
  }

  /**
   * Restarts the scene: reloads the configuration, drops the objects and
   * recreates them, parks the camera at the origin with heading 90 in camera
   * mode 4 with free look off, releases every key and resets the toggles. The
   * facing is computed from the heading held before the reset, not from 90.
   */
  function ResetScene(w: World, host: Host, n: Numerics): (r: World)
    ensures r.config == LoadConfig(w.config, host.configFile)
    ensures r.state.cameraNum == FreeCameraNum && !r.state.freeCameraMode
    ensures r.state.keyMap == NoKeysPressed
    ensures r.camera.position == Zero && r.camera.viewAngle == ResetViewAngle
    ensures r.camera.direction == HeadingDirection(n, w.camera.viewAngle)
    ensures w.state.freeCameraMode ==> !r.pointerLook
    ensures !w.state.freeCameraMode ==> r.pointerLook == w.pointerLook
    ensures !r.state.fogOn && !r.useFog && !r.state.sparklesOn && r.state.sunOn
    ensures !r.state.amongusOn && !r.state.flashlightOn
    ensures r.objects.amongus.None?
    ensures var elapsed := w.state.elapsedTime;
      && r.objects.raider == Some(Create(Raider, RaiderStart, r.config, elapsed, n))
      && r.objects.sparkles == Some(Create(Fire, FireStart, r.config, elapsed, n))
      && r.objects.duck == Some(Create(Duck, DuckStart, r.config, elapsed, n))
      && r.objects.diamond == Some(Create(Diamond, Zero, r.config, elapsed, n))
      && r.objects.couch == Some(Create(Couch, CouchStart, r.config, elapsed, n))
      && r.objects.snowman == Some(Create(Snowman, SnowmanStart, r.config, elapsed, n))
    ensures |r.objects.terrainElements| == |TerrainElPositions| && |r.objects.palms| == |PalmsPositions|
    ensures forall i :: 0 <= i < |TerrainElPositions| ==>
      r.objects.terrainElements[i] == Create(TerrainElement, TerrainElPositions[i], r.config, w.state.elapsedTime, n)
    ensures forall i :: 0 <= i < |PalmsPositions| ==>
      r.objects.palms[i] == Create(Palm, PalmsPositions[i], r.config, w.state.elapsedTime, n)
    ensures r.state.elapsedTime == w.state.elapsedTime && r.state.movementSpeed == w.state.movementSpeed
    ensures r.quit == w.quit
    ensures Invariant(r)
  {
    var cfg := LoadConfig(w.config, host.configFile);
    var objs := DeleteObjects(w.objects);
    var elapsed := w.state.elapsedTime;
    var lookOn := if w.state.freeCameraMode then false else w.pointerLook;
    var state := w.state.(
      freeCameraMode := false,
      cameraNum := FreeCameraNum,
      keyMap := NoKeysPressed,
      fogOn := false,
      sparklesOn := false,
      sunOn := true,
      amongusOn := false,
      flashlightOn := false);
    var camera := Camera(Zero, HeadingDirection(n, w.camera.viewAngle), ResetViewAngle);
    var raider := if objs.raider.None? then Some(Create(Raider, RaiderStart, cfg, elapsed, n)) else objs.raider;
    var sparkles := if objs.sparkles.None? then Some(Create(Fire, FireStart, cfg, elapsed, n)) else objs.sparkles;
    var terrain := CreateAll(TerrainElement, TerrainElPositions, cfg, elapsed, n);
    var palms := CreateAll(Palm, PalmsPositions, cfg, elapsed, n);
    assert objs.terrainElements + terrain == terrain && objs.palms + palms == palms;
    var objects := objs.(
      duck := Some(Create(Duck, DuckStart, cfg, elapsed, n)),
      diamond := Some(Create(Diamond, Zero, cfg, elapsed, n)),
      couch := Some(Create(Couch, CouchStart, cfg, elapsed, n)),
      snowman := Some(Create(Snowman, SnowmanStart, cfg, elapsed, n)),
      raider := raider,
      terrainElements := objs.terrainElements + terrain,
      palms := objs.palms + palms,
      sparkles := sparkles);
    World(state, camera, objects, cfg, false, lookOn, w.quit)
  }

  /** The world the program starts in: the configuration loaded once, then a reset. */
  function Startup(host: Host, n: Numerics): (r: World)
    ensures Invariant(r)
    ensures r.state.cameraNum == FreeCameraNum && !r.pointerLook && !r.quit
  {
    var initial := World(DefaultSceneState, DefaultCamera, NoSceneObjects,
                         LoadConfig(UnloadedConfig, host.configFile), false, false, false);
    ResetScene(initial, host, n)
  }

  /** At startup the heading is 90 but the facing is the heading-0 facing, +x. */
  lemma StartupFacingLagsHeading(host: Host, n: Numerics)
    requires n.cos(0.0) == 1.0 && n.sin(0.0) == 0.0
    ensures Startup(host, n).camera.viewAngle == 90.0
    ensures Startup(host, n).camera.direction == Vec3(1.0, 0.0, 0.0)
  {
  }

  /** Reset replaces the raider even when one exists: the "create only if absent" test never keeps the old one. */
  lemma ResetAlwaysRecreatesRaider(w: World, host: Host, n: Numerics)
    requires w.objects.raider.Some?
    ensures ResetScene(w, host, n).objects.raider.value.startTime == w.state.elapsedTime
    ensures ResetScene(w, host, n).objects.raider.value.position == RaiderStart
  {
  }

  /** Moves the camera by one command, colliding with the duck where it stands now. */
  function MoveWorldCamera(w: World, dir: Direction, deltaAngle: real, n: Numerics): (r: World)
    requires w.objects.duck.Some?
    ensures r == w.(camera := r.camera)
    ensures r.camera == MoveCamera(n, w.camera, w.state.movementSpeed, dir, deltaAngle, w.objects.duck.value.position)
  {
    w.(camera := MoveCamera(n, w.camera, w.state.movementSpeed, dir, deltaAngle, w.objects.duck.value.position))
  }

  /** How far round its orbit the raider is at scene time `elapsed`, in radians. */
  function OrbitPhase(raider: Object, elapsed: real): real { elapsed * raider.speed }

  /** The raider's orbit at scene time `elapsed`: a unit circle at height 1, flown at the raider's speed. */
  function RaiderOnOrbit(raider: Object, elapsed: real, n: Numerics): (o: Object)
    ensures o.position.z == 1.0 && o.speed == raider.speed && o.size == raider.size
    ensures o == raider.(position := o.position, direction := o.direction)
  {
    var t := OrbitPhase(raider, elapsed);
    raider.(position := Vec3(n.sin(t), n.cos(t), 1.0), direction := n.normalize(Vec3(-n.cos(t), n.sin(t), 0.0)))
  }

  /** With exact sine and cosine the raider flies on the unit circle around the z axis, so inside the scene. */
  lemma RaiderOrbitInsideScene(raider: Object, elapsed: real, n: Numerics)
    requires var t := OrbitPhase(raider, elapsed); n.sin(t) * n.sin(t) + n.cos(t) * n.cos(t) == 1.0
    ensures var p := RaiderOnOrbit(raider, elapsed, n).position; p.x * p.x + p.y * p.y == 1.0
    ensures InBounds(RaiderOnOrbit(raider, elapsed, n).position)
  {
    var t := OrbitPhase(raider, elapsed);
    var s := n.sin(t);
    var c := n.cos(t);
    UnitSquareBound(s, c);
    UnitSquareBound(c, s);
  }

  lemma UnitSquareBound(a: real, b: real)
    requires a * a + b * b == 1.0
    ensures -1.0 <= a <= 1.0
  {
    assert 0.0 <= b * b;
    if a > 1.0 { SquareStrictlyMonotone(1.0, a); }
    if a < -1.0 { SquareStrictlyMonotone(1.0, -a); }
  }

  /** At scene time 0 the raider is at (0, 1, 1) heading along -x. */
  lemma RaiderAtTimeZero(raider: Object, n: Numerics)
    requires n.sin(0.0) == 0.0 && n.cos(0.0) == 1.0
    requires n.normalize(Vec3(-1.0, 0.0, 0.0)) == Vec3(-1.0, 0.0, 0.0)
    ensures RaiderOnOrbit(raider, 0.0, n).position == Vec3(0.0, 1.0, 1.0)
    ensures RaiderOnOrbit(raider, 0.0, n).direction == Vec3(-1.0, 0.0, 0.0)
  {
  }

  /** What the camera half of the per-tick update decides: the camera and three flags. */
  datatype Reconciled = Reconciled(camera: Camera, freeCameraMode: bool, flashlightOn: bool, pointerLook: bool)

  /**
   * The camera half of the per-tick update: pins the camera for modes 1 and
   * 2, rides along with the raider (as it was before this tick) in mode 5,
   * and switches free look on in every other mode.
   */
  function ReconcileCamera(w: World): (r: Reconciled)
    requires w.objects.raider.Some?
    ensures r.camera.viewAngle == w.camera.viewAngle
    ensures w.state.cameraNum == 1 ==>
      r.camera.position == Zero && r.camera.direction == Zero && !r.freeCameraMode && !r.pointerLook
    ensures w.state.cameraNum == 2 ==>
      && r.camera.position == Camera2Position && r.camera.direction == Camera2Direction
      && !r.freeCameraMode && !r.pointerLook
    ensures w.state.cameraNum == RaiderCameraNum ==>
      && r.camera.position == w.objects.raider.value.position
      && r.camera.direction == w.objects.raider.value.direction
      && !r.flashlightOn && !r.freeCameraMode && r.pointerLook == w.pointerLook
    ensures w.state.cameraNum !in {1, 2, RaiderCameraNum} ==>
      r.camera == w.camera && r.freeCameraMode && r.pointerLook == w.pointerLook
    ensures w.state.cameraNum != RaiderCameraNum ==> r.flashlightOn == w.state.flashlightOn
  {
    var raider := w.objects.raider.value;
    var cam := w.camera;
    var flash := w.state.flashlightOn;
    if w.state.cameraNum == 1 then
      Reconciled(cam.(position := Zero, direction := Zero), false, flash, false)
    else if w.state.cameraNum == 2 then
      Reconciled(cam.(position := Camera2Position, direction := Camera2Direction), false, flash, false)
    else if w.state.cameraNum == RaiderCameraNum then
      Reconciled(cam.(position := raider.position, direction := raider.direction), false, false, w.pointerLook)
    else
      Reconciled(cam, true, flash, w.pointerLook)
  }

  /** The object half of the per-tick update: the raider flies its orbit and the fire's clock advances. */
  function AdvanceObjects(o: SceneObjects, elapsed: real, n: Numerics): (r: SceneObjects)
    requires o.raider.Some?
    ensures r.raider == Some(RaiderOnOrbit(o.raider.value, elapsed, n))
    ensures r.sparkles.Some? <==> o.sparkles.Some?
    ensures o.sparkles.Some? ==> r.sparkles.value == o.sparkles.value.(currentTime := elapsed)
    ensures r == o.(raider := r.raider, sparkles := r.sparkles)
  {
    var sparkles := if o.sparkles.Some? then Some(o.sparkles.value.(currentTime := elapsed)) else None;
    o.(raider := Some(RaiderOnOrbit(o.raider.value, elapsed, n)), sparkles := sparkles)
  }

  /** The per-tick update: camera reconciliation, then the bounds clamp, then the objects. */
  function UpdateScene(w: World, elapsed: real, n: Numerics): (r: World)
    requires w.objects.raider.Some?
    ensures InBounds(r.camera.position)
    ensures var c := ReconcileCamera(w);
      && r.camera == c.camera.(position := CorrectCameraBoundsPosition(c.camera.position))
      && r.state == w.state.(freeCameraMode := c.freeCameraMode, flashlightOn := c.flashlightOn)
      && r.pointerLook == c.pointerLook
    ensures r.objects == AdvanceObjects(w.objects, elapsed, n)
    ensures r.config == w.config && r.useFog == w.useFog && r.quit == w.quit
  {
    var c := ReconcileCamera(w);
    w.(camera := c.camera.(position := CorrectCameraBoundsPosition(c.camera.position)),
       state := w.state.(freeCameraMode := c.freeCameraMode, flashlightOn := c.flashlightOn),
       pointerLook := c.pointerLook,
       objects := AdvanceObjects(w.objects, elapsed, n))
  }

  /** The pinned poses survive the clamp: modes 1 and 2 end exactly at their fixed poses. */
  lemma PinnedPosesAfterUpdate(w: World, elapsed: real, n: Numerics)
    requires w.objects.raider.Some?
    requires w.state.cameraNum in {1, 2}
    ensures var r := UpdateScene(w, elapsed, n);
      && !r.state.freeCameraMode && !r.pointerLook
      && (w.state.cameraNum == 1 ==> r.camera.position == Zero && r.camera.direction == Zero)
      && (w.state.cameraNum == 2 ==> r.camera.position == Camera2Position && r.camera.direction == Camera2Direction)
  {
  }

  /** The command each movement key gives in free-camera mode. */
  function KeyDirection(k: KeyIndex): (d: Direction)
    ensures d.IsTranslation()
    ensures k == KeyUpArrow ==> d == Forward
    ensures k == KeyDownArrow ==> d == Backward
    ensures k == KeyRightArrow ==> d == Right
    ensures k == KeyLeftArrow ==> d == Left
  {
    match k
    case KeyUpArrow => Forward
    case KeyDownArrow => Backward
    case KeyRightArrow => Right
    case KeyLeftArrow => Left
  }

  /** Distinct keys give distinct commands. */
  lemma KeyDirectionInjective(a: KeyIndex, b: KeyIndex)
    ensures KeyDirection(a) == KeyDirection(b) ==> a == b
  {
  }

  /** An order of visiting the four movement keys: each key exactly once. */
  predicate IsKeyOrder(keys: seq<KeyIndex>) {
    |keys| == KeysCount && forall k: KeyIndex :: k in keys
  }

  /** Moves the camera once for every pressed key, visiting the keys in the given order. */
  function ApplyKeyMoves(w: World, keys: seq<KeyIndex>, n: Numerics): (r: World)
    requires w.objects.duck.Some?
    ensures r == w.(camera := r.camera)
    ensures r.camera.direction == w.camera.direction && r.camera.viewAngle == w.camera.viewAngle
    ensures (forall i :: 0 <= i < |keys| ==> !IsPressed(w.state.keyMap, keys[i])) ==> r == w
    ensures (exists i :: 0 <= i < |keys| && IsPressed(w.state.keyMap, keys[i])) ==> InBounds(r.camera.position)
    ensures InBounds(w.camera.position) ==> InBounds(r.camera.position)
    decreases |keys|
  {
    if keys == [] then w
    else
      var next := if IsPressed(w.state.keyMap, keys[0]) then MoveWorldCamera(w, KeyDirection(keys[0]), 0.0, n) else w;
      ApplyKeyMoves(next, keys[1..], n)
  }

  /** With exactly one movement key held, the key pass moves the camera once, in that key's direction. */
  lemma {:induction false} SingleHeldKeyMoves(w: World, keys: seq<KeyIndex>, j: nat, n: Numerics)
    requires w.objects.duck.Some?
    requires j < |keys| && IsPressed(w.state.keyMap, keys[j])
    requires forall i :: 0 <= i < |keys| && i != j ==> !IsPressed(w.state.keyMap, keys[i])
    ensures ApplyKeyMoves(w, keys, n).camera ==
      MoveCamera(n, w.camera, w.state.movementSpeed, KeyDirection(keys[j]), 0.0, w.objects.duck.value.position)
    decreases |keys|
  {
    var rest := keys[1..];
    if j == 0 {
      var next := MoveWorldCamera(w, KeyDirection(keys[0]), 0.0, n);
      assert forall i :: 0 <= i < |rest| ==> !IsPressed(next.state.keyMap, rest[i]) by {
        forall i | 0 <= i < |rest| ensures !IsPressed(next.state.keyMap, rest[i]) {
          assert rest[i] == keys[i + 1];
        }
      }
    } else {
      forall i | 0 <= i < |rest| && i != j - 1 ensures !IsPressed(w.state.keyMap, rest[i]) {
        assert rest[i] == keys[i + 1];
      }
      SingleHeldKeyMoves(w, rest, j - 1, n);
    }
  }

  /** The scene time a timer tick reads: the GLUT millisecond clock scaled to seconds. */
  function SecondsOf(elapsedMs: int): real { 0.001 * elapsedMs as real }

  /** The banner part of a tick: create it the first tick it is enabled, then advance its clock. */
  function BannerTick(w: World, elapsed: real, n: Numerics): (r: World)
    ensures w.state.amongusOn ==> r.objects.amongus.Some?
    ensures !w.state.amongusOn ==> r.objects.amongus.None? == w.objects.amongus.None?
    ensures r.objects.amongus.Some? ==> r.objects.amongus.value.currentTime == elapsed
    ensures w.objects.amongus.None? && w.state.amongusOn ==>
      r.objects.amongus.value.startTime == w.state.elapsedTime && r.objects.amongus.value.size == 3.0
    ensures w.objects.amongus.Some? ==> r.objects.amongus.value == w.objects.amongus.value.(currentTime := elapsed)
    ensures r == w.(objects := w.objects.(amongus := r.objects.amongus))
  {
    var banner :=
      if w.state.amongusOn && w.objects.amongus.None? then Some(Create(Banner, Zero, w.config, w.state.elapsedTime, n))
      else w.objects.amongus;
    var clocked := if banner.Some? then Some(banner.value.(currentTime := elapsed)) else None;
    w.(objects := w.objects.(amongus := clocked))
  }

  /** The first part of a tick: stamp the new time, then in free-camera mode 4 move for the held keys. */
  function ClockAndMove(w: World, elapsed: real, keys: seq<KeyIndex>, n: Numerics): (r: World)
    requires Ready(w)
    ensures r == w.(state := w.state.(elapsedTime := elapsed), camera := r.camera)
    ensures r.camera.viewAngle == w.camera.viewAngle
    ensures w.state.cameraNum != FreeCameraNum ==> r.camera == w.camera
  {
    var clocked := w.(state := w.state.(elapsedTime := elapsed));
    if clocked.state.cameraNum == FreeCameraNum then ApplyKeyMoves(clocked, keys, n) else clocked
  }

  /**
   * One timer tick: reads the clock, moves the camera for the pressed keys
   * when in free-camera mode 4, runs the scene update, registers pointer look
   * when free look is on, and runs the banner part.
   */
  function TimerCb(w: World, elapsedMs: int, keys: seq<KeyIndex>, n: Numerics): (r: World)
    requires Ready(w)
    requires IsKeyOrder(keys)
    ensures Ready(r)
    ensures r.state.elapsedTime == SecondsOf(elapsedMs)
    ensures r.state.freeCameraMode ==> r.pointerLook
    ensures InBounds(r.camera.position)
    ensures r.state.cameraNum == w.state.cameraNum && r.state.keyMap == w.state.keyMap
    ensures r.state.fogOn == w.state.fogOn && r.state.gameOver == w.state.gameOver
    ensures r.config == w.config && r.useFog == w.useFog && r.quit == w.quit
    ensures r.camera.viewAngle == w.camera.viewAngle
    ensures w.state.cameraNum in {1, 2} ==> !r.state.freeCameraMode && !r.pointerLook
    ensures w.state.cameraNum == RaiderCameraNum ==>
      !r.state.freeCameraMode && !r.state.flashlightOn && r.pointerLook == w.pointerLook
    ensures w.state.cameraNum !in {1, 2, RaiderCameraNum} ==> r.state.freeCameraMode && r.pointerLook
  {
    var elapsed := SecondsOf(elapsedMs);
    var moved := ClockAndMove(w, elapsed, keys, n);
    var updated := UpdateScene(moved, elapsed, n);
    var looking := if updated.state.freeCameraMode then updated.(pointerLook := true) else updated;
    assert looking.state == updated.state && looking.camera == updated.camera;
    BannerTick(looking, elapsed, n)
  }

  /**
   * A tick touches only the clock, the free-look flag and the flashlight:
   * the switches, the speed, the window size and the heading are kept.
   */
  lemma TickKeepsSettings(w: World, elapsedMs: int, keys: seq<KeyIndex>, n: Numerics)
    requires Ready(w) && IsKeyOrder(keys)
    ensures var r := TimerCb(w, elapsedMs, keys, n);
      && r.state.sunOn == w.state.sunOn && r.state.sparklesOn == w.state.sparklesOn
      && r.state.amongusOn == w.state.amongusOn && r.state.fullScreen == w.state.fullScreen
      && r.state.movementSpeed == w.state.movementSpeed
      && r.state.windowWidth == w.state.windowWidth && r.state.windowHeight == w.state.windowHeight
  {
    var elapsed := SecondsOf(elapsedMs);
    var moved := ClockAndMove(w, elapsed, keys, n);
    var updated := UpdateScene(moved, elapsed, n);
    var looking := if updated.state.freeCameraMode then updated.(pointerLook := true) else updated;
    assert TimerCb(w, elapsedMs, keys, n) == BannerTick(looking, elapsed, n);
  }

  /**
   * A tick flies the raider to its place on the orbit at the new time,
   * advances the fire's and the banner's clocks to it, and creates the banner
   * on the first tick it is enabled, stamped with that time; the other
   * objects are left as they were.
   */
  lemma TickAdvancesObjects(w: World, elapsedMs: int, keys: seq<KeyIndex>, n: Numerics)
    requires Ready(w) && IsKeyOrder(keys)
    ensures var r := TimerCb(w, elapsedMs, keys, n); var t := SecondsOf(elapsedMs);
      && r.objects.raider == Some(RaiderOnOrbit(w.objects.raider.value, t, n))
      && r.objects.sparkles == Some(w.objects.sparkles.value.(currentTime := t))
      && (w.state.amongusOn ==> r.objects.amongus.Some? && r.objects.amongus.value.currentTime == t)
      && (w.state.amongusOn && w.objects.amongus.None? ==>
            r.objects.amongus.value.startTime == t && r.objects.amongus.value.size == 3.0)
      && (w.objects.amongus.Some? ==> r.objects.amongus == Some(w.objects.amongus.value.(currentTime := t)))
      && (!w.state.amongusOn && w.objects.amongus.None? ==> r.objects.amongus.None?)
      && r.objects.duck == w.objects.duck && r.objects.couch == w.objects.couch
      && r.objects.snowman == w.objects.snowman && r.objects.diamond == w.objects.diamond
      && r.objects.palms == w.objects.palms && r.objects.terrainElements == w.objects.terrainElements
  {
    var elapsed := SecondsOf(elapsedMs);
    var moved := ClockAndMove(w, elapsed, keys, n);
    assert moved.objects == w.objects && moved.state.elapsedTime == elapsed;
    var updated := UpdateScene(moved, elapsed, n);
    var looking := if updated.state.freeCameraMode then updated.(pointerLook := true) else updated;
    assert looking.objects == AdvanceObjects(w.objects, elapsed, n);
    assert looking.state.amongusOn == w.state.amongusOn && looking.state.elapsedTime == elapsed;
    assert TimerCb(w, elapsedMs, keys, n) == BannerTick(looking, elapsed, n);
  }

  /**
   * After a tick the camera sits at the origin in mode 1 and at the fixed
   * pose in mode 2, and in mode 5 rides with the raider as it was before the
   * tick, clamped into the scene.
   */
  lemma TickCameraPoses(w: World, elapsedMs: int, keys: seq<KeyIndex>, n: Numerics)
    requires Ready(w) && IsKeyOrder(keys)
    ensures var r := TimerCb(w, elapsedMs, keys, n);
      && (w.state.cameraNum == 1 ==> r.camera.position == Zero && r.camera.direction == Zero)
      && (w.state.cameraNum == 2 ==> r.camera.position == Camera2Position && r.camera.direction == Camera2Direction)
      && (w.state.cameraNum == RaiderCameraNum ==>
            && r.camera.position == CorrectCameraBoundsPosition(w.objects.raider.value.position)
            && r.camera.direction == w.objects.raider.value.direction)
  {
    var elapsed := SecondsOf(elapsedMs);
    var moved := ClockAndMove(w, elapsed, keys, n);
    assert moved.objects == w.objects && moved.state.cameraNum == w.state.cameraNum;
    var updated := UpdateScene(moved, elapsed, n);
    var looking := if updated.state.freeCameraMode then updated.(pointerLook := true) else updated;
    assert looking.camera == updated.camera;
    assert TimerCb(w, elapsedMs, keys, n) == BannerTick(looking, elapsed, n);
  }

  /** In free-camera mode a tick with one movement key held moves the camera one step in that key's direction. */
  lemma TickMovesHeldKey(w: World, elapsedMs: int, keys: seq<KeyIndex>, j: nat, n: Numerics)
    requires Ready(w) && IsKeyOrder(keys)
    requires w.state.cameraNum == FreeCameraNum
    requires j < |keys| && IsPressed(w.state.keyMap, keys[j])
    requires forall i :: 0 <= i < |keys| && i != j ==> !IsPressed(w.state.keyMap, keys[i])
    ensures TimerCb(w, elapsedMs, keys, n).camera ==
      MoveCamera(n, w.camera, w.state.movementSpeed, KeyDirection(keys[j]), 0.0, w.objects.duck.value.position)
  {
    var clocked := w.(state := w.state.(elapsedTime := SecondsOf(elapsedMs)));
    SingleHeldKeyMoves(clocked, keys, j, n);
  }

  /** Outside free-camera mode the pressed keys do not move the camera. */
  lemma KeysIgnoredOutsideFreeMode(w: World, elapsedMs: int, keys: seq<KeyIndex>, other: seq<KeyIndex>, n: Numerics)
    requires Ready(w) && IsKeyOrder(keys) && IsKeyOrder(other)
    requires w.state.cameraNum != FreeCameraNum
    ensures TimerCb(w, elapsedMs, keys, n) == TimerCb(w, elapsedMs, other, n)
  {
  }
}
