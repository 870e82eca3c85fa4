/** The scene-wide records, enums and the clamp helper shared by the callbacks. */
module Utils {
  import opened Vectors

  /** Number of slots in the key map. */
  const KeysCount: nat := 4

  /** The four movement keys, in the order of their key-map slots. */
  datatype KeyIndex = KeyLeftArrow | KeyRightArrow | KeyUpArrow | KeyDownArrow {
    /** This key's slot in the key map. */
    function Index(): (i: nat)
      ensures i < KeysCount
    {
      match this
      case KeyLeftArrow => 0
      case KeyRightArrow => 1
      case KeyUpArrow => 2
      case KeyDownArrow => 3
    }
  }

  /** The pressed/released flag of every movement key; always exactly KeysCount slots. */
  type KeyMap = m: seq<bool> | |m| == KeysCount witness [false, false, false, false]

  const NoKeysPressed: KeyMap := [false, false, false, false]

  predicate IsPressed(m: KeyMap, k: KeyIndex) { m[k.Index()] }

  /** Records key `k` as pressed or released and leaves every other slot alone. */
  function SetKey(m: KeyMap, k: KeyIndex, down: bool): (r: KeyMap)
    ensures IsPressed(r, k) == down
    ensures forall other: KeyIndex :: other != k ==> IsPressed(r, other) == IsPressed(m, other)
  {
    m[k.Index() := down]
  }

  /** The key that owns slot `i`; the inverse of `Index`. */
  function KeyAtSlot(i: nat): (k: KeyIndex)
    requires i < KeysCount
    ensures k.Index() == i
  {
    if i == 0 then KeyLeftArrow else if i == 1 then KeyRightArrow else if i == 2 then KeyUpArrow else KeyDownArrow
  }

  /** Distinct keys own distinct slots, so the key map has one slot per key. */
  lemma KeySlotsInjective(a: KeyIndex, b: KeyIndex)
    ensures a.Index() == b.Index() ==> a == b
    ensures KeyAtSlot(a.Index()) == a
  {
  }

  /** The camera commands. */
  datatype Direction = Right | Left | Forward | Backward | TurnLeft | TurnRight {
    predicate IsTranslation() { this in {Right, Left, Forward, Backward} }
  }

  /** The process-wide scene state. */
  datatype SceneState = SceneState(
    windowWidth: int,
    windowHeight: int,
    cameraNum: int,
    freeCameraMode: bool,
    movementSpeed: real,
    gameOver: bool,
    keyMap: KeyMap,
    elapsedTime: real,
    flashlightOn: bool,
    sunOn: bool,
    fogOn: bool,
    amongusOn: bool,
    sparklesOn: bool,
    fullScreen: bool)

  /** The initial scene state: camera 1, speed 0.1, windowed, every flag and key off. */
  const DefaultSceneState: SceneState :=
    SceneState(0, 0, 1, false, 0.1, false, NoKeysPressed, 0.0, false, false, false, false, false, false)

  /** The initial scene state selects camera 1 at speed 0.1, windowed, with no key held and every switch off. */
  lemma SceneStateDefaults()
    ensures DefaultSceneState.cameraNum == 1 && DefaultSceneState.movementSpeed == 0.1
    ensures !DefaultSceneState.fullScreen && !DefaultSceneState.freeCameraMode && !DefaultSceneState.gameOver
    ensures forall k: KeyIndex :: !IsPressed(DefaultSceneState.keyMap, k)
    ensures !DefaultSceneState.flashlightOn && !DefaultSceneState.sunOn && !DefaultSceneState.fogOn
    ensures !DefaultSceneState.amongusOn && !DefaultSceneState.sparklesOn
  {
  }

  datatype Camera = Camera(position: Vec3, direction: Vec3, viewAngle: real)

  const DefaultCamera: Camera := Camera(Zero, Zero, 0.0)

  /**
   * The scene's own clamp: `lower` when below it, otherwise `upper` when above
   * that, otherwise the value. Unlike a checked clamp it does not require
   * lower <= upper; with crossed bounds `lower` wins.
   */
  function ClampFromStd(value: real, lower: real, upper: real): (r: real)
    ensures value < lower ==> r == lower
    ensures lower <= value && upper < value ==> r == upper
    ensures lower <= value <= upper ==> r == value
  {
    if value < lower then lower else if value > upper then upper else value
  }

  /** The same clamp instantiated at `int`, as the configuration loader uses it. */
  function ClampFromStdInt(value: int, lower: int, upper: int): (r: int)
    ensures value < lower ==> r == lower
    ensures lower <= value && upper < value ==> r == upper
    ensures lower <= value <= upper ==> r == value
  {
    if value < lower then lower else if value > upper then upper else value
  }

  /** With ordered bounds the clamp lands in the interval and clamping again changes nothing. */
  lemma ClampOrderedBounds(value: real, lower: real, upper: real)
    requires lower <= upper
    ensures lower <= ClampFromStd(value, lower, upper) <= upper
    ensures ClampFromStd(ClampFromStd(value, lower, upper), lower, upper) == ClampFromStd(value, lower, upper)
  {
  }

  lemma ClampIntOrderedBounds(value: int, lower: int, upper: int)
    requires lower <= upper
    ensures lower <= ClampFromStdInt(value, lower, upper) <= upper
    ensures ClampFromStdInt(ClampFromStdInt(value, lower, upper), lower, upper) == ClampFromStdInt(value, lower, upper)
  {
  }

  /** With crossed bounds every value below `lower` maps to `lower`, so the result exceeds `upper`. */
  lemma ClampCrossedBounds(value: real, lower: real, upper: real)
    requires upper < lower && value < lower
    ensures ClampFromStd(value, lower, upper) == lower
    ensures upper < ClampFromStd(value, lower, upper)
  {
  }
}
