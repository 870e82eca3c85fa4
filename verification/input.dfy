/**
 * The window-system callbacks: the right-click menu, the keyboard and
 * special-key handlers, the mouse click and pointer-look handlers, the
 * reshape and full-screen handling and the toggles they share, and one
 * dispatcher that feeds any event to the right callback.
 */
module Input {
  import opened Wrappers
  import opened Vectors
  import opened Settings
  import opened Utils
  import opened Objects
  import opened CameraControl
  import opened Scene

  /** The renderer's fog switch: fog is used exactly when it is asked for. */
  function SetFogState(fogOn: bool): (useFog: bool)
    ensures useFog <==> fogOn
  {
    fogOn
  }

  /**
   * Selects camera mode `mode`. Free look is switched on only for mode 3,
   * which no menu entry or key selects, and pointer look is always switched
   * off; the next timer tick decides free look from the mode.
   */
  function SetCameraMode(w: World, mode: int): (r: World)
    ensures r.state.cameraNum == mode
    ensures r.state.freeCameraMode <==> mode == 3
    ensures !r.pointerLook
    ensures r.state.(cameraNum := w.state.cameraNum, freeCameraMode := w.state.freeCameraMode) == w.state
    ensures r.(state := w.state, pointerLook := w.pointerLook) == w
  {
    w.(state := w.state.(cameraNum := mode, freeCameraMode := mode == 3), pointerLook := false)
  }

  /** Toggles the fire. */
  function SparklesToggle(s: SceneState): (r: SceneState)
    ensures r.sparklesOn != s.sparklesOn
    ensures r.(sparklesOn := s.sparklesOn) == s
  {
    s.(sparklesOn := !s.sparklesOn)
  }

  /** Toggles the flashlight. */
  function FlashlightToggle(s: SceneState): (r: SceneState)
    ensures r.flashlightOn != s.flashlightOn
    ensures r.(flashlightOn := s.flashlightOn) == s
  {
    s.(flashlightOn := !s.flashlightOn)
  }

  /** Toggles the sun. */
  function SunToggle(s: SceneState): (r: SceneState)
    ensures r.sunOn != s.sunOn
    ensures r.(sunOn := s.sunOn) == s
  {
    s.(sunOn := !s.sunOn)
  }

  /** Toggles the banner. */
  function BannerToggle(s: SceneState): (r: SceneState)
    ensures r.amongusOn != s.amongusOn
    ensures r.(amongusOn := s.amongusOn) == s
  {
    s.(amongusOn := !s.amongusOn)
  }

  /** Toggles the fog and passes the new setting on to the renderer. */
  function FogToggle(w: World): (r: World)
    ensures r.state.fogOn != w.state.fogOn
    ensures r.useFog == r.state.fogOn
    ensures r.(state := w.state, useFog := w.useFog) == w
    ensures r.state.(fogOn := w.state.fogOn) == w.state
  {
    var s := w.state.(fogOn := !w.state.fogOn);
    w.(state := s, useFog := SetFogState(s.fogOn))
  }

  /** Each toggle undoes itself, and fog toggled twice leaves the renderer as it was when it was in step. */
  lemma TogglesAreInvolutions(w: World)
    requires w.useFog == w.state.fogOn
    ensures SparklesToggle(SparklesToggle(w.state)) == w.state
    ensures FlashlightToggle(FlashlightToggle(w.state)) == w.state
    ensures SunToggle(SunToggle(w.state)) == w.state
    ensures BannerToggle(BannerToggle(w.state)) == w.state
    ensures FogToggle(FogToggle(w)) == w
  {
  }

  /**
   * Toggles full screen. Entering it takes the host's screen size; leaving
   * it restores the default window size, not the size the window had.
   */
  function FullScreenToggle(s: SceneState, host: Host): (r: SceneState)
    ensures r.fullScreen != s.fullScreen
    ensures !s.fullScreen ==> r.windowWidth == host.screenWidth && r.windowHeight == host.screenHeight
    ensures s.fullScreen ==> r.windowWidth == WindowWidth && r.windowHeight == WindowHeight
    ensures r.(fullScreen := s.fullScreen, windowWidth := s.windowWidth, windowHeight := s.windowHeight) == s
  {
    if !s.fullScreen then
      s.(windowHeight := host.screenHeight, windowWidth := host.screenWidth, fullScreen := true)
    else
      s.(windowHeight := WindowHeight, windowWidth := WindowWidth, fullScreen := false)
  }

  /** Entering and leaving full screen ends windowed at the default size, whatever size the window had. */
  lemma FullScreenRoundTripResetsSize(s: SceneState, host: Host)
    requires !s.fullScreen
    ensures var r := FullScreenToggle(FullScreenToggle(s, host), host);
      && !r.fullScreen && r.windowWidth == WindowWidth && r.windowHeight == WindowHeight
      && r.(windowWidth := s.windowWidth, windowHeight := s.windowHeight) == s
  {
  }

  /** A window resize records the new size and nothing else. */
  function ReshapeCb(s: SceneState, newWidth: int, newHeight: int): (r: SceneState)
    ensures r.windowWidth == newWidth && r.windowHeight == newHeight
    ensures r.(windowWidth := s.windowWidth, windowHeight := s.windowHeight) == s
  {
    s.(windowWidth := newWidth, windowHeight := newHeight)
  }

  /**
   * The menu: entries 1, 2, 4 and 5 select a camera mode, 3 leaves the
   * program, 6 to 10 toggle the flashlight, sun, fog, fire and banner, 11
   * resets the scene; any other choice does nothing.
   */
  function HandleGameMenuChoice(w: World, choice: int, host: Host, n: Numerics): (r: World)
    ensures choice in {1, 2, 4, 5} ==> r == SetCameraMode(w, choice)
    ensures choice == 3 ==> r.quit && r.(quit := w.quit) == w
    ensures choice == 6 ==> r == w.(state := FlashlightToggle(w.state))
    ensures choice == 7 ==> r == w.(state := SunToggle(w.state))
    ensures choice == 8 ==> r == FogToggle(w)
    ensures choice == 9 ==> r == w.(state := SparklesToggle(w.state))
    ensures choice == 10 ==> r == w.(state := BannerToggle(w.state))
    ensures choice == 11 ==> r == ResetScene(w, host, n)
    ensures !(1 <= choice <= 11) ==> r == w
  {
    match choice
    case 1 => SetCameraMode(w, 1)
    case 2 => SetCameraMode(w, 2)
    case 3 => w.(quit := true)
    case 4 => SetCameraMode(w, 4)
    case 5 => SetCameraMode(w, 5)
    case 6 => w.(state := FlashlightToggle(w.state))
    case 7 => w.(state := SunToggle(w.state))
    case 8 => FogToggle(w)
    case 9 => w.(state := SparklesToggle(w.state))
    case 10 => w.(state := BannerToggle(w.state))
    case 11 => ResetScene(w, host, n)
    case _ => w
  }

  /** The movement key a letter key presses, if any: w, s, a and d stand for up, down, left and right. */
  function LetterKey(key: char): (k: Option<KeyIndex>)
    ensures k == Some(KeyUpArrow) <==> key == WKey
    ensures k == Some(KeyDownArrow) <==> key == SKey
    ensures k == Some(KeyLeftArrow) <==> key == AKey
    ensures k == Some(KeyRightArrow) <==> key == DKey
  {
    if key == WKey then Some(KeyUpArrow)
    else if key == SKey then Some(KeyDownArrow)
    else if key == AKey then Some(KeyLeftArrow)
    else if key == DKey then Some(KeyRightArrow)
    else None
  }

  /** A key press: Escape leaves the main loop, w, s, a and d press a movement key, other keys do nothing. */
  function KeyboardCb(w: World, key: char): (r: World)
    ensures key == EscKey ==> r == w.(quit := true)
    ensures LetterKey(key).Some? ==>
      && IsPressed(r.state.keyMap, LetterKey(key).value)
      && r == w.(state := w.state.(keyMap := SetKey(w.state.keyMap, LetterKey(key).value, true)))
    ensures key != EscKey && LetterKey(key).None? ==> r == w
  {
    if key == EscKey then w.(quit := true)
    else match LetterKey(key)
      case Some(k) => w.(state := w.state.(keyMap := SetKey(w.state.keyMap, k, true)))
      case None => w
  }

  /**
   * A key release: w, s, a and d release a movement key; f, g, b, h and j
   * toggle the flashlight, fog, banner, sun and fire; p toggles full screen;
   * r resets the scene; other keys do nothing.
   */
  function KeyboardUpCb(w: World, key: char, host: Host, n: Numerics): (r: World)
    ensures LetterKey(key).Some? ==>
      && !IsPressed(r.state.keyMap, LetterKey(key).value)
      && r == w.(state := w.state.(keyMap := SetKey(w.state.keyMap, LetterKey(key).value, false)))
    ensures key == FKey ==> r == w.(state := FlashlightToggle(w.state))
    ensures key == GKey ==> r == FogToggle(w)
    ensures key == BKey ==> r == w.(state := BannerToggle(w.state))
    ensures key == HKey ==> r == w.(state := SunToggle(w.state))
    ensures key == JKey ==> r == w.(state := SparklesToggle(w.state))
    ensures key == PKey ==> r == w.(state := FullScreenToggle(w.state, host))
    ensures key == RKey ==> r == ResetScene(w, host, n)
    ensures LetterKey(key).None? && key !in {FKey, GKey, BKey, HKey, JKey, PKey, RKey} ==> r == w
  {
    match LetterKey(key)
    case Some(k) => w.(state := w.state.(keyMap := SetKey(w.state.keyMap, k, false)))
    case None =>
      if key == FKey then w.(state := FlashlightToggle(w.state))
      else if key == GKey then FogToggle(w)
      else if key == BKey then w.(state := BannerToggle(w.state))
      else if key == HKey then w.(state := SunToggle(w.state))
      else if key == JKey then w.(state := SparklesToggle(w.state))
      else if key == PKey then w.(state := FullScreenToggle(w.state, host))
      else if key == RKey then ResetScene(w, host, n)
      else w
  }

  /** Pressing a movement letter and releasing it again leaves the key map as it was when the key was up. */
  lemma LetterPressReleaseRoundTrip(w: World, key: char, host: Host, n: Numerics)
    requires LetterKey(key).Some? && !IsPressed(w.state.keyMap, LetterKey(key).value)
    ensures KeyboardUpCb(KeyboardCb(w, key), key, host, n) == w
  {
    var k := LetterKey(key).value;
    var pressed := KeyboardCb(w, key);
    assert SetKey(pressed.state.keyMap, k, false) == w.state.keyMap;
  }

  /** Each toggling menu entry and reset does what the matching released key does. */
  lemma MenuMatchesKeys(w: World, host: Host, n: Numerics)
    ensures HandleGameMenuChoice(w, 6, host, n) == KeyboardUpCb(w, FKey, host, n)
    ensures HandleGameMenuChoice(w, 7, host, n) == KeyboardUpCb(w, HKey, host, n)
    ensures HandleGameMenuChoice(w, 8, host, n) == KeyboardUpCb(w, GKey, host, n)
    ensures HandleGameMenuChoice(w, 9, host, n) == KeyboardUpCb(w, JKey, host, n)
    ensures HandleGameMenuChoice(w, 10, host, n) == KeyboardUpCb(w, BKey, host, n)
    ensures HandleGameMenuChoice(w, 11, host, n) == KeyboardUpCb(w, RKey, host, n)
  {
  }

  /** The keys GLUT reports through the special-key callbacks that the program tells apart. */
  datatype SpecialKey = Arrow(key: KeyIndex) | F1 | F2 | F3 | F4 | OtherSpecial

  /** The camera mode a function key selects: F1, F2, F3 and F4 select modes 1, 2, 4 and 5. */
  function FunctionKeyMode(k: SpecialKey): (mode: Option<int>)
    ensures mode.Some? <==> k in {F1, F2, F3, F4}
    ensures k == F1 ==> mode == Some(1)
    ensures k == F2 ==> mode == Some(2)
    ensures k == F3 ==> mode == Some(FreeCameraNum)
    ensures k == F4 ==> mode == Some(RaiderCameraNum)
  {
    match k
    case F1 => Some(1)
    case F2 => Some(2)
    case F3 => Some(FreeCameraNum)
    case F4 => Some(RaiderCameraNum)
    case _ => None
  }

  /** A special key press: an arrow presses its movement key, unless the game is over. */
  function SpecialKeyboardCb(w: World, k: SpecialKey): (r: World)
    ensures w.state.gameOver || !k.Arrow? ==> r == w
    ensures !w.state.gameOver && k.Arrow? ==>
      r == w.(state := w.state.(keyMap := SetKey(w.state.keyMap, k.key, true)))
  {
    if w.state.gameOver then w
    else match k
      case Arrow(key) => w.(state := w.state.(keyMap := SetKey(w.state.keyMap, key, true)))
      case _ => w
  }

  /**
   * A special key release, ignored once the game is over: an arrow releases
   * its movement key, and F1 to F4 set the camera mode number alone, leaving
   * free look and pointer look for the next tick to settle.
   */
  function SpecialKeyboardUpCb(w: World, k: SpecialKey): (r: World)
    ensures w.state.gameOver ==> r == w
    ensures !w.state.gameOver && k.Arrow? ==>
      r == w.(state := w.state.(keyMap := SetKey(w.state.keyMap, k.key, false)))
    ensures !w.state.gameOver && FunctionKeyMode(k).Some? ==>
      r == w.(state := w.state.(cameraNum := FunctionKeyMode(k).value))
    ensures k == OtherSpecial ==> r == w
  {
    if w.state.gameOver then w
    else match k
      case Arrow(key) => w.(state := w.state.(keyMap := SetKey(w.state.keyMap, key, false)))
      case OtherSpecial => w
      case _ => w.(state := w.state.(cameraNum := FunctionKeyMode(k).value))
  }

  /**
   * A function key and the menu entry for the same mode differ: the key keeps
   * the pointer-look registration, the menu drops it. For modes 1, 2 and 4 the
   * next tick makes them agree again.
   */
  lemma FunctionKeyAgreesWithMenuAfterTick(w: World, k: SpecialKey, elapsedMs: int, keys: seq<KeyIndex>, host: Host, n: Numerics)
    requires Ready(w) && IsKeyOrder(keys) && !w.state.gameOver
    requires k in {F1, F2, F3}
    ensures var viaKey := TimerCb(SpecialKeyboardUpCb(w, k), elapsedMs, keys, n);
      var viaMenu := TimerCb(HandleGameMenuChoice(w, FunctionKeyMode(k).value, host, n), elapsedMs, keys, n);
      viaKey.pointerLook == viaMenu.pointerLook && viaKey.state.freeCameraMode == viaMenu.state.freeCameraMode
  {
    var mode := FunctionKeyMode(k).value;
    var byKey := SpecialKeyboardUpCb(w, k);
    var byMenu := HandleGameMenuChoice(w, mode, host, n);
    assert byKey.state.cameraNum == mode && byKey.objects == w.objects && byKey.config == w.config;
    assert byMenu == SetCameraMode(w, mode);
    assert byMenu.state.cameraNum == mode && byMenu.objects == w.objects && byMenu.config == w.config;
  }

  /** For the raider camera they do not: a registered pointer look survives F4 and its tick, but not the menu entry. */
  lemma RaiderKeyKeepsPointerLook(w: World, elapsedMs: int, keys: seq<KeyIndex>, host: Host, n: Numerics)
    requires Ready(w) && IsKeyOrder(keys) && !w.state.gameOver && w.pointerLook
    ensures TimerCb(SpecialKeyboardUpCb(w, F4), elapsedMs, keys, n).pointerLook
    ensures !TimerCb(HandleGameMenuChoice(w, 5, host, n), elapsedMs, keys, n).pointerLook
  {
    var byKey := SpecialKeyboardUpCb(w, F4);
    var byMenu := HandleGameMenuChoice(w, 5, host, n);
    assert byKey.state.cameraNum == RaiderCameraNum && byKey.objects == w.objects && byKey.pointerLook;
    assert byMenu == SetCameraMode(w, RaiderCameraNum);
    assert byMenu.objects == w.objects && !byMenu.pointerLook;
  }

  /** Choosing camera 4 from the menu leaves free look off until the next tick turns it on. */
  lemma FreeCameraWaitsForTick(w: World, elapsedMs: int, keys: seq<KeyIndex>, host: Host, n: Numerics)
    requires Ready(w) && IsKeyOrder(keys)
    ensures !HandleGameMenuChoice(w, 4, host, n).state.freeCameraMode
    ensures var r := TimerCb(HandleGameMenuChoice(w, 4, host, n), elapsedMs, keys, n);
      r.state.freeCameraMode && r.pointerLook
  {
  }

  /**
   * A left click picks by the stencil value under the pointer: 1 (the
   * snowman) toggles the fire, 2 (the raider) selects the raider camera, 4
   * (the couch) shrinks the couch to nothing; every other click does nothing.
   */
  function MouseCb(w: World, leftButton: bool, down: bool, stencil: int): (r: World)
    requires w.objects.couch.Some?
    ensures !(leftButton && down) || stencil !in {1, 2, 4} ==> r == w
    ensures leftButton && down && stencil == 1 ==> r == w.(state := SparklesToggle(w.state))
    ensures leftButton && down && stencil == 2 ==> r == SetCameraMode(w, RaiderCameraNum)
    ensures leftButton && down && stencil == 4 ==>
      && r.objects.couch.Some? && r.objects.couch.value.size == 0.0
      && r == w.(objects := w.objects.(couch := Some(w.objects.couch.value.(size := 0.0))))
  {
    if leftButton && down then
      if stencil == 1 then w.(state := SparklesToggle(w.state))
      else if stencil == 2 then SetCameraMode(w, RaiderCameraNum)
      else if stencil == 4 then w.(objects := w.objects.(couch := Some(w.objects.couch.value.(size := 0.0))))
      else w
    else w
  }

  /** Picking the raider is the same as choosing the raider camera from the menu. */
  lemma PickRaiderIsMenuRaiderCamera(w: World, host: Host, n: Numerics)
    requires w.objects.couch.Some?
    ensures MouseCb(w, true, true, 2) == HandleGameMenuChoice(w, 5, host, n)
  {
  }

  /** C's integer division by two, which rounds toward zero. */
  function HalfTowardZero(x: int): (h: int)
    ensures 0 <= x ==> 0 <= h && x - 1 <= 2 * h <= x
    ensures x < 0 ==> h <= 0 && x <= 2 * h <= x + 1
  {
    if x >= 0 then x / 2 else -((-x) / 2)
  }

  /** The size of a real number. */
  function Abs(x: real): (a: real)
    ensures 0.0 <= a && (a == x || a == -x)
  {
    if x < 0.0 then -x else x
  }

  /**
   * Pointer look: a pointer left of the window's centre column turns the
   * camera left, one right of it turns it right, by half the pixel distance
   * in degrees; a pointer on the centre column does nothing. Warping the
   * pointer back to the centre is left to the host.
   */
  function PassiveMouseMotionCb(w: World, mouseX: int, mouseY: int, n: Numerics): (r: World)
    requires w.objects.duck.Some?
    ensures r == w.(camera := r.camera)
    ensures var centre := HalfTowardZero(w.state.windowWidth);
      && (mouseX == centre ==> r == w)
      && (mouseX < centre ==>
            r.camera == MoveCamera(n, w.camera, w.state.movementSpeed, TurnLeft, 0.5 * (centre - mouseX) as real, w.objects.duck.value.position))
      && (mouseX > centre ==>
            r.camera == MoveCamera(n, w.camera, w.state.movementSpeed, TurnRight, 0.5 * (mouseX - centre) as real, w.objects.duck.value.position))
  {
    var centre := HalfTowardZero(w.state.windowWidth);
    if mouseX != centre then
      var delta := 0.5 * (mouseX - centre) as real;
      var dir := if delta < 0.0 then TurnLeft else TurnRight;
      MoveWorldCamera(w, dir, Abs(delta), n)
    else w
  }

  /**
   * Pointer moves mirrored about the centre column cancel: for an in-range
   * heading and a distance under 720 pixels, moving right then left (or left
   * then right) restores the heading.
   */
  lemma MirroredPointerMovesCancel(w: World, d: int, n: Numerics)
    requires w.objects.duck.Some?
    requires 0.0 <= w.camera.viewAngle < 360.0 && 0 <= d < 720
    ensures var centre := HalfTowardZero(w.state.windowWidth);
      PassiveMouseMotionCb(PassiveMouseMotionCb(w, centre + d, 0, n), centre - d, 0, n).camera.viewAngle == w.camera.viewAngle
    ensures var centre := HalfTowardZero(w.state.windowWidth);
      PassiveMouseMotionCb(PassiveMouseMotionCb(w, centre - d, 0, n), centre + d, 0, n).camera.viewAngle == w.camera.viewAngle
  {
    var centre := HalfTowardZero(w.state.windowWidth);
    if d != 0 {
      var delta := 0.5 * d as real;
      TurnsAreInverse(w.camera.viewAngle, delta);
      var right := PassiveMouseMotionCb(w, centre + d, 0, n);
      assert right.camera.viewAngle == TurnRightAngle(w.camera.viewAngle, delta);
      assert right.state == w.state;
      var left := PassiveMouseMotionCb(w, centre - d, 0, n);
      assert left.camera.viewAngle == TurnLeftAngle(w.camera.viewAngle, delta);
      assert left.state == w.state;
    }
  }

  /** Everything the window system can deliver to the program. */
  datatype Event =
    | KeyDown(key: char)
    | KeyUp(key: char)
    | SpecialDown(special: SpecialKey)
    | SpecialUp(special: SpecialKey)
    | MouseButton(leftButton: bool, down: bool, stencil: int)
    | PointerMotion(x: int, y: int)
    | MenuChoice(choice: int)
    | Reshape(width: int, height: int)
    | Tick(elapsedMs: int, keys: seq<KeyIndex>)

  /**
   * Delivers one event. Once the program has been asked to quit no callback
   * runs; pointer motion reaches the program only while pointer look is
   * registered.
   */
  function Step(w: World, e: Event, host: Host, n: Numerics): (r: World)
    requires Ready(w)
    requires e.Tick? ==> IsKeyOrder(e.keys)
    ensures w.quit ==> r == w
    ensures e.PointerMotion? && !w.pointerLook ==> r == w
    ensures !w.quit && e.PointerMotion? && w.pointerLook ==> r == PassiveMouseMotionCb(w, e.x, e.y, n)
    ensures !w.quit && e.Tick? ==> r.state.elapsedTime == SecondsOf(e.elapsedMs) && InBounds(r.camera.position)
    ensures !w.quit && e.Reshape? ==> r.state.windowWidth == e.width && r.state.windowHeight == e.height
    ensures !w.quit && e.KeyDown? && e.key == EscKey ==> r.quit
    ensures Ready(r)
  {
    if w.quit then w
    else match e
      case KeyDown(key) => KeyboardCb(w, key)
      case KeyUp(key) => KeyboardUpCb(w, key, host, n)
      case SpecialDown(k) => SpecialKeyboardCb(w, k)
      case SpecialUp(k) => SpecialKeyboardUpCb(w, k)
      case MouseButton(left, down, stencil) => MouseCb(w, left, down, stencil)
      case PointerMotion(x, y) => if w.pointerLook then PassiveMouseMotionCb(w, x, y, n) else w
      case MenuChoice(choice) => HandleGameMenuChoice(w, choice, host, n)
      case Reshape(width, height) => w.(state := ReshapeCb(w.state, width, height))
      case Tick(elapsedMs, keys) => TimerCb(w, elapsedMs, keys, n)
  }

  /** Every menu choice keeps the world invariant. */
  lemma MenuPreservesInvariant(w: World, choice: int, host: Host, n: Numerics)
    requires Invariant(w)
    ensures Invariant(HandleGameMenuChoice(w, choice, host, n))
  {
    if choice in {6, 7, 9, 10} {
      var r := HandleGameMenuChoice(w, choice, host, n);
      assert r.state.fogOn == w.state.fogOn && r.objects == w.objects && r.camera == w.camera;
    }
  }

  /** Every key release keeps the world invariant. */
  lemma KeyUpPreservesInvariant(w: World, key: char, host: Host, n: Numerics)
    requires Invariant(w)
    ensures Invariant(KeyboardUpCb(w, key, host, n))
  {
    var r := KeyboardUpCb(w, key, host, n);
    if key != GKey && key != RKey {
      assert r.state.fogOn == w.state.fogOn && r.objects == w.objects && r.camera == w.camera;
    }
  }

  /** Every event keeps the world invariant: the objects exist, the renderer's fog follows the switch, the camera stays inside the scene. */
  lemma StepPreservesInvariant(w: World, e: Event, host: Host, n: Numerics)
    requires Invariant(w)
    requires e.Tick? ==> IsKeyOrder(e.keys)
    ensures Invariant(Step(w, e, host, n))
  {
    if !w.quit {
      var r := Step(w, e, host, n);
      match e
      case KeyDown(key) =>
        assert r == KeyboardCb(w, key);
        assert r.objects == w.objects && r.camera == w.camera && r.useFog == w.useFog && r.state.fogOn == w.state.fogOn;
      case KeyUp(key) =>
        assert r == KeyboardUpCb(w, key, host, n);
        KeyUpPreservesInvariant(w, key, host, n);
      case SpecialDown(k) =>
        assert r == SpecialKeyboardCb(w, k);
        assert r.objects == w.objects && r.camera == w.camera && r.useFog == w.useFog && r.state.fogOn == w.state.fogOn;
      case SpecialUp(k) =>
        assert r == SpecialKeyboardUpCb(w, k);
        assert r.objects == w.objects && r.camera == w.camera && r.useFog == w.useFog && r.state.fogOn == w.state.fogOn;
      case MouseButton(left, down, stencil) =>
        assert r == MouseCb(w, left, down, stencil);
        assert r.camera == w.camera && r.useFog == w.useFog && r.state.fogOn == w.state.fogOn;
      case PointerMotion(x, y) =>
      case MenuChoice(choice) =>
        assert r == HandleGameMenuChoice(w, choice, host, n);
        MenuPreservesInvariant(w, choice, host, n);
      case Reshape(width, height) =>
      case Tick(elapsedMs, keys) =>
    }
  }

  /** The invariant holds of every world reachable from startup by any sequence of events. */
  function Run(host: Host, events: seq<Event>, n: Numerics): (r: World)
    requires forall i :: 0 <= i < |events| && events[i].Tick? ==> IsKeyOrder(events[i].keys)
    ensures Invariant(r)
    decreases |events|
  {
    if events == [] then Startup(host, n)
    else
      var before := Run(host, events[..|events| - 1], n);
      var e := events[|events| - 1];
      StepPreservesInvariant(before, e, host, n);
      Step(before, e, host, n)
  }
}
