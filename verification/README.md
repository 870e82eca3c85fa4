# Wild Island scene model

A Dafny model of the scene logic of *Wild Island*, a small OpenGL/GLUT demo.
The demo is a sandy island with palms, a snowman, a couch, a rubber duck, a
diamond, a fire, a banner and a raider that circles overhead. The model
covers the state machine and pure helpers that drive the scene:

- the camera: the bounds clamp, the four translation commands and the two
  turn commands, the collision test against the duck and the push-out, and
  the fixed order in which corrections apply;
- the camera modes and switches: `setCameraMode`, the right-click menu, the
  keyboard and special-key callbacks, the stencil-pick mouse callback,
  pointer look, full screen and reshape;
- the per-tick update, the scene reset and the timer tick, with the raider's
  orbit and the banner created lazily;
- the configuration gate, the object factory, the draw-pass order with its
  stencil values, the per-type model matrices and the frame that aligns the
  raider with its flight direction;
- the material setter, and the pure parts of the two mesh loaders: the
  mesh-count gate, index flattening, material defaults and texture-path
  resolution.

## How the model is built

- **Numbers.** Floats are reals. `sqrt`, `sin`, `cos`, `normalize` and `pi`
  are fields of a `Vectors.Numerics` record that the operations receive.
  Lemmas that need exact values ask for them only at the points they use
  (`SqrtExactAt`, `NormalizeExactAt`, or an equation such as `cos(0) == 1`).
- **Globals.** `SceneState`, `Camera`, the scene's objects, the configuration
  globals, the renderer's `useFog` flag, whether the passive-motion callback
  is registered (`pointerLook`) and whether the program has left its main loop
  (`quit`) together form one `Scene.World` record. Every callback is a pure
  function from a world to a world.
- **Null pointers** become `Option`.
- **Host inputs** are parameters:
  - the configuration file's lines and the screen size (`Scene.Host`);
  - the GLUT millisecond clock;
  - the stencil byte a click reads back;
  - what the mesh importer returns for a model file;
  - the texture loader.
- **Unordered iteration.** `timerCb` walks an `unordered_map` whose order is
  unspecified, so that order is a parameter: any permutation of the four keys.
- **Events.** `Input.Step` delivers one window-system event to its callback.
  `Input.Run` folds a sequence of events from startup, and its contract states
  the invariant every reachable world keeps:
  - the objects exist;
  - the renderer's fog flag follows the switch;
  - the camera is inside the scene.

Quirks of the program are modelled as written, each with a lemma that
exhibits it:

- a reset always recreates the raider and the fire, because `deleteObjects`
  has already cleared them;
- a reset computes the camera's facing from the heading it had before the
  reset;
- choosing the free camera from the menu leaves free look off until the next
  tick;
- F4 keeps a registered pointer look, while the menu's raider camera drops it;
- inside the padded collision band the collision is reported but the camera
  is not moved;
- the heading wrap is a single step;
- leaving full screen resets the window to 1000x800;
- a configuration number too large for an `int` stops the reading, so the
  knobs after it keep the values they had.

## Model

| member | source | states |
|---|---|---|
| Objects.FromOrdinal | render.h:16 | reading an integer as an object type succeeds exactly on 0..8 and gives back the type with that enum value |
| Objects.OrdinalRoundTrip | render.h:16 | every type survives the trip through its enum value, so the nine values are distinct |
| Utils.KeyAtSlot | utils.h:14-21 | every key-map slot below KEYS_COUNT belongs to the key whose index it is |
| Utils.KeySlotsInjective | utils.h:14-21 | distinct movement keys own distinct key-map slots: LEFT 0, RIGHT 1, UP 2, DOWN 3 |
| Utils.SetKey | utils.h:41 | pressing or releasing a key sets its own slot and leaves every other key's slot as it was |
| Utils.SceneStateDefaults | utils.h:33-49 | the initial scene state has camera 1, speed 0.1, windowed, no key held and every switch off |
| Utils.ClampFromStd | utils.h:60-64 | below `lower` gives `lower` even when the bounds are crossed; above `upper` (and not below `lower`) gives `upper`; in between gives the value |
| Utils.ClampFromStdInt | utils.h:60-64 | the same three cases for the integer instance the configuration loader uses |
| Utils.ClampOrderedBounds | utils.h:60-64 | with lower <= upper the result lies in [lower, upper] and clamping again changes nothing |
| Utils.ClampIntOrderedBounds | utils.h:60-64 | the same range and idempotence for the integer instance |
| Utils.ClampCrossedBounds | utils.h:63 | with crossed bounds a value below `lower` comes out as `lower`, which lies above `upper` |
| Settings.SceneExtentsPositive | settings.h:13-14 | both scene extents are positive, so the camera's clamp interval is never empty |
| Settings.PalmTableFillsMaximum | settings.h:20-56 | the palm table has exactly the documented maximum of 16 entries, so the first NUM_PALMS palms exist |
| Settings.TerrainTableShape | settings.h:58-85 | the terrain table has 26 tiles and lists the centre tile twice |
| Settings.ActionKeysDistinct | settings.h:26-37 | the twelve action keys are pairwise distinct characters, so each key selects one action |
| Config.LoadConfig | main.cpp:920-954 | a file whose line count is not 5 (or no file) gives 16 palms, windowed, every big variant; five lines give the five integers in order while they fit in an `int`; the first token that does not fit is stored as INT_MAX or INT_MIN and every knob after it, like every knob past the last token, keeps its previous value; the palm count always lies in [0, 16] and is clamped from either side |
| Config.FirstUnfit | main.cpp:948 | the tokens before the returned index all fit in an `int` and the token at it does not |
| Config.OverflowStopsReading | main.cpp:948-950 | a palm count beyond the `int` range becomes 16 and leaves the other knobs as they were; a flag beyond it is stored as INT_MAX and the flags after it are not read |
| Config.OneTokenPerLine | main.cpp:948 | when every line holds one integer, the extracted stream is exactly the lines' integers in order |
| Config.FiveLineFile | main.cpp:943-951 | a five-line file of one `int` per line sets each knob from its line, with only the palm count clamped |
| Config.ConfigExamples | main.cpp:937-951 | "4 1 0 1 0" is read as written, 20 palms become 16, and a missing file gives the defaults |
| Factory.Create | main.cpp:45-111 | both timestamps equal the scene time; the diamond is always at (-1, 0, 0.5) with size 0.1; terrain has size 1 and the banner size 3; the couch, duck, snowman, palm, raider and fire sizes, offsets, speed and frame duration follow the configuration flags as listed in the source |
| Factory.SetObject | main.cpp:45-119 | an object is produced exactly for the nine enum values; any other value gives none |
| Factory.SetObjectOfType | main.cpp:59-116 | creating through a type's enum value gives that type's object |
| Factory.BigVariantSizes | main.cpp:68-111 | the big variants double the duck, the palm and the fire, but the snowman only grows from 0.5 to 0.8 |
| Factory.RaiderBornFacingX | main.cpp:100-104 | a new raider faces +x, the heading-0 facing |
| CameraControl.CorrectCameraBoundsPosition | main.cpp:245-250 | x lands in [-SCENE_WIDTH, SCENE_WIDTH] and y in [-SCENE_HEIGHT, SCENE_HEIGHT], each pinned to the bound it crossed; z and in-bounds positions are untouched |
| CameraControl.BoundsClampIdempotent | main.cpp:245-250 | clamping a clamped position changes nothing |
| CameraControl.CollisionBySquaredDistance | main.cpp:305-313 | with an exact length, the camera collides exactly when its squared distance to the duck is below (0.5 + radius) squared |
| CameraControl.GetAdjustedCameraPosition | main.cpp:322-338 | a camera at or beyond the bare radius is returned unchanged |
| CameraControl.PushOutReachesRadius | main.cpp:328-335 | a camera strictly inside the bare radius is pushed out along the duck-to-camera direction and ends exactly at the radius |
| CameraControl.PaddedBandNotCorrected | main.cpp:286-293 | between the bare radius and the padded radius a collision is reported but the camera does not move |
| CameraControl.CollisionCorrected | main.cpp:286-293 | without a collision against the duck (dropped to z = 0, radius 0.7), or at or beyond the bare radius, the position is kept; strictly inside the bare radius the camera is pushed out by `getAdjustedCameraPosition` with radius 0.7 |
| CameraControl.TurnLeftAngle | main.cpp:274-276 | the heading grows by the delta; a sum below 360 is kept and a sum of 360 or more loses 360 once, so the result stays below 360 unless the sum reached 720 |
| CameraControl.TurnRightAngle | main.cpp:279-281 | the heading shrinks by the delta; a non-negative difference is kept and a negative one gains 360 once, so the result stays non-negative unless the difference went below -360 |
| CameraControl.TurnKeepsHeadingInRange | main.cpp:274-283 | from a heading in [0, 360) and a delta in [0, 360), both turns stay in [0, 360) |
| CameraControl.TurnsAreInverse | main.cpp:274-283 | on that range a right turn undoes a left turn by the same delta, and the other way round |
| CameraControl.SingleStepWrap | main.cpp:275-281 | a delta of 720 from heading 0 leaves the range (360 and -360): the wrap is one step only |
| CameraControl.PlannedPosition | main.cpp:259-273 | Forward and Backward move by half the speed along the facing; Left and Right move by half the speed along the facing turned a quarter left; turns keep the position |
| CameraControl.OppositeCommandsCancel | main.cpp:262-273 | before corrections, Backward undoes Forward and Right undoes Left |
| CameraControl.SidestepIsPerpendicular | main.cpp:268-273 | for a horizontal facing, a sidestep is at right angles to the facing and as long as a forward step |
| CameraControl.MoveCamera | main.cpp:257-296 | the new position is the planned one corrected against the duck first and clamped second, so it is always in bounds; translations keep heading and facing; turns set the wrapped heading and its facing |
| CameraControl.UncorrectedMoveIsExact | main.cpp:257-296 | a move that stays in bounds and clear of the duck's bare radius lands exactly where planned |
| Scene.DeleteObjects | main.cpp:124-149 | both lists are emptied and every singleton except the diamond is cleared |
| Scene.ResetScene | main.cpp:589-644 | reloads the configuration; camera 4 with free look off; no key held; camera at the origin with heading 90; fog, fire, banner and flashlight off and the sun on; every singleton recreated at its start position, and terrain element i and palm i created by the factory at the i-th table position, with the reloaded configuration and the scene time; the world invariant holds |
| Scene.CreateAll | main.cpp:617-625 | one object per position, the i-th made by the factory at the i-th position |
| Scene.Startup | main.cpp:993-1019 | the program starts, after loading the configuration and resetting, in camera 4 with pointer look off and the world invariant holding |
| Scene.StartupFacingLagsHeading | main.cpp:603-605 | at startup the heading is 90 but the facing is the heading-0 facing +x, because the facing is computed before the heading is set |
| Scene.ResetAlwaysRecreatesRaider | main.cpp:592-611 | even when a raider exists, reset replaces it with a new one at its start position |
| Scene.MoveWorldCamera | main.cpp:286-295 | a camera command changes the camera alone and collides with the duck where it currently stands |
| Scene.RaiderOnOrbit | main.cpp:572-578 | the raider's orbit position is at height 1; only its position and direction change |
| Scene.RaiderOrbitInsideScene | main.cpp:572-578 | with exact sine and cosine the raider flies on the unit circle about the z axis, inside the scene |
| Scene.RaiderAtTimeZero | main.cpp:572-578 | at scene time 0 the raider is at (0, 1, 1) heading along -x |
| Scene.ReconcileCamera | main.cpp:546-568 | mode 1 pins the camera to zero and mode 2 to (3,3,0) facing -x, both with free look and pointer look off; mode 5 copies the raider's pose and turns the flashlight and free look off; every other mode keeps the camera and turns free look on |
| Scene.AdvanceObjects | main.cpp:572-583 | the raider moves onto its orbit and the fire's clock reads the scene time; nothing else changes |
| Scene.UpdateScene | main.cpp:544-584 | the camera decision of the mode table is followed by the bounds clamp, so the camera ends in bounds; configuration, fog and quit are kept |
| Scene.PinnedPosesAfterUpdate | main.cpp:546-570 | the pinned poses of modes 1 and 2 survive the clamp exactly |
| Scene.KeyDirection | main.cpp:873-878 | up moves forward, down backward, right to the right and left to the left; every key gives a translation |
| Scene.KeyDirectionInjective | main.cpp:873-878 | distinct movement keys give distinct commands |
| Scene.ApplyKeyMoves | main.cpp:880-889 | the keys only move the camera, never turn it; with no key held nothing changes; after any move the camera is in bounds |
| Scene.SingleHeldKeyMoves | main.cpp:880-889 | with exactly one movement key held, the key pass is one `moveCamera` step in that key's direction at the current speed |
| Scene.ClockAndMove | main.cpp:869-890 | the first part of a tick stamps the time and changes only the camera, keeping the heading, and leaves the camera alone outside mode 4 |
| Scene.BannerTick | main.cpp:899-907 | the banner is created the first tick it is enabled, with size 3 and the scene time as start time, and its clock then follows the ticks; nothing else changes |
| Scene.TimerCb | main.cpp:867-913 | a tick sets the scene time from the clock, keeps the camera in bounds and the mode, keys and switches; modes 1 and 2 end with free look off, mode 5 with free look and flashlight off, any other mode with free look on and pointer look registered; the heading is kept |
| Scene.TickKeepsSettings | main.cpp:867-913 | a tick keeps the sun, fire and banner switches, full screen, the movement speed and the window size |
| Scene.TickAdvancesObjects | main.cpp:892-907 | a tick puts the raider on its orbit at the new time, advances the fire's and the banner's clocks to it, creates the banner on the first enabled tick with that start time and size 3, and leaves the other objects alone |
| Scene.TickCameraPoses | main.cpp:546-570 | after a tick the camera is at the origin in mode 1, at (3, 3, 0) facing -x in mode 2, and in mode 5 at the raider's pre-tick position, clamped, with its direction |
| Scene.TickMovesHeldKey | main.cpp:871-890 | in mode 4 with one movement key held, the tick's camera is one `moveCamera` step in that key's direction |
| Scene.KeysIgnoredOutsideFreeMode | main.cpp:871-890 | outside camera 4 the held keys do not matter: any key order gives the same tick |
| Input.SetFogState | render.cpp:518-524 | the renderer uses fog exactly when it is switched on |
| Input.SetCameraMode | main.cpp:344-349 | selects the mode; free look is on only for mode 3; pointer look is unregistered; nothing else changes |
| Input.SparklesToggle | main.cpp:450-453 | flips the fire and nothing else |
| Input.FlashlightToggle | main.cpp:458-461 | flips the flashlight and nothing else |
| Input.SunToggle | main.cpp:466-469 | flips the sun and nothing else |
| Input.BannerToggle | main.cpp:474-477 | flips the banner and nothing else |
| Input.FogToggle | main.cpp:380-383 | flips fog and leaves the renderer's fog flag equal to the switch |
| Input.TogglesAreInvolutions | main.cpp:450-477 | every toggle undone by itself restores the state |
| Input.FullScreenToggle | main.cpp:429-445 | entering full screen takes the screen size; leaving it sets 1000x800; the flag flips and nothing else changes |
| Input.FullScreenRoundTripResetsSize | main.cpp:429-445 | entering and leaving full screen ends windowed at 1000x800 whatever the earlier size |
| Input.ReshapeCb | main.cpp:672-677 | a resize records the new size and nothing else |
| Input.HandleGameMenuChoice | main.cpp:355-398 | entries 1, 2, 4, 5 select that camera mode; 3 leaves; 6 to 10 toggle flashlight, sun, fog, fire and banner; 11 resets; any other choice changes nothing |
| Input.LetterKey | main.cpp:690-701 | w, s, a and d, and only they, stand for up, down, left and right |
| Input.KeyboardCb | main.cpp:683-703 | Escape leaves the main loop; w, s, a, d press their movement key; other keys change nothing |
| Input.KeyboardUpCb | main.cpp:709-748 | w, s, a, d release their key; f, g, b, h, j toggle flashlight, fog, banner, sun and fire; p toggles full screen; r resets; other keys change nothing |
| Input.LetterPressReleaseRoundTrip | main.cpp:683-724 | pressing and releasing a movement letter restores a world in which it was up |
| Input.MenuMatchesKeys | main.cpp:374-392 | menu entries 6 to 11 act exactly like releasing f, h, g, j, b and r |
| Input.FunctionKeyMode | main.cpp:799-810 | F1 selects mode 1, F2 mode 2, F3 the free camera 4 and F4 the raider camera 5; no other key selects a mode |
| Input.SpecialKeyboardCb | main.cpp:754-774 | once the game is over nothing changes; otherwise an arrow presses its key and other keys change nothing |
| Input.SpecialKeyboardUpCb | main.cpp:780-812 | once the game is over nothing changes; an arrow releases its key; F1 to F4 set the mode number alone |
| Input.FunctionKeyAgreesWithMenuAfterTick | main.cpp:799-806 | F1, F2 and F3 followed by a tick end with the same free look and pointer look as the matching menu entry followed by a tick |
| Input.RaiderKeyKeepsPointerLook | main.cpp:808-810 | F4 and a tick keep a registered pointer look, while menu entry 5 and a tick drop it |
| Input.FreeCameraWaitsForTick | main.cpp:344-349 | menu entry 4 leaves free look off, and the next tick turns it on with pointer look registered |
| Input.MouseCb | main.cpp:821-841 | a left press on stencil 1 toggles the fire, on 2 selects the raider camera, on 4 shrinks the couch to size 0; every other click changes nothing |
| Input.PickRaiderIsMenuRaiderCamera | main.cpp:833-835 | clicking the raider is the same as choosing the raider camera from the menu |
| Input.HalfTowardZero | main.cpp:850 | integer halving rounds toward zero, as C's division does |
| Input.PassiveMouseMotionCb | main.cpp:848-856 | a pointer left of the centre column turns left and one right of it turns right, by half the pixel distance; on the centre column nothing changes |
| Input.MirroredPointerMovesCancel | main.cpp:848-856 | two pointer moves mirrored about the centre column restore an in-range heading |
| Input.Step | main.cpp:1005-1015 | once the program has quit no callback runs; pointer motion is ignored while pointer look is unregistered and turns the camera through the passive-motion callback while it is; a tick sets the scene time from the clock and keeps the camera in bounds; a reshape records the new size; Escape quits; the objects stay ready |
| Input.MenuPreservesInvariant | main.cpp:355-398 | every menu choice keeps the world invariant |
| Input.KeyUpPreservesInvariant | main.cpp:709-748 | every key release keeps the world invariant |
| Input.StepPreservesInvariant | main.cpp:683-913 | every event keeps the world invariant |
| Input.Run | main.cpp:993-1023 | every world reachable from startup by any sequence of events satisfies the invariant |
| DrawPasses.StencilId | main.cpp:161-237 | terrain and fire are drawn with the stencil test off; every other type is drawn with a stencil value between 1 and 7 |
| DrawPasses.StencilIdInjective | main.cpp:167-229 | no two types share a stencil value |
| DrawPasses.TerrainPasses | main.cpp:161-165 | one pass per terrain tile, in list order, with the stencil off |
| DrawPasses.PalmPasses | main.cpp:167-176 | the first NUM_PALMS palms, in order, each with stencil 3 |
| DrawPasses.DrawAllObjects | main.cpp:158-238 | the passes are the terrain, the first NUM_PALMS palms, snowman 1, raider 2, couch 4, duck 5, diamond 6, the skybox, then the fire when on and the banner (7) when on and present |
| DrawPasses.PassesCarryTheirStencil | main.cpp:161-237 | every object pass of a frame carries its own type's stencil value |
| DrawPasses.ClickTargets | main.cpp:181-204 | a pass drawn with stencil 1, 2 or 4 draws the snowman, the raider or the couch, so a click on that value hits that object |
| Transforms.TranslateThenScale | render.cpp:538 | translating the identity by the position and then scaling gives the placement matrix |
| Transforms.PlacementMapsPoint | render.cpp:547 | a placement scales a point axis by axis and then moves it by the position |
| Transforms.FrontDirectionMat | render.cpp:948-960 | the columns are right, new up, the negated normalised front and (position, 1); the first three have w = 0; right is the normalised up x negated front, and new up is negated front x right |
| Transforms.FrontFrameOrthogonal | render.cpp:948-960 | with exact normalisation and a front not parallel to up, the three axes are pairwise orthogonal |
| Transforms.SetModelMat | render.cpp:532-562 | every drawn type gets a model matrix whose last column is (position, 1); fire and the banner get none |
| Transforms.ModelOriginAtPosition | render.cpp:532-562 | every model matrix puts the mesh's origin at the object's position |
| Transforms.PlacedAndScaled | render.cpp:546-557 | palms and the diamond are the mesh scaled by the size about the object's position |
| Transforms.TerrainFlattened | render.cpp:537-539 | terrain keeps its footprint scaled by its size and is squashed to 0.2 in height |
| Transforms.UprightModels | render.cpp:543-554 | with an exact quarter turn, the duck, snowman and couch send a mesh point (x, y, z) to the position plus size times (x, -z, y): x stays along x, y points up along z, z points along -y |
| Transforms.UniformScaleFirst | render.cpp:541 | a frame followed by a uniform `glm::scale` sends a point where the frame sends the scaled point |
| Transforms.RaiderScaledThenFramed | render.cpp:540-541 | the raider's mesh is scaled by its size and then carried by its direction frame with up (0, 0, 1) |
| Materials.SetUniformMaterial | render.cpp:90-111 | the texture is used, and bound, exactly when its name is not 0; the colours and shininess pass through |
| Materials.DefaultGeometryUntextured | render.h:25 | a fresh geometry record has texture 0 and is drawn untextured |
| Materials.DrawSubMeshes | render.cpp:596-611 | one draw per sub-mesh, in sequence order, each with shininess 2 |
| Materials.SetMaterial | render.cpp:571-619 | terrain, duck and diamond use shininess 3; raider and palm their loaded shininess; the diamond its fixed black, grey and white colours; snowman and couch one draw per sub-mesh with shininess 2; fire and banner none |
| Materials.SingleMeshDrawsItsMesh | render.cpp:576-595 | terrain, raider, duck and palm draw all triangles of their own mesh with its colours, textured exactly when it has a texture |
| Materials.SubMeshDrawsFollowOrder | render.cpp:597-602 | appending a sub-mesh appends one draw at the end and leaves the others |
| MeshLoader.FindLastOf | render.cpp:734 | the result is the last position holding one of the characters, or none when no position does |
| MeshLoader.ResolveTexturePath | render.cpp:734-738 | the texture name is prefixed by the model file name up to and including its last separator, or left alone when there is none |
| MeshLoader.ResolvedPathShape | render.cpp:734-738 | a resolved path ends with the texture name, after a prefix of the model file name that is empty or ends in a separator and is followed by no further separator |
| MeshLoader.TerrainTextureBesideModel | render.cpp:33 | whatever texture the terrain's material names is read from "data/ground/" followed by that name |
| MeshLoader.FlattenFaces | render.cpp:680-686 | the flat list has 3 entries per face, entry 3f+k being face f's k-th index |
| MeshLoader.RegroupFlattenRoundTrip | render.cpp:680-686 | flattening loses nothing: reading the list back three at a time gives the faces |
| MeshLoader.FillIndices | render.cpp:820-826 | the index-copying loop builds exactly the flattened list |
| MeshLoader.ColourOrBlack | render.cpp:701-712 | a colour the material lacks reads as black; a present one is kept |
| MeshLoader.MaterialShininess | render.cpp:714-723 | a missing shininess or strength reads as 1, and the stored shininess is their product |
| MeshLoader.MeshGeometry | render.cpp:680-763 | a mesh's geometry holds its flattened faces, its face count, its material's colours and shininess with defaults, and a texture only when the material names one, read from the resolved path |
| MeshLoader.EmptyMaterialDefaults | render.cpp:701-725 | a material with no values gives black colours, shininess 1 and no texture |
| MeshLoader.LoadSingMesh | render.cpp:628-766 | fails for a missing scene or one whose mesh count is not 1; otherwise builds that mesh's geometry |
| MeshLoader.SceneGeometries | render.cpp:791-906 | one geometry per mesh of the scene, in the scene's order |
| MeshLoader.LoadMultMesh | render.cpp:775-908 | fails, leaving the list as it was, for a missing scene; otherwise appends every mesh's geometry in order after the existing entries |
| MeshLoader.LoadersAgreeOnOneMesh | render.cpp:628-908 | on a one-mesh scene the multi-mesh loader appends exactly what the single-mesh loader builds |
| MeshLoader.LoadMeshes | render.cpp:913-939 | each single-mesh model is present exactly when its file gave one mesh; snowman and couch get one entry per mesh of their file; fog ends off |

## Left out

- OpenGL and GLUT calls are not modelled, since they are foreign state. This covers:
  - shaders and uniform upload;
  - vertex, element and texture buffer setup;
  - `glReadPixels` (the stencil byte is a parameter);
  - pointer warping;
  - window placement, including the end of `resetScene` (main.cpp:636-643), which asks GLUT for full screen when the configuration's FULL_SCREEN is set and for a 1000x800 window at (100, 100) otherwise; the size reaches the model only through the reshape event GLUT then delivers, so `Config.fullScreen` is read but not otherwise used;
  - timer re-arming;
  - `glutPostRedisplay`.
- The Assimp import is an input. What the importer returns for a file is `ImportedScene`. Vertex positions, normals and texture coordinates are not modelled: the model keeps only what the loaders compute from faces and materials.
- `pgr::createTexture` is a parameter. Texture loading is foreign code.
- Reading the configuration file is left to the host. The file is given as its lines, each line the integers it holds. Non-numeric tokens are not modelled. A field with no token left keeps its previous value, as stream extraction leaves its target when nothing is left to read. A token outside the `int` range is stored saturated and fails the stream, as the C++ standard's `num_get` prescribes.
- Float rounding is not modelled: floats are reals.
- sqrt, sin, cos, normalize and pi are uninterpreted fields of `Numerics`. Static props get the normalised zero vector as their direction, which is NaN in glm and unspecified here.
- `drawScene` is not modelled. This covers its projection and view matrices and the free-camera smoothing, which mixes the camera toward its own value and changes nothing. `displayCb` and `clearGLbuffers` are left out with it.
- The drawing bodies of the skybox, fire and banner passes are not modelled, including the banner's function-local static state. Likewise `initDiamondGeom`, `initSparklesGeom`, `initCubeSkyboxGeom`, `initAmongusGeom` and `deleteAmongusAndSkyboxGeoms`. All of these are GPU setup.
- `drawObject` is covered only through its two parts, `setModelMat` and `setMaterial`. It also sets the matrices and turns texturing on before the material setter decides.
- `createMenu` is left out. Its labels and the menu layout are GLUT state; the entries it registers are the choices `HandleGameMenuChoice` handles.
- `finalizeApplication` and `main`'s window setup are left out. The callback registration is reflected in which events `Input.Step` delivers.
- Transforms.SetModelMat: for a type outside the drawn ones the source returns a default-constructed matrix. The model returns `None`, since glm leaves that matrix's value to a build option.
- Transforms.FrontDirectionMat: orthogonality is proved only under exact normalisation.
- Factory.Create: the direction of a static prop (the normalised zero vector) is left unspecified.
- Input.PassiveMouseMotionCb: the C `int` arithmetic on the pointer position is not bounded. The turn delta is read as an exact real, and the warp back to the centre is left to the host.
- Input.Step: the x and y positions that GLUT passes with key events are ignored, as the callbacks ignore them.
- Scene.TimerCb: the clock value is taken as given, without the `float` rounding of milliseconds to seconds.
