/** Scene extents, window size, key codes and the placement tables of the scene. */
module Settings {
  import opened Vectors

  /** How far the camera may move along x (left and right of the origin). */
  const SceneWidth: real := 3.8
  /** How far the camera may move along y (forward and backward of the origin). */
  const SceneHeight: real := 3.8
  const SceneDepth: real := 1.0

  const WindowWidth: int := 1000
  const WindowHeight: int := 800

  /** The documented maximum number of palms. */
  const MaxPalms: int := 16

  const EscKey: char := 27 as char
  const WKey: char := 'w'
  const AKey: char := 'a'
  const SKey: char := 's'
  const DKey: char := 'd'
  const RKey: char := 'r'
  const FKey: char := 'f'
  const BKey: char := 'b'
  const GKey: char := 'g'
  const HKey: char := 'h'
  const JKey: char := 'j'
  const PKey: char := 'p'

  /** Every key the keyboard callbacks react to. */
  const ActionKeys: seq<char> := [EscKey, WKey, AKey, SKey, DKey, RKey, FKey, BKey, GKey, HKey, JKey, PKey]

  const PalmsPositions: seq<Vec3> := [
    Vec3(2.0, 0.0, 0.25),
    Vec3(-2.0, 0.0, 0.6),
    Vec3(0.0, -2.0, 0.6),
    Vec3(0.0, 2.0, 0.6),
    Vec3(-2.0, 2.0, 0.6),
    Vec3(2.0, -2.0, 0.6),
    Vec3(-2.0, -2.0, 0.6),
    Vec3(2.0, 2.0, 0.6),
    Vec3(3.3, 0.0, 0.6),
    Vec3(-3.4, 0.0, 0.6),
    Vec3(0.0, -3.3, 0.6),
    Vec3(0.0, 3.4, 0.6),
    Vec3(-3.4, 3.3, 0.6),
    Vec3(3.3, -3.4, 0.6),
    Vec3(-3.3, -3.3, 0.6),
    Vec3(3.3, 3.4, 0.6)
  ]

  const TerrainElPositions: seq<Vec3> := [
    Vec3(1.5, 0.0, -0.3),
    Vec3(1.5, 1.5, -0.3),
    Vec3(0.0, 1.5, -0.3),
    Vec3(-1.5, 0.0, -0.3),
    Vec3(-1.5, -1.5, -0.3),
    Vec3(0.0, -1.5, -0.3),
    Vec3(-1.5, 1.5, -0.3),
    Vec3(1.5, -1.5, -0.3),
    Vec3(0.0, 0.0, -0.3),
    Vec3(3.0, 0.0, -0.3),
    Vec3(-3.0, 0.0, -0.3),
    Vec3(0.0, 3.0, -0.3),
    Vec3(0.0, -3.0, -0.3),
    Vec3(3.0, 3.0, -0.3),
    Vec3(-3.0, 3.0, -0.3),
    Vec3(3.0, -3.0, -0.3),
    Vec3(-3.0, -3.0, -0.3),
    Vec3(1.5, 3.0, -0.3),
    Vec3(-1.5, 3.0, -0.3),
    Vec3(3.0, 1.5, -0.3),
    Vec3(3.0, -1.5, -0.3),
    Vec3(-1.5, -3.0, -0.3),
    Vec3(1.5, -3.0, -0.3),
    Vec3(-3.0, 1.5, -0.3),
    Vec3(-3.0, -1.5, -0.3),
    Vec3(0.0, 0.0, -0.3)
  ]

  /** The camera clamp interval is non-empty on both axes. */
  lemma SceneExtentsPositive()
    ensures 0.0 < SceneWidth && 0.0 < SceneHeight
  {
  }

  /** The palm table holds exactly the maximum palm count, so the first NUM_PALMS palms exist. */
  lemma PalmTableFillsMaximum()
    ensures |PalmsPositions| == MaxPalms
  {
  }

  /** The terrain table has 26 tiles and places the centre tile twice. */
  lemma TerrainTableShape()
    ensures |TerrainElPositions| == 26
    ensures TerrainElPositions[8] == TerrainElPositions[25] == Vec3(0.0, 0.0, -0.3)
  {
  }

  /** Each action key is a different character, so each key selects one action. */
  lemma ActionKeysDistinct()
    ensures forall i, j :: 0 <= i < j < |ActionKeys| ==> ActionKeys[i] != ActionKeys[j]
  {
  }
}
