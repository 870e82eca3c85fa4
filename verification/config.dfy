/** The five-knob configuration and its line-count gate. */
module Config {
  import opened Settings
  import opened Utils

  /** The configuration globals; each of the four flags is an integer that counts as set when non-zero. */
  datatype Config = Config(numPalms: int, fullScreen: int, bigPalms: int, bigDuck: int, bigSnowman: int)

  /** The values of the configuration globals before anything is loaded. */
  const UnloadedConfig: Config := Config(0, 0, 0, 0, 0)

  /** The fallback: all palms, windowed, every big variant. */
  const DefaultConfig: Config := Config(16, 0, 1, 1, 1)

  /** The only line count for which the file is parsed. */
  const ConfigLines: nat := 5

  predicate IsSet(flag: int) { flag != 0 }

  /** The integer tokens of the file, line after line. */
  function Tokens(lines: seq<seq<int>>): seq<int> {
    if lines == [] then [] else lines[0] + Tokens(lines[1..])
  }

  /** The range of the C `int` the knobs are stored in. */
  const IntMin: int := -0x8000_0000
  const IntMax: int := 0x7fff_ffff

  predicate FitsInt(x: int) { IntMin <= x <= IntMax }

  /** What `operator>>` stores for a token outside the `int` range: the nearest end of the range. */
  function Saturate(x: int): (r: int)
    ensures FitsInt(r)
    ensures FitsInt(x) ==> r == x
    ensures IntMax < x ==> r == IntMax
    ensures x < IntMin ==> r == IntMin
  {
    if IntMax < x then IntMax else if x < IntMin then IntMin else x
  }

  /**
   * The index of the first token that does not fit in an `int`, or the token
   * count when all fit. Reading that token sets the stream's failbit, so it
   * is the last one any extraction stores.
   */
  function FirstUnfit(tokens: seq<int>): (k: nat)
    ensures k <= |tokens|
    ensures forall j :: 0 <= j < k ==> FitsInt(tokens[j])
    ensures k < |tokens| ==> !FitsInt(tokens[k])
  {
    if tokens == [] || !FitsInt(tokens[0]) then 0 else 1 + FirstUnfit(tokens[1..])
  }

  /**
   * The i-th extraction of a chain `file >> a >> b >> ...`: the i-th token,
   * saturated, while the stream is good; the variable's previous value once
   * the stream has run out or failed on an earlier token.
   */
  function Extract(tokens: seq<int>, i: nat, previous: int): int {
    if i < |tokens| && i <= FirstUnfit(tokens) then Saturate(tokens[i]) else previous
  }

  /** The knobs by their position in the file: palms, fullscreen, big palms, big duck, big snowman. */
  function Field(c: Config, i: nat): int
    requires i < ConfigLines
  {
    match i
    case 0 => c.numPalms
    case 1 => c.fullScreen
    case 2 => c.bigPalms
    case 3 => c.bigDuck
    case 4 => c.bigSnowman
  }

  /**
   * Loads the configuration from a file given as its lines, each line the
   * integers it holds (a missing file has no lines). Any line count other
   * than five gives the defaults; exactly five lines are read as palm count,
   * fullscreen, big palms, big duck, big snowman, and the palm count is
   * clamped to [0, 16]. A token beyond the `int` range is stored saturated
   * and stops the reading: the knobs after it keep their previous values,
   * as do the knobs past the last token.
   */
  function LoadConfig(previous: Config, lines: seq<seq<int>>): (c: Config)
    ensures |lines| != ConfigLines ==> c == DefaultConfig
    ensures 0 <= c.numPalms <= MaxPalms
    ensures var t := Tokens(lines); |lines| == ConfigLines && 1 <= |t| ==>
      && (0 <= t[0] <= MaxPalms ==> c.numPalms == t[0])
      && (t[0] < 0 ==> c.numPalms == 0)
      && (MaxPalms < t[0] ==> c.numPalms == MaxPalms)
    ensures var t := Tokens(lines); |lines| == ConfigLines && |t| == 0 && 0 <= previous.numPalms <= MaxPalms ==>
      c.numPalms == previous.numPalms
    ensures var t := Tokens(lines); |lines| == ConfigLines ==>
      forall i :: 1 <= i < ConfigLines && i < |t| && i < FirstUnfit(t) ==> Field(c, i) == t[i]
    ensures var t := Tokens(lines); var k := FirstUnfit(t); |lines| == ConfigLines && 1 <= k < ConfigLines && k < |t| ==>
      Field(c, k) == (if 0 < t[k] then IntMax else IntMin)
    ensures var t := Tokens(lines); |lines| == ConfigLines ==>
      forall i :: 1 <= i < ConfigLines && (|t| <= i || FirstUnfit(t) < i) ==> Field(c, i) == Field(previous, i)
  {
    if |lines| != ConfigLines then DefaultConfig
    else
      var t := Tokens(lines);
      Config(
        ClampFromStdInt(Extract(t, 0, previous.numPalms), 0, MaxPalms),
        Extract(t, 1, previous.fullScreen),
        Extract(t, 2, previous.bigPalms),
        Extract(t, 3, previous.bigDuck),
        Extract(t, 4, previous.bigSnowman))
  }

  /** With one integer per line, the tokens are the lines' integers in order. */
  lemma {:induction false} OneTokenPerLine(lines: seq<seq<int>>)
    requires forall i :: 0 <= i < |lines| ==> |lines[i]| == 1
    ensures |Tokens(lines)| == |lines|
    ensures forall i :: 0 <= i < |lines| ==> Tokens(lines)[i] == lines[i][0]
  {
    if lines != [] {
      OneTokenPerLine(lines[1..]);
      assert Tokens(lines) == lines[0] + Tokens(lines[1..]);
      forall i | 0 <= i < |lines|
        ensures Tokens(lines)[i] == lines[i][0]
      {
        if i > 0 {
          assert lines[1..][i - 1] == lines[i];
        }
      }
    }
  }

  /** A well-formed five-line file of `int` values sets every knob from its line, with the palm count clamped. */
  lemma FiveLineFile(previous: Config, p: int, f: int, bp: int, bd: int, bs: int)
    requires FitsInt(p) && FitsInt(f) && FitsInt(bp) && FitsInt(bd) && FitsInt(bs)
    ensures LoadConfig(previous, [[p], [f], [bp], [bd], [bs]])
         == Config(ClampFromStdInt(p, 0, MaxPalms), f, bp, bd, bs)
  {
    var lines := [[p], [f], [bp], [bd], [bs]];
    OneTokenPerLine(lines);
    var t := Tokens(lines);
    assert t == [p, f, bp, bd, bs];
    assert FirstUnfit(t) == 5;
  }

  /** The documented examples: "4 1 0 1 0" is read as written, 20 palms become 16, a missing file gives the defaults. */
  lemma ConfigExamples(previous: Config)
    ensures LoadConfig(previous, [[4], [1], [0], [1], [0]]) == Config(4, 1, 0, 1, 0)
    ensures LoadConfig(previous, [[20], [0], [0], [0], [0]]).numPalms == 16
    ensures LoadConfig(previous, []) == DefaultConfig
  {
    FiveLineFile(previous, 4, 1, 0, 1, 0);
    FiveLineFile(previous, 20, 0, 0, 0, 0);
  }

  /**
   * A palm count too large for an `int` becomes 16 after the clamp, and the
   * failed stream leaves the other four knobs as they were; a flag too large
   * is stored as the largest `int` and the flags after it are not read.
   */
  lemma OverflowStopsReading(previous: Config)
    ensures LoadConfig(previous, [[3000000000], [1], [0], [0], [0]]) == previous.(numPalms := MaxPalms)
    ensures LoadConfig(previous, [[4], [5000000000], [0], [0], [0]]) == previous.(numPalms := 4, fullScreen := IntMax)
  {
    var a := [[3000000000], [1], [0], [0], [0]];
    OneTokenPerLine(a);
    assert Tokens(a) == [3000000000, 1, 0, 0, 0];
    assert FirstUnfit(Tokens(a)) == 0;
    var b := [[4], [5000000000], [0], [0], [0]];
    OneTokenPerLine(b);
    assert Tokens(b) == [4, 5000000000, 0, 0, 0];
    assert FirstUnfit(Tokens(b)) == 1;
  }
}
