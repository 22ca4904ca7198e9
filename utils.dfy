/**
 * internal/utils/utils.go: the moving-average smoother, the moon-phase
 * classifier and the file-extension test used by the HTTP middleware.
 */
module Utils {

  import opened Text

  // ---------------------------------------------------------------------------
  // SmoothValue
  // ---------------------------------------------------------------------------

  const MovingAverageWindow: nat := 5

  /** The window after one call: the new value appended, the oldest dropped once there are more than five. */
  function Push(window: seq<real>, v: real): seq<real> {
    var w := window + [v];
    if |w| > MovingAverageWindow then w[1..] else w
  }

  /** The most recent min(|inputs|, 5) inputs, oldest first. */
  function LastWindow(inputs: seq<real>): (w: seq<real>)
    ensures |w| == if |inputs| < MovingAverageWindow then |inputs| else MovingAverageWindow
  {
    if |inputs| <= MovingAverageWindow then inputs else inputs[|inputs| - MovingAverageWindow..]
  }

  /** Pushing onto the window of the inputs so far gives the window of the inputs with the new one. */
  lemma PushKeepsLastWindow(inputs: seq<real>, v: real)
    ensures Push(LastWindow(inputs), v) == LastWindow(inputs + [v])
  {
    var n := |inputs|;
    if n >= MovingAverageWindow {
      assert (inputs[n - 5..] + [v])[1..] == (inputs + [v])[n + 1 - 5..];
    }
  }

  /** Sum of a sequence, adding from the left as a range loop does. */
  function Sum(s: seq<real>): real {
    if s == [] then 0.0 else Sum(s[..|s| - 1]) + s[|s| - 1]
  }

  function Mean(s: seq<real>): real
    requires |s| > 0
  {
    Sum(s) / (|s| as real)
  }

  /** One smoothed metric: the retained window, and (ghost) every input so far. */
  class Smoother {
    var values: seq<real>
    ghost var inputs: seq<real>

    ghost predicate Valid()
      reads this
    {
      values == LastWindow(inputs)
    }

    constructor ()
      ensures Valid() && inputs == [] && values == []
    {
      values := [];
      inputs := [];
    }

    /** SmoothValue: record `value` in the window and return the mean of the window. */
    method SmoothValue(value: real) returns (avg: real)
      requires Valid()
      modifies this
      ensures Valid()
      ensures inputs == old(inputs) + [value]
      ensures values == Push(old(values), value)
      ensures 1 <= |values| <= MovingAverageWindow
      ensures avg == Mean(values)
    {
      PushKeepsLastWindow(inputs, value);
      values := values + [value];
      if |values| > MovingAverageWindow {
        values := values[1..];
      }
      inputs := inputs + [value];

      var sum := 0.0;
      for i := 0 to |values|
        invariant sum == Sum(values[..i])
      {
        assert values[..i + 1][..i] == values[..i];
        sum := sum + values[i];
      }
      assert values[..|values|] == values;
      avg := sum / (|values| as real);
    }
  }

  /** The first call on an empty window returns its input. */
  lemma FirstSmoothedValueIsInput(v: real)
    ensures Push([], v) == [v] && Mean(Push([], v)) == v
  {
    assert Push([], v) == [v];
    assert [v][..0] == [];
    assert Sum([v]) == Sum([]) + v;
  }

  /** Once warmed up, the window is exactly the last five inputs and the result their mean. */
  lemma {:induction false} SixInputs()
    ensures LastWindow([1.0, 2.0, 3.0, 4.0, 5.0, 6.0]) == [2.0, 3.0, 4.0, 5.0, 6.0]
    ensures Mean(LastWindow([1.0, 2.0, 3.0, 4.0, 5.0, 6.0])) == 4.0
  {
    var w := [2.0, 3.0, 4.0, 5.0, 6.0];
    assert LastWindow([1.0, 2.0, 3.0, 4.0, 5.0, 6.0]) == w;
    assert w[..4] == [2.0, 3.0, 4.0, 5.0];
    assert w[..4][..3] == [2.0, 3.0, 4.0];
    assert w[..4][..3][..2] == [2.0, 3.0];
    assert w[..4][..3][..2][..1] == [2.0];
    assert w[..4][..3][..2][..1][..0] == [];
    assert Sum([2.0]) == 2.0;
    assert Sum([2.0, 3.0]) == 5.0;
    assert Sum([2.0, 3.0, 4.0]) == 9.0;
    assert Sum([2.0, 3.0, 4.0, 5.0]) == 14.0;
    assert Sum(w) == 20.0;
  }

  // ---------------------------------------------------------------------------
  // MoonPhaseFromAngle
  // ---------------------------------------------------------------------------

  /** Truncation toward zero, as Go's math.Mod uses it. */
  function Trunc(x: real): int {
    if x >= 0.0 then x.Floor else -((-x).Floor)
  }

  /** math.Mod(x, 360): the remainder that keeps the sign of `x`. */
  function Mod360(x: real): real {
    x - 360.0 * (Trunc(x / 360.0) as real)
  }

  /** The angle shifted by whole turns into [0, 360). */
  function NormalizedAngle(a: real): (r: real)
    ensures 0.0 <= r < 360.0
  {
    a - 360.0 * ((a / 360.0).Floor as real)
  }

  const PhaseNames: seq<string> := [
    "New Moon", "Waxing Crescent", "First Quarter", "Waxing Gibbous",
    "Full Moon", "Waning Gibbous", "Last Quarter", "Waning Crescent"
  ]

  /** The switch over the normalised angle. */
  function PhaseOfNormalized(angle: real): (phase: string)
    ensures phase in PhaseNames
  {
    if angle >= 350.0 || angle <= 10.0 then "New Moon"
    else if angle > 10.0 && angle < 80.0 then "Waxing Crescent"
    else if angle >= 80.0 && angle <= 100.0 then "First Quarter"
    else if angle > 100.0 && angle < 170.0 then "Waxing Gibbous"
    else if angle >= 170.0 && angle <= 190.0 then "Full Moon"
    else if angle > 190.0 && angle < 260.0 then "Waning Gibbous"
    else if angle >= 260.0 && angle <= 280.0 then "Last Quarter"
    else if angle > 280.0 && angle < 350.0 then "Waning Crescent"
    else "Unknown Phase"
  }

  /**
   * The band of phase k, independently of the switch: the four quarter phases
   * are closed 20-degree bands centred on multiples of 90 (New Moon wrapping
   * round 0), the four intermediate phases the open 70-degree bands between.
   */
  predicate InBand(k: nat, a: real)
    requires k < 8
  {
    var centre := 45.0 * (k as real);
    if k == 0 then a >= 350.0 || a <= 10.0
    else if k % 2 == 0 then centre - 10.0 <= a <= centre + 10.0
    else centre - 35.0 < a < centre + 35.0
  }

  /** Every normalised angle lies in exactly one band, and the switch names that band's phase. */
  lemma PhaseBandsPartition(a: real)
    requires 0.0 <= a < 360.0
    ensures exists k: nat :: k < 8 && InBand(k, a) && PhaseOfNormalized(a) == PhaseNames[k]
    ensures forall j: nat, k: nat :: j < 8 && k < 8 && InBand(j, a) && InBand(k, a) ==> j == k
    ensures PhaseOfNormalized(a) != "Unknown Phase"
  {
    BandsDisjoint(a);
    var k: nat :=
      if a >= 350.0 || a <= 10.0 then 0
      else if a < 80.0 then 1
      else if a <= 100.0 then 2
      else if a < 170.0 then 3
      else if a <= 190.0 then 4
      else if a < 260.0 then 5
      else if a <= 280.0 then 6
      else 7;
    assert InBand(k, a) && PhaseOfNormalized(a) == PhaseNames[k];
  }

  /** No angle lies in two bands. */
  lemma BandsDisjoint(a: real)
    ensures forall j: nat, k: nat :: j < 8 && k < 8 && InBand(j, a) && InBand(k, a) ==> j == k
  {
    forall j: nat, k: nat | j < 8 && k < 8 && InBand(j, a) && InBand(k, a)
      ensures j == k
    {
    }
  }

  lemma FloorShift(x: real, k: int)
    ensures (x + k as real).Floor == x.Floor + k
  {
  }

  /** MoonPhaseFromAngle: add whole turns while negative, reduce modulo 360, classify. */
  method MoonPhaseFromAngle(angle0: real) returns (phase: string)
    ensures phase == PhaseOfNormalized(NormalizedAngle(angle0))
    ensures phase in PhaseNames
  {
    var angle := angle0;
    ghost var turns: int := 0;
    while angle < 0.0
      invariant angle == angle0 + 360.0 * (turns as real)
      decreases if angle < 0.0 then (-angle).Floor + 1 else 0
    {
      angle := angle + 360.0;
      turns := turns + 1;
    }
    FloorShift(angle0 / 360.0, turns);
    assert angle / 360.0 == angle0 / 360.0 + turns as real;
    angle := Mod360(angle);
    assert angle == NormalizedAngle(angle0);
    PhaseBandsPartition(angle);
    phase := PhaseOfNormalized(angle);
  }

  /** 2^62: from here down, float64 values are 1024 apart, so adding 360 rounds back to the same value. */
  const TwoPow62: real := 4611686018427387904.0

  /**
   * One pass of the loop's `angle += 360` in float64 arithmetic, below -2^62
   * where the sum rounds back to `angle`. Rounding of smaller sums is not
   * modelled.
   */
  function AddTurnF64(angle: real): real {
    if angle < -TwoPow62 then angle else angle + 360.0
  }

  /** The angle after at most `n` passes of the normalising loop, in float64 arithmetic. */
  function LoopAngle(angle: real, n: nat): real
    decreases n
  {
    if n == 0 || angle >= 0.0 then angle else LoopAngle(AddTurnF64(angle), n - 1)
  }

  /**
   * As written, an angle below -2^62 never leaves the loop: after any number
   * of passes it is unchanged and still negative.
   */
  lemma {:induction false} LoopStuckBelowTwoPow62(angle: real, n: nat)
    requires angle < -TwoPow62
    ensures LoopAngle(angle, n) == angle && LoopAngle(angle, n) < 0.0
  {
    if n > 0 {
      LoopStuckBelowTwoPow62(AddTurnF64(angle), n - 1);
    }
  }

  /**
   * The normalisation done without the loop: math.Mod first, then one turn
   * added to a negative remainder. Every angle gets one of the eight phases,
   * the one whose band holds the angle shifted into [0, 360).
   */
  function PhaseFromAngleByMod(angle: real): (phase: string)
    ensures phase in PhaseNames
    ensures exists k: nat :: k < 8 && InBand(k, NormalizedAngle(angle)) && phase == PhaseNames[k]
  {
    var m := Mod360(angle);
    var a := if m < 0.0 then m + 360.0 else m;
    assert a == NormalizedAngle(angle) by {
      ModIsNormalized(angle);
    }
    PhaseBandsPartition(a);
    PhaseOfNormalized(a)
  }

  /** math.Mod(x, 360), plus one turn when negative, is the angle shifted into [0, 360). */
  lemma ModIsNormalized(x: real)
    ensures (if Mod360(x) < 0.0 then Mod360(x) + 360.0 else Mod360(x)) == NormalizedAngle(x)
  {
    var q := x / 360.0;
    if x >= 0.0 {
      assert Trunc(q) == q.Floor;
    } else if q.Floor as real == q {
      assert Trunc(q) == q.Floor;
    } else {
      assert Trunc(q) == q.Floor + 1;
    }
  }

  /** The sample angles: whole turns and negative angles land in the same phase. */
  lemma MoonPhaseSamples()
    ensures PhaseOfNormalized(NormalizedAngle(0.0)) == "New Moon"
    ensures PhaseOfNormalized(NormalizedAngle(355.0)) == "New Moon"
    ensures PhaseOfNormalized(NormalizedAngle(90.0)) == "First Quarter"
    ensures PhaseOfNormalized(NormalizedAngle(180.0)) == "Full Moon"
    ensures PhaseOfNormalized(NormalizedAngle(270.0)) == "Last Quarter"
    ensures PhaseOfNormalized(NormalizedAngle(-90.0)) == "Last Quarter"
    ensures PhaseOfNormalized(NormalizedAngle(720.0)) == "New Moon"
  {
    assert (-90.0 / 360.0).Floor == -1;
    assert (720.0 / 360.0).Floor == 2;
    assert (355.0 / 360.0).Floor == 0;
  }

  // ---------------------------------------------------------------------------
  // HasExtension
  // ---------------------------------------------------------------------------

  /** `e` is a suffix of `s`. */
  predicate IsSuffix(e: string, s: string) {
    |e| <= |s| && s[|s| - |e|..] == e
  }

  /** filepath.Ext on a slash-separated path: from the last '.' of the final element to the end, or "". */
  function Ext(path: string): (ext: string)
    ensures IsSuffix(ext, path)
    ensures ext != "" ==> ext[0] == '.' && forall i :: 0 <= i < |ext| ==> ext[i] != '/' && (i > 0 ==> ext[i] != '.')
  {
    if path == [] || path[|path| - 1] == '/' then ""
    else if path[|path| - 1] == '.' then "."
    else
      var init := path[..|path| - 1];
      var e := Ext(init);
      if e == "" then ""
      else
        var c := path[|path| - 1];
        assert path[|init| - |e|..] == path[|init| - |e|..|init|] + path[|init|..];
        assert path[|init| - |e|..|init|] == init[|init| - |e|..] == e;
        assert path[|init|..] == [c];
        e + [c]
  }

  /** No '/' follows index i in the path. */
  predicate NoSlashAfter(path: string, i: int) {
    forall j :: 0 <= j < |path| && i < j ==> path[j] != '/'
  }

  /** The final element of the path (what follows its last '/') contains a dot. */
  predicate DotInFinalElement(path: string) {
    exists i :: 0 <= i < |path| && path[i] == '.' && NoSlashAfter(path, i)
  }

  /** Ext is empty exactly when the final element has no dot. */
  lemma {:induction false} ExtNonEmptyIff(path: string)
    ensures Ext(path) != "" <==> DotInFinalElement(path)
  {
    if path == [] {
    } else if path[|path| - 1] == '/' {
      forall i | 0 <= i < |path| && path[i] == '.' ensures !NoSlashAfter(path, i) {
        assert i < |path| - 1;
      }
    } else if path[|path| - 1] == '.' {
      assert NoSlashAfter(path, |path| - 1);
    } else {
      var init := path[..|path| - 1];
      ExtNonEmptyIff(init);
      if DotInFinalElement(init) {
        var i :| 0 <= i < |init| && init[i] == '.' && NoSlashAfter(init, i);
        assert NoSlashAfter(path, i);
      }
      if DotInFinalElement(path) {
        var i :| 0 <= i < |path| && path[i] == '.' && NoSlashAfter(path, i);
        assert i < |init|;
        assert NoSlashAfter(init, i);
      }
    }
  }

  /** HasExtension: the final element has a dot suffix (Ext non-empty) other than ".xml". */
  function HasExtension(path: string): (r: bool)
    ensures r <==> Ext(path) != "" && Ext(path) != ".xml"
  {
    var ext := Ext(path);
    if |ext| == 0 then false
    else
      ContainsChar(ext[1..], '/');
      !Contains(ext[1..], "/") && ext != ".xml"
  }

  /** A path has an extension iff its final element (after the last '/') contains a dot, and it is not ".xml". */
  lemma HasExtensionIff(path: string)
    ensures HasExtension(path) <==> DotInFinalElement(path) && Ext(path) != ".xml"
  {
    ExtNonEmptyIff(path);
  }

  /** Ext read one character at a time from the right end. */
  lemma ExtStep(path: string, c: char)
    ensures Ext(path + [c]) ==
      if c == '/' then "" else if c == '.' then "." else if Ext(path) == "" then "" else Ext(path) + [c]
  {
    assert (path + [c])[..|path|] == path;
  }

  /** A path ending in a dot and a run of characters that are neither dots nor slashes has that ending as its extension. */
  lemma {:induction false} ExtOfSuffix(path: string, ext: string)
    requires |ext| >= 1 && ext[0] == '.'
    requires forall i :: 1 <= i < |ext| ==> ext[i] != '/' && ext[i] != '.'
    ensures Ext(path + ext) == ext
    decreases |ext|
  {
    if |ext| == 1 {
      ExtStep(path, '.');
      assert path + ext == path + ['.'];
    } else {
      var init := ext[..|ext| - 1];
      var c := ext[|ext| - 1];
      ExtOfSuffix(path, init);
      assert path + ext == (path + init) + [c];
      ExtStep(path + init, c);
      assert init + [c] == ext;
    }
  }

  /** A final path element without a dot gives no extension. */
  lemma {:induction false} ExtOfPlain(path: string, name: string)
    requires forall i :: 0 <= i < |name| ==> name[i] != '/' && name[i] != '.'
    ensures Ext(path + "/" + name) == ""
    decreases |name|
  {
    if name == [] {
      ExtStep(path, '/');
      assert path + "/" + name == path + ['/'];
    } else {
      var init := name[..|name| - 1];
      var c := name[|name| - 1];
      ExtOfPlain(path, init);
      assert path + "/" + name == (path + "/" + init) + [c];
      ExtStep(path + "/" + init, c);
    }
  }

  lemma ExtOfFeedPath()
    ensures Ext("/rss/nb10_e.xml") == ".xml"
  {
    ExtOfSuffix("/rss/nb10_e", ".xml");
    assert "/rss/nb10_e" + ".xml" == "/rss/nb10_e.xml";
  }

  lemma ExtOfStats()
    ensures Ext("/stats") == ""
  {
    ExtOfPlain("", "stats");
    assert "" + "/" + "stats" == "/stats";
  }

  lemma ExtOfScript()
    ensures Ext("/script.js") == ".js"
  {
    ExtOfSuffix("/script", ".js");
    assert "/script" + ".js" == "/script.js";
  }

  lemma HasExtensionSamples()
    ensures !HasExtension("/rss/nb10_e.xml")
    ensures !HasExtension("/stats")
    ensures HasExtension("/script.js")
    ensures !HasExtension("/")
  {
    ExtOfFeedPath();
    ExtOfStats();
    ExtOfScript();
    ExtStep("", '/');
  }
}
