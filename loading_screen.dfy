/**
 * The splash screen of src/components/ui/LoadingScreen.jsx: a progress counter an interval
 * steps by one up to 100 (clearing itself on the tick that finds 100), a lightsaber blade scaled
 * by the progress, and a blade colour drawn once from `lightsaberColors`.
 */
module LoadingScreen {

  /** `lightsaberColors`, in declaration order: red, blue, green, purple. */
  const LightsaberColors: seq<string> := ["#ff0000", "#0077ff", "#00ff00", "#800080"]

  /**
   * `getRandomColor` for a draw `r` of `Math.random()`: the colour at `floor(r * 4)`, which is
   * always one of the four.
   */
  function ColourFor(r: real): (c: string)
    requires 0.0 <= r < 1.0
    ensures c in LightsaberColors
  {
    var i := (r * (|LightsaberColors| as real)).Floor;
    LightsaberColors[i]
  }

  /** Each colour is drawn from a quarter of the unit interval. */
  lemma ColourQuarters(r: real)
    requires 0.0 <= r < 1.0
    ensures r < 0.25 ==> ColourFor(r) == "#ff0000"
    ensures 0.25 <= r < 0.5 ==> ColourFor(r) == "#0077ff"
    ensures 0.5 <= r < 0.75 ==> ColourFor(r) == "#00ff00"
    ensures 0.75 <= r ==> ColourFor(r) == "#800080"
  {
  }

  /** The updater passed to `setProgress`: 100 once at or past 100, otherwise one more. */
  function Step(p: int): (r: int)
    ensures r <= 100
    ensures p <= 100 ==> p <= r
    ensures r == p <==> p == 100
  {
    if p >= 100 then 100 else p + 1
  }

  function Steps(p: int, k: nat): int {
    if k == 0 then p else Step(Steps(p, k - 1))
  }

  /** From 0, `k` ticks show `min(k, 100)`: the bar fills in exactly 100 ticks and then stays full. */
  lemma {:induction false} StepsFromZero(k: nat)
    ensures Steps(0, k) == if k < 100 then k else 100
  {
    if k > 0 {
      StepsFromZero(k - 1);
    }
  }

  /** The blade's `scaleX`: the progress as a fraction, in [0, 1] while the progress is in [0, 100]. */
  function ScaleX(progress: int): (s: real)
    ensures 0 <= progress <= 100 ==> 0.0 <= s <= 1.0
    ensures progress == 100 ==> s == 1.0
  {
    progress as real / 100.0
  }

  class SplashScreen {
    var progress: int
    var intervalRunning: bool
    const saberColor: string

    /** Mounting: progress 0, the colour drawn with `draw`, the interval started. */
    constructor (draw: real)
      requires 0.0 <= draw < 1.0
      ensures progress == 0 && intervalRunning
      ensures saberColor == ColourFor(draw) && saberColor in LightsaberColors
    {
      progress, intervalRunning := 0, true;
      saberColor := ColourFor(draw);
    }

    /** One firing of the 50 ms interval; the tick that finds 100 also clears the interval. */
    method IntervalTick()
      requires intervalRunning
      modifies this
      ensures progress == Step(old(progress))
      ensures intervalRunning <==> old(progress) < 100
      ensures 0 <= old(progress) <= 100 ==> 0 <= progress <= 100
    {
      if progress >= 100 {
        intervalRunning := false;
        progress := 100;
      } else {
        progress := progress + 1;
      }
    }

    /** Unmounting clears the interval. */
    method Unmount()
      modifies this
      ensures !intervalRunning && progress == old(progress)
    {
      intervalRunning := false;
    }
  }
}
