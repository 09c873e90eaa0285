/**
 * The HUD's "Explore Content" button: an eight-second linear scroll from the
 * current position to the bottom of the page, driven by animation frames;
 * and the intro counter that shows the progress bar's tween as a percentage.
 */
module ScrollTween {
  import opened Base

  /** The tween lasts 8000 ms. */
  const Duration: real := 8000.0

  /** `Math.min(elapsed / duration, 1)`. */
  function Progress(elapsed: real): (p: real)
    ensures p <= 1.0
    ensures p == 1.0 <==> elapsed >= Duration
    ensures elapsed >= 0.0 ==> 0.0 <= p
    ensures elapsed < 0.0 ==> p < 0.0
  {
    var q := elapsed / Duration;
    if q < 1.0 then q else 1.0
  }

  /** Progress never goes down as time goes on. */
  lemma ProgressMonotone(e1: real, e2: real)
    requires e1 <= e2
    ensures Progress(e1) <= Progress(e2)
  {
    assert e1 / Duration <= e2 / Duration;
  }

  /** `start + (target - start) * ease`, with the linear ease `ease = progress`. */
  function Position(start: real, target: real, p: real): (y: real)
    ensures p == 0.0 ==> y == start
    ensures p == 1.0 ==> y == target
  {
    start + (target - start) * p
  }

  /** Arithmetic helper for `PositionBetween`: `0 <= a * p <= a` for a fraction `p`. */
  lemma ScaleByFraction(a: real, p: real)
    requires 0.0 <= a && 0.0 <= p <= 1.0
    ensures 0.0 <= a * p <= a
  {
  }

  /** Every position of the tween lies between the start and the target. */
  lemma PositionBetween(start: real, target: real, p: real)
    requires 0.0 <= p <= 1.0
    ensures start <= target ==> start <= Position(start, target, p) <= target
    ensures target <= start ==> target <= Position(start, target, p) <= start
  {
    var d := target - start;
    assert Position(start, target, p) == start + d * p;
    if start <= target {
      ScaleByFraction(d, p);
    } else {
      ScaleByFraction(-d, p);
      assert d * p == -((-d) * p);
    }
  }

  /** Later frames are never further from the target than earlier ones. */
  lemma PositionMonotone(start: real, target: real, p1: real, p2: real)
    requires p1 <= p2
    ensures start <= target ==> Position(start, target, p1) <= Position(start, target, p2)
    ensures target <= start ==> Position(start, target, p1) >= Position(start, target, p2)
  {
    var d := p2 - p1;
    assert Position(start, target, p2) - Position(start, target, p1) == (target - start) * d;
    if start <= target {
      MulNonNegative(target - start, d);
    } else {
      MulNonNegative(start - target, d);
      assert (target - start) * d == -((start - target) * d);
    }
  }

  /**
   * A frame stamped before the click (an animation-frame timestamp may
   * precede the `performance.now()` read in the click handler) scrolls to the
   * far side of the start, away from the target.
   */
  lemma EarlyFrameOvershootsBackwards(start: real, target: real, elapsed: real)
    requires elapsed < 0.0 && start < target
    ensures Position(start, target, Progress(elapsed)) < start
  {
    var p := Progress(elapsed);
    assert (target - start) * (-p) > 0.0;
  }

  /**
   * The animation loop, one iteration per animation frame: scroll to the
   * interpolated position and reschedule until progress reaches 1. Returns
   * the positions scrolled to and whether the loop stopped by itself.
   */
  method ScrollToBottom(start: real, target: real, startTime: real, frameTimes: seq<real>)
    returns (scrolls: seq<real>, finished: bool)
    ensures |scrolls| <= |frameTimes|
    ensures forall i :: 0 <= i < |scrolls| ==> scrolls[i] == Position(start, target, Progress(frameTimes[i] - startTime))
    ensures forall i :: 0 <= i < |scrolls| - 1 ==> frameTimes[i] - startTime < Duration
    ensures finished <==> scrolls != [] && frameTimes[|scrolls| - 1] - startTime >= Duration
    ensures finished ==> scrolls[|scrolls| - 1] == target
    ensures !finished ==> |scrolls| == |frameTimes|
  {
    scrolls, finished := [], false;
    var i := 0;
    while i < |frameTimes|
      invariant 0 <= i <= |frameTimes| && |scrolls| == i && !finished
      invariant forall j :: 0 <= j < i ==> scrolls[j] == Position(start, target, Progress(frameTimes[j] - startTime))
      invariant forall j :: 0 <= j < i ==> frameTimes[j] - startTime < Duration
    {
      var elapsed := frameTimes[i] - startTime;
      var progress := Progress(elapsed);
      var ease := progress;
      scrolls := scrolls + [start + (target - start) * ease];
      if !(progress < 1.0) {
        finished := true;
        return;
      }
      i := i + 1;
    }
  }

  /** `Math.round`: halves round up. */
  function Round(x: real): (n: int)
    ensures x - 0.5 < n as real <= x + 0.5
  {
    (x + 0.5).Floor
  }

  /** The counter's number: `Math.round(progress * 98)`. */
  function PercentLabel(p: real): (n: int)
    ensures 0.0 <= p <= 1.0 ==> 0 <= n <= 98
    ensures p == 0.0 ==> n == 0
    ensures p == 1.0 ==> n == 98
  {
    Round(p * 98.0)
  }

  /** The counter never goes down as the tween advances. */
  lemma PercentLabelMonotone(p1: real, p2: real)
    requires p1 <= p2
    ensures PercentLabel(p1) <= PercentLabel(p2)
  {
    assert p1 * 98.0 + 0.5 <= p2 * 98.0 + 0.5;
  }
}
