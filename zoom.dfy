/** Wheel zoom of the viewer: zoom moves in steps of ZOOM_STEP between
    MIN_ZOOM and MAX_ZOOM, and a step that would leave that range is refused.
    Zoom values are exact reals, so 0.3 is exactly three tenths. */
module Zoom {

  const ZOOM_STEP: real := 0.3
  const MAX_ZOOM: real := ZOOM_STEP * 5.0 + 1.0
  const MIN_ZOOM: real := 1.0

  /** The k-th zoom level, counted in steps from MIN_ZOOM. */
  function ZoomLevel(k: nat): real
  {
    MIN_ZOOM + (k as real) * ZOOM_STEP
  }

  /** z is one of the six levels MIN_ZOOM, MIN_ZOOM + ZOOM_STEP, ..., MAX_ZOOM. */
  ghost predicate IsZoomLevel(z: real)
  {
    exists k: nat :: k <= 5 && z == ZoomLevel(k)
  }

  predicate InZoomRange(z: real)
  {
    MIN_ZOOM <= z <= MAX_ZOOM
  }

  /** Scrolling down: one step smaller unless that would go below MIN_ZOOM. */
  function ZoomOut(prev: real): (z: real)
    ensures z == prev || z == prev - ZOOM_STEP
    ensures z == prev - ZOOM_STEP <==> prev - ZOOM_STEP >= MIN_ZOOM
    ensures InZoomRange(prev) ==> InZoomRange(z)
  {
    if prev - ZOOM_STEP < MIN_ZOOM then prev else prev - ZOOM_STEP
  }

  /** Scrolling up: one step larger unless that would exceed MAX_ZOOM. */
  function ZoomIn(prev: real): (z: real)
    ensures z == prev || z == prev + ZOOM_STEP
    ensures z == prev + ZOOM_STEP <==> prev + ZOOM_STEP <= MAX_ZOOM
    ensures InZoomRange(prev) ==> InZoomRange(z)
  {
    if prev + ZOOM_STEP > MAX_ZOOM then prev else prev + ZOOM_STEP
  }

  /** The zoom after one wheel event with vertical delta deltaY: only the
      sign of the delta matters, and a zero delta leaves the zoom alone. */
  function WheelZoom(prev: real, deltaY: real): (z: real)
    ensures deltaY > 0.0 ==> z == ZoomOut(prev)
    ensures deltaY < 0.0 ==> z == ZoomIn(prev)
    ensures deltaY == 0.0 ==> z == prev
    ensures InZoomRange(prev) ==> InZoomRange(z)
  {
    if deltaY > 0.0 then ZoomOut(prev)
    else if deltaY < 0.0 then ZoomIn(prev)
    else prev
  }

  /** The zoom after a sequence of wheel events, applied in order. */
  function ZoomAfterWheel(prev: real, deltas: seq<real>): (z: real)
    ensures InZoomRange(prev) ==> InZoomRange(z)
    decreases |deltas|
  {
    if |deltas| == 0 then prev else ZoomAfterWheel(WheelZoom(prev, deltas[0]), deltas[1..])
  }

  /** The two bounds are the first and the last level, and MAX_ZOOM is 2.5. */
  lemma BoundsAreLevels()
    ensures ZoomLevel(0) == MIN_ZOOM && ZoomLevel(5) == MAX_ZOOM
    ensures MIN_ZOOM == 1.0 && MAX_ZOOM == 2.5
    ensures IsZoomLevel(MIN_ZOOM) && IsZoomLevel(MAX_ZOOM)
  {
  }

  /** Every level lies in the allowed range. */
  lemma LevelInRange(z: real)
    requires IsZoomLevel(z)
    ensures InZoomRange(z)
  {
    var k: nat :| k <= 5 && z == ZoomLevel(k);
  }

  /** On a level, zooming out is refused exactly at MIN_ZOOM and otherwise
      reaches the level below; zooming in is refused exactly at MAX_ZOOM and
      otherwise reaches the level above. */
  lemma StepsBetweenLevels(k: nat)
    requires k <= 5
    ensures ZoomOut(ZoomLevel(k)) == if k == 0 then ZoomLevel(k) else ZoomLevel(k - 1)
    ensures ZoomIn(ZoomLevel(k)) == if k == 5 then ZoomLevel(k) else ZoomLevel(k + 1)
  {
    if k > 0 {
      assert ZoomLevel(k) - ZOOM_STEP == ZoomLevel(k - 1);
    }
    assert ZoomLevel(k) + ZOOM_STEP == ZoomLevel(k + 1);
  }

  /** A wheel event on a level lands on a level. */
  lemma WheelKeepsLevel(prev: real, deltaY: real)
    requires IsZoomLevel(prev)
    ensures IsZoomLevel(WheelZoom(prev, deltaY))
  {
    var k: nat :| k <= 5 && prev == ZoomLevel(k);
    StepsBetweenLevels(k);
    if deltaY > 0.0 && k > 0 {
      assert WheelZoom(prev, deltaY) == ZoomLevel(k - 1);
    } else if deltaY < 0.0 && k < 5 {
      assert WheelZoom(prev, deltaY) == ZoomLevel(k + 1);
    } else {
      assert WheelZoom(prev, deltaY) == ZoomLevel(k);
    }
  }

  /** However many wheel events arrive, a zoom that starts on a level (the
      initial zoom 1 is one) stays on a level, hence within [1, 2.5]. */
  lemma {:induction false} WheelSequenceKeepsLevel(prev: real, deltas: seq<real>)
    requires IsZoomLevel(prev)
    ensures IsZoomLevel(ZoomAfterWheel(prev, deltas))
    ensures InZoomRange(ZoomAfterWheel(prev, deltas))
    decreases |deltas|
  {
    if |deltas| == 0 {
      LevelInRange(prev);
    } else {
      WheelKeepsLevel(prev, deltas[0]);
      WheelSequenceKeepsLevel(WheelZoom(prev, deltas[0]), deltas[1..]);
    }
  }

  /** On a level, a zoom-in is a no-op exactly at MAX_ZOOM and a zoom-out is a
      no-op exactly at MIN_ZOOM. */
  lemma RefusedOnlyAtBounds(z: real)
    requires IsZoomLevel(z)
    ensures ZoomIn(z) == z <==> z == MAX_ZOOM
    ensures ZoomOut(z) == z <==> z == MIN_ZOOM
  {
    var k: nat :| k <= 5 && z == ZoomLevel(k);
    StepsBetweenLevels(k);
  }

  /** From zoom 1, three wheel-ups reach 1.9; ten wheel-downs from there end
      at 1 and no lower. */
  lemma ZoomScenario()
    ensures ZoomAfterWheel(1.0, [-1.0, -1.0, -1.0]) == 1.9
    ensures ZoomAfterWheel(1.9, seq(10, _ => 1.0)) == 1.0
  {
    var ups := [-1.0, -1.0, -1.0];
    assert ZoomAfterWheel(1.0, ups) == ZoomAfterWheel(1.3, ups[1..]);
    assert ZoomAfterWheel(1.3, ups[1..]) == ZoomAfterWheel(1.6, ups[2..]);
    assert ZoomAfterWheel(1.6, ups[2..]) == ZoomAfterWheel(1.9, ups[3..]);
    var downs := seq(10, _ => 1.0);
    AtMinimumStays(downs[3..]);
    assert ZoomAfterWheel(1.9, downs) == ZoomAfterWheel(1.6, downs[1..]);
    assert ZoomAfterWheel(1.6, downs[1..]) == ZoomAfterWheel(1.3, downs[2..]);
    assert ZoomAfterWheel(1.3, downs[2..]) == ZoomAfterWheel(1.0, downs[3..]);
  }

  /** Once at MIN_ZOOM, any number of wheel-downs keep the zoom there. */
  lemma {:induction false} AtMinimumStays(downs: seq<real>)
    requires forall i :: 0 <= i < |downs| ==> downs[i] > 0.0
    ensures ZoomAfterWheel(MIN_ZOOM, downs) == MIN_ZOOM
    decreases |downs|
  {
    if |downs| > 0 {
      AtMinimumStays(downs[1..]);
    }
  }
}
