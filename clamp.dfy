/** Overscroll correction at drag release. Per axis the overflow is half of
    (image extent - container extent); four flags compare the pan offset with
    plus and minus the overflow, and an eight-way chain picks the new offset.
    The chain is kept literally, in its branch order. */
module Clamp {
  import opened Geometry

  /** How far the image may be panned on one axis before background shows. */
  function Overflow(imageExtent: real, containerExtent: real): real
  {
    (imageExtent - containerExtent) / 2.0
  }

  /** The four over-travel flags, written as the component writes them. */
  predicate BottomOver(move: Point, imageRect: Rect, containerRect: Rect)
  {
    move.y < -(imageRect.height - containerRect.height) / 2.0
  }

  predicate TopOver(move: Point, imageRect: Rect, containerRect: Rect)
  {
    move.y > (imageRect.height - containerRect.height) / 2.0
  }

  predicate RightOver(move: Point, imageRect: Rect, containerRect: Rect)
  {
    move.x < -(imageRect.width - containerRect.width) / 2.0
  }

  predicate LeftOver(move: Point, imageRect: Rect, containerRect: Rect)
  {
    move.x > (imageRect.width - containerRect.width) / 2.0
  }

  /** One axis on its own: below -o snaps to -o, else above o snaps to o,
      else unchanged. The lower test comes first, as in the chain. */
  function AxisSnap(v: real, o: real): real
  {
    if v < -o then -o else if v > o then o else v
  }

  /** The textbook clamp of v into [lo, hi]. */
  function Clamp(v: real, lo: real, hi: real): (c: real)
    requires lo <= hi
    ensures lo <= c <= hi
    ensures lo <= v <= hi ==> c == v
  {
    Max(lo, Min(v, hi))
  }

  /** The offset chosen at drag release by the eight-branch chain. Whatever
      the signs of the overflows, the chain treats the two axes
      independently: each axis is snapped on its own. */
  function ClampMove(move: Point, imageRect: Rect, containerRect: Rect): (r: Point)
    ensures r == Point(AxisSnap(move.x, Overflow(imageRect.width, containerRect.width)),
                       AxisSnap(move.y, Overflow(imageRect.height, containerRect.height)))
  {
    var bottomOver := BottomOver(move, imageRect, containerRect);
    var topOver := TopOver(move, imageRect, containerRect);
    var rightOver := RightOver(move, imageRect, containerRect);
    var leftOver := LeftOver(move, imageRect, containerRect);
    if bottomOver && rightOver then
      Point(-(imageRect.width - containerRect.width) / 2.0, -(imageRect.height - containerRect.height) / 2.0)
    else if bottomOver && leftOver then
      Point((imageRect.width - containerRect.width) / 2.0, -(imageRect.height - containerRect.height) / 2.0)
    else if bottomOver then
      move.(y := -(imageRect.height - containerRect.height) / 2.0)
    else if topOver && rightOver then
      Point(-(imageRect.width - containerRect.width) / 2.0, (imageRect.height - containerRect.height) / 2.0)
    else if topOver && leftOver then
      Point((imageRect.width - containerRect.width) / 2.0, (imageRect.height - containerRect.height) / 2.0)
    else if topOver then
      move.(y := (imageRect.height - containerRect.height) / 2.0)
    else if rightOver then
      move.(x := -(imageRect.width - containerRect.width) / 2.0)
    else if leftOver then
      move.(x := (imageRect.width - containerRect.width) / 2.0)
    else
      move
  }

  /** The image is at least as large as the container on both axes. */
  predicate Covers(imageRect: Rect, containerRect: Rect)
  {
    Overflow(imageRect.width, containerRect.width) >= 0.0 &&
    Overflow(imageRect.height, containerRect.height) >= 0.0
  }

  /** When the image is at least as large as the container, the chain is the
      symmetric clamp into [-o, o] on each axis. */
  lemma ClampIsSymmetricClamp(move: Point, imageRect: Rect, containerRect: Rect)
    requires Covers(imageRect, containerRect)
    ensures var ox := Overflow(imageRect.width, containerRect.width);
            var oy := Overflow(imageRect.height, containerRect.height);
            ClampMove(move, imageRect, containerRect) == Point(Clamp(move.x, -ox, ox), Clamp(move.y, -oy, oy))
  {
  }

  /** Under the same condition, an axis already within [-o, o] keeps its
      value, so an offset within range on both axes is untouched. */
  lemma ClampKeepsInRangeAxis(move: Point, imageRect: Rect, containerRect: Rect)
    requires Covers(imageRect, containerRect)
    ensures var ox := Overflow(imageRect.width, containerRect.width);
            var oy := Overflow(imageRect.height, containerRect.height);
            var r := ClampMove(move, imageRect, containerRect);
            (-ox <= move.x <= ox ==> r.x == move.x) &&
            (-oy <= move.y <= oy ==> r.y == move.y) &&
            (-ox <= move.x <= ox && -oy <= move.y <= oy ==> r == move)
  {
  }

  /** On any rectangles, an axis changes only when one of its flags is set. */
  lemma ClampChangesOnlyOverAxes(move: Point, imageRect: Rect, containerRect: Rect)
    ensures var r := ClampMove(move, imageRect, containerRect);
            (r.x != move.x ==> LeftOver(move, imageRect, containerRect) || RightOver(move, imageRect, containerRect)) &&
            (r.y != move.y ==> TopOver(move, imageRect, containerRect) || BottomOver(move, imageRect, containerRect))
  {
  }

  /** Releasing twice with the same rectangles gives the offset of one
      release, when the image is at least as large as the container. */
  lemma ClampIdempotent(move: Point, imageRect: Rect, containerRect: Rect)
    requires Covers(imageRect, containerRect)
    ensures var r := ClampMove(move, imageRect, containerRect);
            ClampMove(r, imageRect, containerRect) == r
  {
  }

  /** When the image is smaller than the container on the x axis, the chain
      does not centre it: rightOver wins by order and pins x to -o (which is
      positive), or else leftOver pins it to o; and a second release moves it
      to the other end, so the clamp is not idempotent there. */
  lemma SmallImageFlipsX(move: Point, imageRect: Rect, containerRect: Rect)
    requires Overflow(imageRect.width, containerRect.width) < 0.0
    ensures var o := Overflow(imageRect.width, containerRect.width);
            var r := ClampMove(move, imageRect, containerRect);
            (r.x == if move.x < -o then -o else o) &&
            ClampMove(r, imageRect, containerRect).x == -r.x &&
            ClampMove(r, imageRect, containerRect).x != r.x
  {
  }

  /** The same for the y axis, where bottomOver wins by order. */
  lemma SmallImageFlipsY(move: Point, imageRect: Rect, containerRect: Rect)
    requires Overflow(imageRect.height, containerRect.height) < 0.0
    ensures var o := Overflow(imageRect.height, containerRect.height);
            var r := ClampMove(move, imageRect, containerRect);
            (r.y == if move.y < -o then -o else o) &&
            ClampMove(r, imageRect, containerRect).y == -r.y &&
            ClampMove(r, imageRect, containerRect).y != r.y
  {
  }

  /** Container 400x300, image 800x300 rendered centred: an offset x = 500
      is pulled back to 200, and y ends at 0 because the image has no
      vertical slack. */
  lemma WideImageScenario(y: real)
    ensures ClampMove(Point(500.0, y), Rect(-200.0, 0.0, 800.0, 300.0), Rect(0.0, 0.0, 400.0, 300.0)) == Point(200.0, 0.0)
  {
  }
}
