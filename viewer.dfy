/** The viewer component's state and its event handlers. Each handler is one
    atomic step on the five state fields; the measured rectangles and the
    pointer position are passed in by the caller. */
module Viewer {
  import opened Geometry
  import opened Zoom
  import opened Clamp

  class ImageZoom {
    var size: Size       // natural size of the loaded image
    var move: Point      // pan offset from the centred position
    var startPos: Point  // drag anchor: pointer minus offset at press
    var isDrag: bool     // a drag is in progress
    var zoom: real       // scale factor

    /** The zoom is always one of the six levels, so within [1, 2.5]. */
    ghost predicate Valid()
      reads this
    {
      IsZoomLevel(zoom)
    }

    constructor ()
      ensures Valid()
      ensures size == Size(0, 0) && move == Point(0.0, 0.0) && startPos == Point(0.0, 0.0)
      ensures !isDrag && zoom == MIN_ZOOM
    {
      size := Size(0, 0);
      move := Point(0.0, 0.0);
      startPos := Point(0.0, 0.0);
      isDrag := false;
      zoom := 1.0;
      new;
      BoundsAreLevels();
    }

    /** Mouse down at `pointer`: start dragging and anchor the drag, whether
        or not a drag was already in progress. */
    method HandleDragStart(pointer: Point)
      requires Valid()
      modifies this
      ensures Valid()
      ensures isDrag && startPos == pointer.Minus(old(move))
      ensures move == old(move) && zoom == old(zoom) && size == old(size)
    {
      isDrag := true;
      startPos := Point(pointer.x - move.x, pointer.y - move.y);
    }

    /** Mouse move at `pointer`: while dragging, the offset follows the
        pointer from the anchor, without any bound; otherwise nothing changes. */
    method HandleDrag(pointer: Point)
      requires Valid()
      modifies this
      ensures Valid()
      ensures !old(isDrag) ==> unchanged(this)
      ensures old(isDrag) ==> move == pointer.Minus(old(startPos))
      ensures isDrag == old(isDrag) && startPos == old(startPos)
      ensures zoom == old(zoom) && size == old(size)
    {
      if !isDrag {
        return;
      }
      move := Point(pointer.x - startPos.x, pointer.y - startPos.y);
    }

    /** Mouse up, with the image and container rectangles measured at that
        moment: while dragging, stop and pull the offset back with the clamp
        chain; otherwise nothing changes. */
    method HandleDragEnd(imageRect: Rect, containerRect: Rect)
      requires Valid()
      modifies this
      ensures Valid()
      ensures !old(isDrag) ==> unchanged(this)
      ensures !isDrag
      ensures old(isDrag) ==> move == ClampMove(old(move), imageRect, containerRect)
      ensures startPos == old(startPos) && zoom == old(zoom) && size == old(size)
    {
      if !isDrag {
        return;
      }
      isDrag := false;
      move := ClampMove(move, imageRect, containerRect);
    }

    /** Wheel event: one zoom step by the sign of deltaY; the pan and drag
        state are never touched. */
    method HandleWheel(deltaY: real)
      requires Valid()
      modifies this
      ensures Valid()
      ensures zoom == WheelZoom(old(zoom), deltaY)
      ensures move == old(move) && startPos == old(startPos) && isDrag == old(isDrag) && size == old(size)
    {
      WheelKeepsLevel(zoom, deltaY);
      zoom := WheelZoom(zoom, deltaY);
    }

    /** The image finished loading with natural size w x h. */
    method HandleImageLoad(w: nat, h: nat)
      requires Valid()
      modifies this
      ensures Valid()
      ensures size == Size(w, h)
      ensures move == old(move) && startPos == old(startPos) && isDrag == old(isDrag) && zoom == old(zoom)
    {
      size := Size(w, h);
    }
  }

  /** The zoom of a valid viewer is within [MIN_ZOOM, MAX_ZOOM]. */
  lemma ValidZoomInRange(v: ImageZoom)
    requires v.Valid()
    ensures MIN_ZOOM <= v.zoom <= MAX_ZOOM
  {
  }

  /** Press at p, then move to q: the offset moves by q - p, so a move to
      the press point itself leaves the offset where it was. */
  method PressAndMove(v: ImageZoom, p: Point, q: Point)
    requires v.Valid()
    modifies v
    ensures v.Valid() && v.isDrag
    ensures v.move == old(v.move).Plus(q.Minus(p))
    ensures q == p ==> v.move == old(v.move)
    ensures v.zoom == old(v.zoom) && v.size == old(v.size)
  {
    v.HandleDragStart(p);
    v.HandleDrag(q);
  }

  /** Press and release without moving: the clamp is applied once more to
      the current offset. With an image at least as large as the container
      this leaves an already-released offset in place; with an image smaller
      than the container on an axis it flips that axis to the other end. */
  method Click(v: ImageZoom, p: Point, imageRect: Rect, containerRect: Rect)
    requires v.Valid()
    modifies v
    ensures v.Valid() && !v.isDrag
    ensures v.move == ClampMove(old(v.move), imageRect, containerRect)
    ensures v.zoom == old(v.zoom) && v.size == old(v.size)
  {
    v.HandleDragStart(p);
    v.HandleDragEnd(imageRect, containerRect);
  }
}
