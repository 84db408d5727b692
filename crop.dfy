/** The export mapping: the container's on-screen box is mapped back onto
    the image's native pixels (the source rectangle handed to drawImage),
    and drawn into a canvas the size of the container (the destination). */
module Crop {
  import opened Geometry

  datatype CropPlan = CropPlan(source: Rect, dest: Rect)

  /** The screen-to-native scale: natural width over rendered width. */
  function Ratio(naturalWidth: nat, imageRect: Rect): (ratio: real)
    requires imageRect.width > 0.0
    ensures ratio >= 0.0
    ensures ratio * imageRect.width == naturalWidth as real
  {
    naturalWidth as real / imageRect.width
  }

  /** The two rectangles passed to drawImage. naturalWidth is the width of
      the freshly loaded image; canvasWidth and canvasHeight are the
      container's layout size, to which the canvas is set. */
  function CropRects(naturalWidth: nat, imageRect: Rect, containerRect: Rect,
                     canvasWidth: nat, canvasHeight: nat): (plan: CropPlan)
    requires imageRect.width > 0.0
    ensures plan.source.x >= 0.0 && plan.source.y >= 0.0
    ensures plan.source.x * imageRect.width == Abs(containerRect.x - imageRect.x) * naturalWidth as real
    ensures plan.source.y * imageRect.width == Abs(containerRect.y - imageRect.y) * naturalWidth as real
    ensures plan.source.width * imageRect.width == containerRect.width * naturalWidth as real
    ensures plan.source.height * imageRect.width == containerRect.height * naturalWidth as real
    ensures plan.dest == Rect(0.0, 0.0, canvasWidth as real, canvasHeight as real)
  {
    var ratio := Ratio(naturalWidth, imageRect);
    CropPlan(
      Rect(Abs(containerRect.x - imageRect.x) * ratio,
           Abs(containerRect.y - imageRect.y) * ratio,
           containerRect.width * ratio,
           containerRect.height * ratio),
      Rect(0.0, 0.0, canvasWidth as real, canvasHeight as real))
  }

  /** Exporting with the container exactly on the rendered image exports the
      whole image: the source starts at (0, 0) and is naturalWidth wide, and
      it is naturalHeight high when the rendered box has the image's aspect
      ratio. */
  lemma WholeImageCrop(naturalWidth: nat, naturalHeight: nat, imageRect: Rect,
                       canvasWidth: nat, canvasHeight: nat)
    requires imageRect.width > 0.0
    ensures var plan := CropRects(naturalWidth, imageRect, imageRect, canvasWidth, canvasHeight);
            plan.source.x == 0.0 && plan.source.y == 0.0 &&
            plan.source.width == naturalWidth as real &&
            (naturalWidth as real * imageRect.height == naturalHeight as real * imageRect.width ==>
               plan.source.height == naturalHeight as real)
  {
  }

  /** If the rendered image covers the container horizontally, the source
      range [sx, sx + sw] lies within the image's native width. */
  lemma CropWithinImageX(naturalWidth: nat, imageRect: Rect, containerRect: Rect,
                         canvasWidth: nat, canvasHeight: nat)
    requires imageRect.width > 0.0
    requires imageRect.x <= containerRect.x
    requires containerRect.x + containerRect.width <= imageRect.x + imageRect.width
    ensures var s := CropRects(naturalWidth, imageRect, containerRect, canvasWidth, canvasHeight).source;
            0.0 <= s.x && s.x + s.width <= naturalWidth as real
  {
  }

  /** Vertically the scale is still the width ratio, so the source range
      [sy, sy + sh] lies within the native height when the image covers the
      container vertically and the rendered box has the image's aspect. */
  lemma CropWithinImageY(naturalWidth: nat, naturalHeight: nat, imageRect: Rect, containerRect: Rect,
                         canvasWidth: nat, canvasHeight: nat)
    requires imageRect.width > 0.0
    requires naturalWidth as real * imageRect.height == naturalHeight as real * imageRect.width
    requires imageRect.y <= containerRect.y
    requires containerRect.y + containerRect.height <= imageRect.y + imageRect.height
    ensures var s := CropRects(naturalWidth, imageRect, containerRect, canvasWidth, canvasHeight).source;
            0.0 <= s.y && s.y + s.height <= naturalHeight as real
  {
  }
}
