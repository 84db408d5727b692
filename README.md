# ImageZoom pan / zoom / crop model

A Dafny model of the pan, zoom and crop logic of the `ImageZoom` React
component (kyk1211/react-image-crop). The component shows one image inside
a fixed container. The user drags it with the mouse and zooms it with the
wheel. When the mouse button is released, an offset that dragged the image
too far is pulled back. Pressing "crop" exports the part of the image that is
visible in the container.

The model has six modules, one per concern of `src/components/ImageZoom.tsx`:

- `Geometry` (geometry.dfy): points, measured rectangles, natural sizes.
- `Zoom` (zoom.dfy): the constants `ZOOM_STEP = 0.3`, `MAX_ZOOM = 0.3 * 5 + 1`
  and `MIN_ZOOM = 1`; the wheel step with refusal at the bounds; the six zoom
  levels.
- `Clamp` (clamp.dfy): the four over-travel flags and the eight-branch
  release chain, written literally in branch order. Lemmas show that the
  chain treats the two axes independently. When the image is at least as
  large as the container, the chain is a symmetric, idempotent clamp into
  `[-o, o]`. When the image is smaller, it flips between `-o` and `o`.
- `Crop` (crop.dfy): the source and destination rectangles passed to
  `drawImage`, with `ratio = naturalWidth / imageRect.width`.
- `Layout` (layout.dfy): the size rule of the image box (`ImgWrapper`) and
  the zoom scaling of that box.
- `Viewer` (viewer.dfy): class `ImageZoom`, holding the five state fields
  (`size`, `move`, `startPos`, `isDrag`, `zoom`). Each handler is a method
  that changes those fields. The pointer position, the wheel delta and the
  measured rectangles are method parameters. `Valid()` says the zoom is one
  of the six levels. The constructor establishes it and every handler keeps
  it, so the zoom stays in `[1, 2.5]` after any sequence of events.

Zoom and screen coordinates are exact reals. Natural image sizes are `nat`,
because they are whole pixels.

In these places the component's code does something other than one might
expect, and the model follows the code:

- A press while a drag is already in progress re-anchors the drag. The code
  has no `isDrag` guard in `handleDragStart`.
- An axis on which the image is smaller than the container is not pinned to
  0 at release. By branch order the axis goes to `-o` (a positive value) when
  the offset is below `-o`, and to `o` otherwise. A press and release without
  movement then moves it to the other end (`Clamp.SmallImageFlipsX`,
  `Clamp.SmallImageFlipsY`). A zero-size image rectangle falls under the same
  rule, so it is not a no-op either.
- With the container exactly on the image, the crop source is `naturalWidth`
  wide. Its height is `naturalHeight` only when the rendered box has the
  image's aspect ratio, because the height is also scaled by the width ratio.
- In a square container, the box keeps the image's aspect ratio only for
  landscape and square images. In a container of any shape, a portrait
  image gets a box shorter than the container (see Findings).

## Model

| member | source | states |
|---|---|---|
| Zoom.ZoomOut | src/components/ImageZoom.tsx:66 | the result is the old zoom or the old zoom minus ZOOM_STEP; it is the lower one exactly when that is not below MIN_ZOOM; it keeps the zoom in range |
| Zoom.ZoomIn | src/components/ImageZoom.tsx:68 | the result is the old zoom or the old zoom plus ZOOM_STEP; it is the higher one exactly when that does not exceed MAX_ZOOM; it keeps the zoom in range |
| Zoom.WheelZoom | src/components/ImageZoom.tsx:64-70 | a positive delta zooms out, a negative delta zooms in, a zero delta changes nothing; the zoom stays in range |
| Zoom.ZoomAfterWheel | src/components/ImageZoom.tsx:64-70 | a sequence of wheel events, applied in order, keeps a zoom in [MIN_ZOOM, MAX_ZOOM] |
| Zoom.BoundsAreLevels | src/components/ImageZoom.tsx:5-7 | MIN_ZOOM is 1 and MAX_ZOOM is 2.5; they are level 0 and level 5 |
| Zoom.LevelInRange | src/components/ImageZoom.tsx:5-7 | every zoom level lies in [MIN_ZOOM, MAX_ZOOM] |
| Zoom.StepsBetweenLevels | src/components/ImageZoom.tsx:64-70 | from level k, zooming out reaches level k-1 (refused at level 0) and zooming in reaches level k+1 (refused at level 5) |
| Zoom.WheelKeepsLevel | src/components/ImageZoom.tsx:64-70 | one wheel event on a zoom level lands on a zoom level |
| Zoom.WheelSequenceKeepsLevel | src/components/ImageZoom.tsx:64-70 | from any level, including the initial zoom 1, every sequence of wheel events ends on a level within [1, 2.5] |
| Zoom.RefusedOnlyAtBounds | src/components/ImageZoom.tsx:64-70 | on a level, zooming in is a no-op exactly at MAX_ZOOM, and zooming out exactly at MIN_ZOOM |
| Zoom.ZoomScenario | src/components/ImageZoom.tsx:64-70 | three wheel-ups from 1 reach 1.9; ten wheel-downs from 1.9 end at 1 |
| Zoom.AtMinimumStays | src/components/ImageZoom.tsx:66 | any number of wheel-downs at MIN_ZOOM leave the zoom at MIN_ZOOM |
| Clamp.ClampMove | src/components/ImageZoom.tsx:40-61 | the eight-branch chain sets each axis on its own: below -o it becomes -o, else above o it becomes o, else it is kept; this holds for overflows of either sign |
| Clamp.ClampIsSymmetricClamp | src/components/ImageZoom.tsx:40-61 | with both overflows non-negative, the release offset is (clamp(x, -ox, ox), clamp(y, -oy, oy)) |
| Clamp.ClampKeepsInRangeAxis | src/components/ImageZoom.tsx:40-61 | with both overflows non-negative, an axis already within [-o, o] keeps its value, and an offset within range on both axes is untouched |
| Clamp.ClampChangesOnlyOverAxes | src/components/ImageZoom.tsx:45-61 | on any rectangles, an axis changes only if one of its two flags is set |
| Clamp.ClampIdempotent | src/components/ImageZoom.tsx:40-61 | with both overflows non-negative, clamping the clamped offset again with the same rectangles changes nothing |
| Clamp.SmallImageFlipsX | src/components/ImageZoom.tsx:42-60 | with ox < 0, x goes to -ox if it was below -ox and to ox otherwise; a second clamp negates it, so the clamp is not idempotent on that axis |
| Clamp.SmallImageFlipsY | src/components/ImageZoom.tsx:40-56 | with oy < 0, y goes to -oy if it was below -oy and to oy otherwise; a second clamp negates it |
| Clamp.WideImageScenario | src/components/ImageZoom.tsx:40-61 | container 400x300 and image 800x300: offset (500, y) is released to (200, 0) for every y |
| Crop.Ratio | src/components/ImageZoom.tsx:81 | the ratio is non-negative, and the ratio times the rendered width is the natural width |
| Crop.CropRects | src/components/ImageZoom.tsx:81-92 | the source origin is non-negative and equals the distance between container and image corners scaled to native pixels; the source size is the container size scaled to native pixels; the destination is the whole canvas from (0, 0) |
| Crop.WholeImageCrop | src/components/ImageZoom.tsx:81-88 | with the container equal to the image rectangle, the source is at (0, 0) and naturalWidth wide, and naturalHeight high when the box has the image's aspect |
| Crop.CropWithinImageX | src/components/ImageZoom.tsx:81-87 | if the image covers the container horizontally, the source range [sx, sx + sw] lies within [0, naturalWidth] |
| Crop.CropWithinImageY | src/components/ImageZoom.tsx:81-88 | if the image covers the container vertically and the box has the image's aspect, [sy, sy + sh] lies within [0, naturalHeight] |
| Layout.RenderedBox | src/components/ImageZoom.tsx:169-173 | no box while the natural height is 0; landscape and square images get the container's height and a width of container width times w / h; portrait images get the container's width and a height of container height times w / h |
| Layout.IntendedBox | src/components/ImageZoom.tsx:169-173 | the rule with h / w in the portrait branch: portrait images get the container's width and a height of container height times h / w; every box's aspect is the natural aspect times the container aspect |
| Layout.LandscapeAgrees | src/components/ImageZoom.tsx:170-171 | for landscape and square images, the component's rule and the intended rule give the same box |
| Layout.PortraitBoxTooShort | src/components/ImageZoom.tsx:172 | in a container of any shape, the component's box for a portrait image is shorter than the container, while the intended box is at least as tall |
| Layout.PortraitBoxBreaksAspect | src/components/ImageZoom.tsx:172 | for every portrait image in a non-empty container, the component's box misses the natural aspect times the container aspect; in a square container it never has the image's aspect |
| Layout.PortraitExample | src/components/ImageZoom.tsx:172 | a 1x2 image in a 100x100 container gets a 100x50 box, where the intended rule gives 100x200 |
| Layout.ZoomedExtent | src/components/ImageZoom.tsx:168 | the on-screen extent is the box with both sides times the zoom, so it keeps the box's aspect |
| Layout.LandscapeZoomedCovers | src/components/ImageZoom.tsx:168-171 | for a landscape or square image, the zoomed box covers the container on both axes at every zoom of at least 1, so both release overflows are non-negative |
| Viewer.ImageZoom.constructor | src/components/ImageZoom.tsx:18-22 | the initial state: size 0 x 0, offset and anchor (0, 0), not dragging, zoom 1, valid |
| Viewer.ImageZoom.HandleDragStart | src/components/ImageZoom.tsx:25-28 | always sets isDrag and anchors startPos = pointer - move; the offset, zoom and size are unchanged |
| Viewer.ImageZoom.HandleDrag | src/components/ImageZoom.tsx:30-33 | not dragging: nothing changes; dragging: move = pointer - startPos, without any bound; nothing else changes |
| Viewer.ImageZoom.HandleDragEnd | src/components/ImageZoom.tsx:35-61 | not dragging: nothing changes; dragging: isDrag becomes false and move becomes the clamp chain's result on the given rectangles; nothing else changes |
| Viewer.ImageZoom.HandleWheel | src/components/ImageZoom.tsx:64-70 | the zoom takes one wheel step and stays a level; move, startPos, isDrag and size are untouched |
| Viewer.ImageZoom.HandleImageLoad | src/components/ImageZoom.tsx:107-109 | size becomes the loaded natural size; nothing else changes |
| Viewer.ValidZoomInRange | src/components/ImageZoom.tsx:64-70 | a valid viewer's zoom lies in [1, 2.5] |
| Viewer.PressAndMove | src/components/ImageZoom.tsx:25-33 | a press at p followed by a move to q shifts the offset by q - p; a move to p itself leaves it unchanged |
| Viewer.Click | src/components/ImageZoom.tsx:25-61 | a press and release without movement applies the clamp chain once more to the current offset and ends the drag |

## Findings

| source | as written | input that shows it | evidently intended | confidence | as-written member | corrected member |
|---|---|---|---|---|---|---|
| src/components/ImageZoom.tsx:172 | the portrait branch sets `height: calc(100% * w/h)`, the same factor as the landscape branch, so the box is shorter than the container | a 1x2 image in a 100x100 container gets a 100x50 box, which is wider than it is tall | `h/w` in the portrait branch, so that the box is at least as tall as the container and, in a square container, has the image's aspect ratio | medium, not executed | Layout.PortraitBoxTooShort | Layout.IntendedBox |

## Left out

- React rendering, the styled components' CSS, the cursor style and the grid
  overlay: these are presentation.
- Layout measurement (`getBoundingClientRect`, `offsetWidth`,
  `offsetHeight`). The rectangles and the canvas size are parameters. How
  flexbox centring and `transform` turn the state into those rectangles is
  browser layout, so the model does not prove that a released image covers
  the container.
- Image loading with `new Image()` and `onload`, in the effect and in
  `getCrop`. This is asynchronous browser I/O. `HandleImageLoad` stands for
  the effect's `onload`. The crop takes the reloaded image's width as a
  parameter. The race between overlapping loads is not modelled.
- Canvas resampling in `drawImage`, `toBlob`, `saveAs` and the timestamped
  file name. These are foreign library calls and file output. Only the
  rectangle arguments of `drawImage` are modelled.
- IEEE-754 rounding of the 0.3 step. Repeated double-precision additions of
  0.3 can overshoot 2.5 and refuse the last step. The model uses exact reals,
  where the last step is accepted.
- React state batching and stale closures. Each handler is one atomic step on
  the current state.
- The unused `crop` state and the commented-out data-URL code.
- `src/App.tsx`: it only mounts the component with a fixed image name.
- Mouse events that leave the container (the component has no handler for
  them), and the `width`/`height` props, which only feed the CSS.
- Layout.RenderedBox: a natural height of 0 is modelled as "no box". In the
  browser, `w/h` is then NaN or Infinity. Depending on the engine, the CSS
  declaration is then dropped or gives a degenerate width.
- Crop.CropRects: a rendered image width of 0 is excluded. The component
  then computes the ratio as Infinity or NaN, and `drawImage` draws nothing.
