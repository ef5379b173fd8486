# Web-Compare viewer: view-state controller

Web-Compare is a before/after image comparison widget. A draggable slider
reveals the right-hand image over the left-hand one, and both images share a
pan (mouse or one-finger drag) and a zoom (mouse wheel). All of its logic is
in `script.js`. A handful of module-level variables is updated by event
listeners:

- the two mode flags `isDraggingSlider` and `isDraggingView`;
- the pan anchor `dragStartX/Y` (the pointer at the press) and `dragLastX/Y`
  (the offset at the press);
- the view: `scale`, `posX` and `posY`.

This project models that state machine in Dafny.

- `view_math.dfy` (module `ViewMath`) holds the arithmetic as pure functions:
  - `clamp`;
  - the slider percentage;
  - the centred pan bound `maxShift = max(0, (dim*scale - dim)/2)` and the
    clamp of an offset to `[-maxShift, maxShift]`;
  - the background-position percentage;
  - the wheel-zoom step.
- `viewer.dfy` (module `Controller`) holds class `Viewer`. Its fields are the
  script's variables, and each listener is a method.

The container's bounding rectangle is a parameter `Rect(left, width, height)`.
The slider listeners require `width > 0`, since the script divides by the
width. The background render and the listeners that call it only require a
width and height of at least 0. The values a render writes into the page
are returned to the caller:

- the slider percentage;
- the background size and the two position percentages.

A listener that returns early returns `None`.

The class invariant `Valid()` says two things:

- `scale` stays in `[1, 5]`;
- `posX` and `posY` lie within `[-maxShift, maxShift]` for the container size
  of the most recent render. That size is kept in two ghost fields.

The two flags are NOT mutually exclusive. A touch on the slider handle during
a one-finger pan sets `isDraggingSlider` while `isDraggingView` is still
true. Only the reverse is excluded: a press on the container never starts a
pan while the slider is being dragged.

Further facts about the code that the model keeps:

- The offset is clamped to a centred range `[-maxShift, maxShift]` with
  `maxShift = (scale-1)*dim/2`. The horizontal axis uses the container width
  and the vertical axis the container height.
- The interaction modes are two booleans, `isDraggingSlider` and
  `isDraggingView`.
- There is no pinch zoom.
- A move event with no drag in progress is ignored.

## Model

| member | source | states |
|---|---|---|
| `ViewMath.Clamp` | script.js:18-20 | The result lies in `[lo, hi]` when `lo <= hi`. A value already in range is returned unchanged. Below the range the result is `min(lo, hi)`; above it, `hi`. |
| `ViewMath.ClampIdempotent` | script.js:18-20 | Clamping twice gives the same value as clamping once. |
| `ViewMath.ClampMonotone` | script.js:18-20 | Clamping preserves `<=`. |
| `ViewMath.SliderPercent` | script.js:22-26 | The slider percentage lies in `[0, 100]`. It is 0 at or left of the container and 100 at or right of its right edge. |
| `ViewMath.SliderPercentMonotone` | script.js:22-26 | The slider percentage is monotone non-decreasing in the pointer's x. |
| `ViewMath.SliderPercentInverse` | script.js:24-26 | Inside the container, `left + percent*width/100` gives back the pointer's x. The percentage is the exact relative position. |
| `ViewMath.SliderPercentQuarter` | script.js:22-26 | With `left = 0`, `width = 400` and `x = 100`, the percentage is 25. |
| `ViewMath.MaxShift` | script.js:34-38 | The shift bound is never negative. For `scale >= 1` it equals `(scale-1)*dim/2`. For a non-empty axis it is 0 exactly when `scale <= 1`. |
| `ViewMath.MaxShiftMonotone` | script.js:34-38 | Zooming in never shrinks the shift bound. |
| `ViewMath.ClampPan` | script.js:37-41 | The clamped offset lies in `[-maxShift, maxShift]`. An offset already inside is kept. At `scale <= 1` the offset becomes 0. |
| `ViewMath.ClampPanIdempotent` | script.js:40-41 | Re-clamping an already clamped offset changes nothing, so a second render with the same inputs is a no-op. |
| `ViewMath.BackgroundPercent` | script.js:43-44 | For a clamped offset the percentage lies in `[0, 100]`. It is exactly 50 when `maxShift` is 0, 100 at `pos = -maxShift` and 0 at `pos = maxShift`. |
| `ViewMath.BackgroundPercentAntitone` | script.js:43-44 | A larger offset never gives a larger percentage. |
| `ViewMath.BackgroundPercentInverse` | script.js:43-44 | When `maxShift > 0`, the offset is recovered from the percentage as `(50 - percent) * maxShift / 50`. |
| `ViewMath.Render` | script.js:43-50 | A render of clamped offsets writes position percentages in `[0, 100]`. The background size is in `[100, 500]` percent for a zoom in `[1, 5]`. At zoom 1 both positions are 50. |
| `ViewMath.ZoomedScale` | script.js:154-156 | One wheel step leaves the zoom in `[1, 5]`. When the unclamped value is in range, the step is exactly `-deltaY * 0.0015`. |
| `ViewMath.ZoomedScaleDirection` | script.js:154-156 | From a zoom in `[1, 5]`, a non-positive `deltaY` never decreases the zoom and a non-negative one never increases it. |
| `ViewMath.ZoomedScaleAntitone` | script.js:154-156 | The new zoom is non-increasing in `deltaY`. |
| `ViewMath.ZoomAfter` | script.js:152-159 | The zoom after applying the wheel step to each delta in order. After at least one event it lies in `[1, 5]`, whatever the starting zoom. |
| `ViewMath.ZoomAfterInRange` | script.js:152-159 | Any run of wheel events keeps the zoom in `[1, 5]`. |
| `ViewMath.ZoomAfterNonDecreasing` | script.js:152-159 | A run of events with non-positive `deltaY` (scrolling up) never lowers the zoom. |
| `ViewMath.ZoomAfterSaturates` | script.js:152-159 | Once the zoom is 5, further events with non-positive `deltaY` leave it at 5. |
| `Controller.Viewer.constructor` | script.js:6-16 | The variables start with both flags false, the anchors and offsets at 0 and `scale = 1`. The invariant holds. |
| `Controller.Viewer.Create` | script.js:162 | Loading the script renders once. The background is centred (50%, 50%) at 100% size. |
| `Controller.Viewer.UpdateBackgroundPosition` | script.js:31-51 | The offsets are clamped to the bounds for this container and zoom, so the invariant is re-established. The percentages written lie in `[0, 100]`. At zoom 1 the offsets are 0 and the percentages 50. Nothing else changes. |
| `Controller.Viewer.SliderPress` | script.js:54-57 | A press on the slider handle sets `isDraggingSlider`. The touchstart listener at script.js:73-76 is the same. |
| `Controller.Viewer.SliderMove` | script.js:69-72 | A percentage is written exactly when the slider is being dragged. It is the slider percentage of the pointer and lies in `[0, 100]`. |
| `Controller.Viewer.SliderTouchMove` | script.js:87-90 | As `SliderMove`, for the first touch point. |
| `Controller.Viewer.DocumentRelease` | script.js:58-68 | Both flags become false. A pan in progress is re-anchored at the current offset. Otherwise the anchor is unchanged. The document touchend listener at script.js:77-86 is the same. |
| `Controller.Viewer.ViewPress` | script.js:93-102 | While the slider is dragged, nothing changes. Otherwise a pan starts, anchored at the pointer and the current offset. |
| `Controller.Viewer.ViewTouchStart` | script.js:121-132 | As `ViewPress` for exactly one touch. Any other touch count, or a slider drag in progress, changes nothing. |
| `Controller.Viewer.ViewRelease` | script.js:103-110 | A pan in progress ends and is re-anchored at the current offset. Without one, nothing changes. The container touchend listener at script.js:133-140 is the same. |
| `Controller.Viewer.MouseUp` | script.js:103-110 | Both document mouseup listeners run in registration order. Both flags end false and a pan is re-anchored. The second listener finds nothing left to do. |
| `Controller.Viewer.PanMove` | script.js:111-119 | Without a pan, nothing changes and nothing is rendered. During a pan, the offset becomes the anchor offset plus the pointer's displacement since the press, clamped to the bounds. The zoom, flags and anchors are unchanged. |
| `Controller.Viewer.PanTouchMove` | script.js:141-149 | As `PanMove`, for the first touch point. |
| `Controller.Viewer.Wheel` | script.js:152-159 | The zoom becomes the wheel step of the old zoom and stays in `[1, 5]`. Scrolling up never zooms out and scrolling down never zooms in. The offsets are re-clamped for the new zoom. |

## Left out

- Page access is not modelled: element lookup, the style writes (`left`, `clipPath`, `backgroundSize`, `backgroundPosition`, `cursor`), their string formatting and `slider.blur()`. The model returns the numbers that would be written instead.
- Event registration, `preventDefault` and the `passive` options are not modelled. So is the browser's delivery order between the container's and the document's touchend listeners. Each listener is a method, and `MouseUp` composes the two document mouseup listeners.
- `getBoundingClientRect()` is a call into the browser. It is replaced by the `Rect` parameter, which each call may pass anew.
- The model uses exact `real` arithmetic instead of IEEE doubles. `0.0015` is exact, and there is no rounding, `NaN` or `-0`.
- SliderTouchMove and PanTouchMove require at least one touch when a drag is active. In the script, reading `touches[0]` of an empty touch list throws a `TypeError`, which is not modelled.
- SliderMove and SliderTouchMove require a container width above 0. At width 0 the script divides by 0 and writes `NaN%`, which the model does not represent.
