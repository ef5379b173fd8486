/*
 * The arithmetic of the Web-Compare viewer (script.js): the clamp helper, the
 * slider percentage, the centred pan bound with its background-position
 * percentage, and the wheel-zoom step. Everything here is a pure function of
 * its inputs; the stateful controller (class Viewer in module Controller) is specified by them.
 * Coordinates and the zoom factor are modelled as `real`.
 */
module ViewMath {

  datatype Option<T> = None | Some(value: T)

  /** The container's bounding rectangle, as far as the viewer reads it. */
  datatype Rect = Rect(left: real, width: real, height: real)
  {
    predicate NonNegative() { width >= 0.0 && height >= 0.0 }
  }

  /** A pointer position in client coordinates (a mouse event or one touch). */
  datatype Point = Point(x: real, y: real)

  /** What one background render writes to both image layers:
      backgroundSize (as a percentage of the container width) and
      backgroundPosition (horizontal and vertical percentages). */
  datatype Background = Background(sizePercent: real, xPercent: real, yPercent: real)

  /** Zoom bounds and wheel sensitivity. */
  const MinScale: real := 1.0
  const MaxScale: real := 5.0
  const WheelFactor: real := 0.0015

  function Min(a: real, b: real): (r: real)
    ensures r <= a && r <= b && (r == a || r == b)
  {
    if a <= b then a else b
  }

  function Max(a: real, b: real): (r: real)
    ensures r >= a && r >= b && (r == a || r == b)
  {
    if a >= b then a else b
  }

  /** Math.min(Math.max(value, lo), hi): when lo > hi the upper bound wins. */
  function Clamp(v: real, lo: real, hi: real): (r: real)
    ensures lo <= hi ==> lo <= r <= hi
    ensures lo <= v <= hi ==> r == v
    ensures v < lo ==> r == Min(lo, hi)
    ensures hi < v ==> r == hi
  {
    Min(Max(v, lo), hi)
  }

  lemma ClampIdempotent(v: real, lo: real, hi: real)
    ensures Clamp(Clamp(v, lo, hi), lo, hi) == Clamp(v, lo, hi)
  {
  }

  lemma ClampMonotone(v1: real, v2: real, lo: real, hi: real)
    requires v1 <= v2
    ensures Clamp(v1, lo, hi) <= Clamp(v2, lo, hi)
  {
  }

  // ---------------------------------------------------------------------------
  // Slider

  /** The slider position, in percent of the container width, for a pointer at
      client x-coordinate x over a container starting at `left`. */
  function SliderPercent(x: real, left: real, width: real): (r: real)
    requires width > 0.0
    ensures 0.0 <= r <= 100.0
    ensures x <= left ==> r == 0.0
    ensures x >= left + width ==> r == 100.0
  {
    var offset := Clamp(x - left, 0.0, width);
    DivBounds(offset, width);
    (offset / width) * 100.0
  }

  lemma DivBounds(a: real, w: real)
    requires w > 0.0 && 0.0 <= a <= w
    ensures 0.0 <= a / w <= 1.0
    ensures a == 0.0 ==> a / w == 0.0
    ensures a == w ==> a / w == 1.0
  {
    assert (a / w) * w == a;
  }

  lemma DivMonotone(a: real, b: real, w: real)
    requires w > 0.0 && a <= b
    ensures a / w <= b / w
  {
    assert (b - a) / w * w == b - a;
  }

  lemma SliderPercentMonotone(x1: real, x2: real, left: real, width: real)
    requires width > 0.0 && x1 <= x2
    ensures SliderPercent(x1, left, width) <= SliderPercent(x2, left, width)
  {
    ClampMonotone(x1 - left, x2 - left, 0.0, width);
    DivMonotone(Clamp(x1 - left, 0.0, width), Clamp(x2 - left, 0.0, width), width);
  }

  /** Inside the container the percentage is exact: mapping it back onto the
      container gives the pointer position again. */
  lemma SliderPercentInverse(x: real, left: real, width: real)
    requires width > 0.0 && left <= x <= left + width
    ensures left + SliderPercent(x, left, width) * width / 100.0 == x
  {
  }

  lemma SliderPercentQuarter()
    ensures SliderPercent(100.0, 0.0, 400.0) == 25.0
  {
  }

  // ---------------------------------------------------------------------------
  // Pan bound and background position

  /** How far the zoomed background may be shifted from the centre along an
      axis of length `dim`: half the overflow of `dim * scale` over `dim`. */
  function MaxShift(dim: real, scale: real): (r: real)
    ensures r >= 0.0
    ensures dim >= 0.0 && scale >= 1.0 ==> 2.0 * r == (scale - 1.0) * dim
    ensures dim > 0.0 ==> (r == 0.0 <==> scale <= 1.0)
  {
    Max(0.0, (dim * scale - dim) / 2.0)
  }

  lemma MaxShiftMonotone(dim: real, s1: real, s2: real)
    requires dim >= 0.0 && 1.0 <= s1 <= s2
    ensures MaxShift(dim, s1) <= MaxShift(dim, s2)
  {
  }

  /** The pan offset along one axis after the render clamps it. */
  function ClampPan(pos: real, dim: real, scale: real): (r: real)
    ensures -MaxShift(dim, scale) <= r <= MaxShift(dim, scale)
    ensures -MaxShift(dim, scale) <= pos <= MaxShift(dim, scale) ==> r == pos
    ensures dim > 0.0 && scale <= 1.0 ==> r == 0.0
  {
    var m := MaxShift(dim, scale);
    Clamp(pos, -m, m)
  }

  lemma ClampPanIdempotent(pos: real, dim: real, scale: real)
    ensures ClampPan(ClampPan(pos, dim, scale), dim, scale) == ClampPan(pos, dim, scale)
  {
  }

  /** The CSS background-position percentage for a pan offset `pos` within
      [-maxShift, maxShift]: 50 is centred, 100 shows the far edge at
      pos = -maxShift and 0 the near edge at pos = maxShift. */
  function BackgroundPercent(pos: real, maxShift: real): (r: real)
    requires maxShift >= 0.0 && -maxShift <= pos <= maxShift
    ensures 0.0 <= r <= 100.0
    ensures maxShift == 0.0 ==> r == 50.0
    ensures maxShift > 0.0 && pos == -maxShift ==> r == 100.0
    ensures maxShift > 0.0 && pos == maxShift ==> r == 0.0
  {
    if maxShift == 0.0 then 50.0
    else
      UnitRatio(pos, maxShift);
      50.0 - (pos / maxShift) * 50.0
  }

  lemma UnitRatio(pos: real, m: real)
    requires m > 0.0 && -m <= pos <= m
    ensures -1.0 <= pos / m <= 1.0
  {
    assert (pos / m) * m == pos;
  }

  lemma BackgroundPercentAntitone(p1: real, p2: real, maxShift: real)
    requires maxShift >= 0.0 && -maxShift <= p1 <= p2 <= maxShift
    ensures BackgroundPercent(p1, maxShift) >= BackgroundPercent(p2, maxShift)
  {
  }

  /** The offset can be read back from the percentage whenever there is room to pan. */
  lemma BackgroundPercentInverse(pos: real, maxShift: real)
    requires maxShift > 0.0 && -maxShift <= pos <= maxShift
    ensures (50.0 - BackgroundPercent(pos, maxShift)) * maxShift / 50.0 == pos
  {
  }

  /** Everything one background render writes, for a view whose offsets are
      already clamped to the container `rect` at zoom `scale`. */
  function Render(scale: real, posX: real, posY: real, rect: Rect): (bg: Background)
    requires rect.NonNegative()
    requires -MaxShift(rect.width, scale) <= posX <= MaxShift(rect.width, scale)
    requires -MaxShift(rect.height, scale) <= posY <= MaxShift(rect.height, scale)
    ensures 0.0 <= bg.xPercent <= 100.0 && 0.0 <= bg.yPercent <= 100.0
    ensures MinScale <= scale <= MaxScale ==> 100.0 <= bg.sizePercent <= 500.0
    ensures scale <= 1.0 ==> bg.xPercent == 50.0 && bg.yPercent == 50.0
  {
    Background(scale * 100.0,
               BackgroundPercent(posX, MaxShift(rect.width, scale)),
               BackgroundPercent(posY, MaxShift(rect.height, scale)))
  }

  // ---------------------------------------------------------------------------
  // Wheel zoom

  /** The zoom factor after one wheel event with vertical delta `deltaY`. */
  function ZoomedScale(scale: real, deltaY: real): (r: real)
    ensures MinScale <= r <= MaxScale
    ensures MinScale <= scale + -deltaY * WheelFactor <= MaxScale ==> r == scale + -deltaY * WheelFactor
  {
    Clamp(scale + -deltaY * WheelFactor, MinScale, MaxScale)
  }

  lemma ZoomedScaleDirection(scale: real, deltaY: real)
    requires MinScale <= scale <= MaxScale
    ensures deltaY <= 0.0 ==> ZoomedScale(scale, deltaY) >= scale
    ensures deltaY >= 0.0 ==> ZoomedScale(scale, deltaY) <= scale
  {
  }

  lemma ZoomedScaleAntitone(scale: real, d1: real, d2: real)
    requires d1 <= d2
    ensures ZoomedScale(scale, d1) >= ZoomedScale(scale, d2)
  {
  }

  /** The zoom factor after a run of wheel events, in order. */
  function ZoomAfter(scale: real, deltas: seq<real>): (r: real)
    ensures deltas != [] ==> MinScale <= r <= MaxScale
    decreases |deltas|
  {
    if deltas == [] then scale
    else ZoomAfter(ZoomedScale(scale, deltas[0]), deltas[1..])
  }

  lemma {:induction false} ZoomAfterInRange(scale: real, deltas: seq<real>)
    requires MinScale <= scale <= MaxScale
    ensures MinScale <= ZoomAfter(scale, deltas) <= MaxScale
    decreases |deltas|
  {
    if deltas != [] {
      ZoomAfterInRange(ZoomedScale(scale, deltas[0]), deltas[1..]);
    }
  }

  /** Scrolling up only ever zooms in. */
  lemma {:induction false} ZoomAfterNonDecreasing(scale: real, deltas: seq<real>)
    requires MinScale <= scale <= MaxScale
    requires forall i :: 0 <= i < |deltas| ==> deltas[i] <= 0.0
    ensures ZoomAfter(scale, deltas) >= scale
    decreases |deltas|
  {
    if deltas != [] {
      ZoomedScaleDirection(scale, deltas[0]);
      ZoomAfterNonDecreasing(ZoomedScale(scale, deltas[0]), deltas[1..]);
    }
  }

  /** Once at the maximum, further upward scrolling keeps the zoom at the maximum. */
  lemma {:induction false} ZoomAfterSaturates(deltas: seq<real>)
    requires forall i :: 0 <= i < |deltas| ==> deltas[i] <= 0.0
    ensures ZoomAfter(MaxScale, deltas) == MaxScale
    decreases |deltas|
  {
    if deltas != [] {
      assert ZoomedScale(MaxScale, deltas[0]) == MaxScale;
      ZoomAfterSaturates(deltas[1..]);
    }
  }
}
