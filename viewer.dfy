/*
 * The event-driven view state of the Web-Compare viewer (script.js). The
 * module-level variables of the script are the fields of class Viewer; each
 * event listener is a method. The container's bounding rectangle, which the
 * script reads from the page on every render, is a parameter. What a render
 * writes into the page's styles is returned to the caller.
 */
module Controller {
  import opened ViewMath

  class Viewer {
    var isDraggingSlider: bool
    var isDraggingView: bool

    // where the current pan started: the pointer, and the offset at that moment
    var dragStartX: real
    var dragStartY: real
    var dragLastX: real
    var dragLastY: real

    var scale: real
    var posX: real
    var posY: real

    // container size seen by the most recent background render
    ghost var shownWidth: real
    ghost var shownHeight: real

    /** The zoom stays within its bounds, and the pan offsets are within the
        bounds of the most recent render. */
    ghost predicate Valid()
      reads this
    {
      MinScale <= scale <= MaxScale &&
      -MaxShift(shownWidth, scale) <= posX <= MaxShift(shownWidth, scale) &&
      -MaxShift(shownHeight, scale) <= posY <= MaxShift(shownHeight, scale)
    }

    /** The initial values of the script's variables (nothing rendered yet). */
    constructor ()
      ensures Valid()
      ensures !isDraggingSlider && !isDraggingView
      ensures dragStartX == 0.0 && dragStartY == 0.0 && dragLastX == 0.0 && dragLastY == 0.0
      ensures scale == 1.0 && posX == 0.0 && posY == 0.0
    {
      isDraggingSlider, isDraggingView := false, false;
      dragStartX, dragStartY, dragLastX, dragLastY := 0.0, 0.0, 0.0, 0.0;
      scale, posX, posY := 1.0, 0.0, 0.0;
      shownWidth, shownHeight := 0.0, 0.0;
    }

    /** Loading the script: the variables get their initial values and the
        background is rendered once, centred at zoom 1. */
    static method Create(rect: Rect) returns (v: Viewer, bg: Background)
      requires rect.NonNegative()
      ensures fresh(v) && v.Valid()
      ensures !v.isDraggingSlider && !v.isDraggingView
      ensures v.dragStartX == 0.0 && v.dragStartY == 0.0 && v.dragLastX == 0.0 && v.dragLastY == 0.0
      ensures v.scale == 1.0 && v.posX == 0.0 && v.posY == 0.0
      ensures bg == Background(100.0, 50.0, 50.0)
    {
      v := new Viewer();
      bg := v.UpdateBackgroundPosition(rect);
    }

    /** Clamps the pan offsets to the zoomed background's centred bounds and
        returns what is written to both layers. */
    method UpdateBackgroundPosition(rect: Rect) returns (bg: Background)
      requires rect.NonNegative()
      requires MinScale <= scale <= MaxScale
      modifies this`posX, this`posY, this`shownWidth, this`shownHeight
      ensures Valid() && shownWidth == rect.width && shownHeight == rect.height
      ensures posX == ClampPan(old(posX), rect.width, scale)
      ensures posY == ClampPan(old(posY), rect.height, scale)
      ensures bg == Render(scale, posX, posY, rect)
      ensures 0.0 <= bg.xPercent <= 100.0 && 0.0 <= bg.yPercent <= 100.0
      ensures scale == 1.0 ==> posX == 0.0 && posY == 0.0 && bg.xPercent == 50.0 && bg.yPercent == 50.0
    {
      var maxShiftX := MaxShift(rect.width, scale);
      var maxShiftY := MaxShift(rect.height, scale);
      posX := Clamp(posX, -maxShiftX, maxShiftX);
      posY := Clamp(posY, -maxShiftY, maxShiftY);
      shownWidth, shownHeight := rect.width, rect.height;
      var xPercent := if maxShiftX == 0.0 then 50.0 else 50.0 - (posX / maxShiftX) * 50.0;
      var yPercent := if maxShiftY == 0.0 then 50.0 else 50.0 - (posY / maxShiftY) * 50.0;
      bg := Background(scale * 100.0, xPercent, yPercent);
    }

    // -------------------------------------------------------------------------
    // Slider

    /** mousedown (or touchstart) on the slider handle. */
    method SliderPress()
      modifies this`isDraggingSlider
      ensures isDraggingSlider
    {
      isDraggingSlider := true;
    }

    /** mousemove on the document: moves the slider only while it is dragged;
        the result is the percentage written to the slider and the clip path. */
    method SliderMove(x: real, rect: Rect) returns (percent: Option<real>)
      requires rect.width > 0.0
      ensures percent.Some? <==> isDraggingSlider
      ensures percent.Some? ==> percent.value == SliderPercent(x, rect.left, rect.width)
      ensures percent.Some? ==> 0.0 <= percent.value <= 100.0
    {
      if !isDraggingSlider {
        return None;
      }
      var offsetX := x - rect.left;
      offsetX := Clamp(offsetX, 0.0, rect.width);
      percent := Some((offsetX / rect.width) * 100.0);
    }

    /** touchmove on the document: as SliderMove, with the first touch point. */
    method SliderTouchMove(touches: seq<Point>, rect: Rect) returns (percent: Option<real>)
      requires rect.width > 0.0
      requires isDraggingSlider ==> |touches| > 0
      ensures percent.Some? <==> isDraggingSlider
      ensures percent.Some? ==> percent.value == SliderPercent(touches[0].x, rect.left, rect.width)
    {
      if !isDraggingSlider {
        return None;
      }
      percent := SliderMove(touches[0].x, rect);
    }

    /** The first mouseup (or touchend) listener on the document: ends both
        drags, and re-anchors a pan that was in progress at the current offset. */
    method DocumentRelease()
      requires Valid()
      modifies this`isDraggingSlider, this`isDraggingView, this`dragLastX, this`dragLastY
      ensures Valid()
      ensures !isDraggingSlider && !isDraggingView
      ensures old(isDraggingView) ==> dragLastX == posX && dragLastY == posY
      ensures !old(isDraggingView) ==> dragLastX == old(dragLastX) && dragLastY == old(dragLastY)
    {
      isDraggingSlider := false;
      if isDraggingView {
        isDraggingView := false;
        dragLastX := posX;
        dragLastY := posY;
      }
    }

    // -------------------------------------------------------------------------
    // Pan

    /** mousedown on the container: starts a pan unless the slider is being
        dragged, anchoring it at the pointer and the current offset. */
    method ViewPress(p: Point)
      requires Valid()
      modifies this`isDraggingView, this`dragStartX, this`dragStartY, this`dragLastX, this`dragLastY
      ensures Valid()
      ensures old(isDraggingSlider) ==> unchanged(this)
      ensures !old(isDraggingSlider) ==>
        isDraggingView && dragStartX == p.x && dragStartY == p.y && dragLastX == posX && dragLastY == posY
    {
      if isDraggingSlider {
        return;
      }
      isDraggingView := true;
      dragStartX := p.x;
      dragStartY := p.y;
      dragLastX := posX;
      dragLastY := posY;
    }

    /** touchstart on the container: as ViewPress, but only for exactly one touch. */
    method ViewTouchStart(touches: seq<Point>)
      requires Valid()
      modifies this`isDraggingView, this`dragStartX, this`dragStartY, this`dragLastX, this`dragLastY
      ensures Valid()
      ensures old(isDraggingSlider) || |touches| != 1 ==> unchanged(this)
      ensures !old(isDraggingSlider) && |touches| == 1 ==>
        isDraggingView && dragStartX == touches[0].x && dragStartY == touches[0].y &&
        dragLastX == posX && dragLastY == posY
    {
      if isDraggingSlider {
        return;
      }
      if |touches| == 1 {
        ViewPress(touches[0]);
      }
    }

    /** The second mouseup listener on the document (and touchend on the
        container): ends a pan and re-anchors it at the current offset. */
    method ViewRelease()
      requires Valid()
      modifies this`isDraggingView, this`dragLastX, this`dragLastY
      ensures Valid()
      ensures !isDraggingView
      ensures old(isDraggingView) ==> dragLastX == posX && dragLastY == posY
      ensures !old(isDraggingView) ==> unchanged(this)
    {
      if isDraggingView {
        isDraggingView := false;
        dragLastX := posX;
        dragLastY := posY;
      }
    }

    /** A mouseup runs both document listeners in the order they were
        registered; the second finds no pan left to end. */
    method MouseUp()
      requires Valid()
      modifies this`isDraggingSlider, this`isDraggingView, this`dragLastX, this`dragLastY
      ensures Valid()
      ensures !isDraggingSlider && !isDraggingView
      ensures old(isDraggingView) ==> dragLastX == posX && dragLastY == posY
      ensures !old(isDraggingView) ==> dragLastX == old(dragLastX) && dragLastY == old(dragLastY)
    {
      DocumentRelease();
      ghost var afterFirst := (isDraggingSlider, isDraggingView, dragLastX, dragLastY);
      ViewRelease();
      assert afterFirst == (isDraggingSlider, isDraggingView, dragLastX, dragLastY);
    }

    /** mousemove on the document: while panning, the offset is the anchor
        offset plus the pointer's displacement since the press, clamped by a
        render. Nothing happens otherwise. */
    method PanMove(p: Point, rect: Rect) returns (bg: Option<Background>)
      requires Valid() && rect.NonNegative()
      modifies this`posX, this`posY, this`shownWidth, this`shownHeight
      ensures Valid()
      ensures bg.Some? <==> isDraggingView
      ensures !isDraggingView ==> unchanged(this)
      ensures isDraggingView ==>
        posX == ClampPan(dragLastX + (p.x - dragStartX), rect.width, scale) &&
        posY == ClampPan(dragLastY + (p.y - dragStartY), rect.height, scale) &&
        bg == Some(Render(scale, posX, posY, rect))
    {
      if !isDraggingView {
        return None;
      }
      var dx := p.x - dragStartX;
      var dy := p.y - dragStartY;
      posX := dragLastX + dx;
      posY := dragLastY + dy;
      var rendered := UpdateBackgroundPosition(rect);
      bg := Some(rendered);
    }

    /** touchmove on the container: as PanMove, with the first touch point. */
    method PanTouchMove(touches: seq<Point>, rect: Rect) returns (bg: Option<Background>)
      requires Valid() && rect.NonNegative()
      requires isDraggingView ==> |touches| > 0
      modifies this`posX, this`posY, this`shownWidth, this`shownHeight
      ensures Valid()
      ensures bg.Some? <==> isDraggingView
      ensures !isDraggingView ==> unchanged(this)
      ensures isDraggingView ==>
        posX == ClampPan(dragLastX + (touches[0].x - dragStartX), rect.width, scale) &&
        posY == ClampPan(dragLastY + (touches[0].y - dragStartY), rect.height, scale) &&
        bg == Some(Render(scale, posX, posY, rect))
    {
      if !isDraggingView {
        return None;
      }
      bg := PanMove(touches[0], rect);
    }

    // -------------------------------------------------------------------------
    // Zoom

    /** wheel on the container: zooms by the wheel delta (scrolling up zooms
        in), keeps the zoom in [1, 5] and re-clamps the offsets. */
    method Wheel(deltaY: real, rect: Rect) returns (bg: Background)
      requires Valid() && rect.NonNegative()
      modifies this`scale, this`posX, this`posY, this`shownWidth, this`shownHeight
      ensures Valid()
      ensures scale == ZoomedScale(old(scale), deltaY)
      ensures deltaY <= 0.0 ==> scale >= old(scale)
      ensures deltaY >= 0.0 ==> scale <= old(scale)
      ensures posX == ClampPan(old(posX), rect.width, scale)
      ensures posY == ClampPan(old(posY), rect.height, scale)
      ensures bg == Render(scale, posX, posY, rect)
    {
      var zoomAmount := -deltaY * WheelFactor;
      var newScale := scale + zoomAmount;
      newScale := Clamp(newScale, MinScale, MaxScale);
      scale := newScale;
      bg := UpdateBackgroundPosition(rect);
    }
  }
}
