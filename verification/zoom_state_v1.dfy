// viewer/src/main/java/com/viewer/pdf/zoomable/ZoomState.kt: the scale and
// offsets of one zoomable page, as used by the compose page states. Every
// suspending call is modelled by the state it leaves once its launched
// children have finished (each runs inside `coroutineScope`, which waits for
// them).

module ZoomStateV1 {
  import opened Common
  import opened Geometry
  import opened ZoomMath

  /**
   * The decision `canConsumeGesture` takes when none is memoised: a
   * multi-finger gesture is always consumed, a one-finger gesture on unzoomed
   * content never is, and otherwise only a horizontal drag towards the edge
   * the content already shows is passed on.
   */
  function Decide(pan: Offset, zoom: real, scale: real, offsetX: Anim): (consume: bool)
    ensures zoom != 1.0 ==> consume
    ensures zoom == 1.0 && scale == 1.0 ==> !consume
    ensures zoom == 1.0 && scale != 1.0 ==>
      (consume <==> !(IsHorizontalDrag(pan) && AtEdgeFacing(pan.x, offsetX)))
  {
    if zoom != 1.0 then true
    else if scale == 1.0 then false
    else !(IsHorizontalDrag(pan) && AtEdgeFacing(pan.x, offsetX))
  }

  /**
   * The shift that keeps the pinched point in place on one axis:
   * `delta / 2 - delta * inContent / extent`. At a zero extent Float gives
   * NaN; the model takes 0.
   */
  function PinchOffset(delta: real, inContent: real, extent: real): real {
    if extent == 0.0 then 0.0 else delta * 0.5 - delta * inContent / extent
  }

  /**
   * Zooming around the pinch: when the offset is not clamped, the content
   * point under the fingers before the step is, scaled by the zoom of the
   * step, under the fingers after it (moved by the pan).
   */
  lemma {:induction false} PinchKeepsPointUnderFinger(p: real, pan: real, offset: real, extent: real, newExtent: real, layoutExtent: real)
    requires extent != 0.0
    ensures var inContent := ContentCoordinate(p, offset, extent, layoutExtent);
      var newOffset := offset + pan + PinchOffset(newExtent - extent, inContent, extent);
      ContentCoordinate(p + pan, newOffset, newExtent, layoutExtent) == inContent * (newExtent / extent)
  {
    var inContent := ContentCoordinate(p, offset, extent, layoutExtent);
    var delta := newExtent - extent;
    var after := ContentCoordinate(p + pan, offset + pan + PinchOffset(delta, inContent, extent), newExtent, layoutExtent);
    assert after == inContent + delta * inContent / extent;
    assert delta * inContent / extent == inContent * (newExtent / extent) - inContent;
  }

  class ZoomState {
    const maxScale: real
    var contentSize: Size
    var layoutSize: Size
    var fitContentSize: Size
    var scale: Anim
    var offsetX: Anim
    var offsetY: Anim
    var isDragInProgress: bool
    var shouldConsumeEvent: Option<bool>
    var shouldFling: bool

    /**
     * The fit always matches the sizes, the scale stays within its bounds
     * [0.9, maxScale], and each offset is unbounded or within a symmetric bound.
     */
    predicate Valid()
      reads this
    {
      FitValid() && maxScale >= 1.0 &&
      scale.lower == Some(0.9) && scale.upper == Some(maxScale) && 0.9 <= scale.value <= maxScale &&
      SymmetricallyBounded(offsetX) && SymmetricallyBounded(offsetY)
    }

    /** The part of `Valid` about the sizes: the fit is always recomputed from them. */
    predicate FitValid()
      reads this`layoutSize, this`contentSize, this`fitContentSize
    {
      NonNegative(layoutSize) && NonNegative(contentSize) &&
      fitContentSize == FitContentSize(layoutSize, contentSize)
    }

    /** `ZoomState(maxScale, contentSize)`: scale 1 bounded by [0.9, maxScale], offsets 0 and unbounded. */
    constructor (maxScale: real, contentSize: Size)
      requires maxScale >= 1.0 && NonNegative(contentSize)
      ensures Valid()
      ensures this.maxScale == maxScale && this.contentSize == contentSize && layoutSize == ZeroSize
      ensures scale.value == 1.0 && offsetX == Anim(0.0, None, None, false) && offsetY == offsetX
      ensures !isDragInProgress && shouldConsumeEvent == None && shouldFling
    {
      this.maxScale := maxScale;
      this.contentSize := contentSize;
      layoutSize := ZeroSize;
      fitContentSize := ZeroSize;
      scale := Anim(1.0, Some(0.9), Some(maxScale), false);
      offsetX := Anim(0.0, None, None, false);
      offsetY := Anim(0.0, None, None, false);
      isDragInProgress := false;
      shouldConsumeEvent := None;
      shouldFling := true;
    }

    /** `isSettled`: no drag in progress and no animation running. */
    predicate IsSettled()
      reads this
    {
      !isDragInProgress && !scale.running && !offsetX.running && !offsetY.running
    }

    /** `boundsX`: |lowerBound|, that is the horizontal bound itself, or 0 while unbounded. */
    function BoundsX(): (b: real)
      reads this
      ensures b >= 0.0
      ensures Valid() && offsetX.upper.Some? ==> b == offsetX.upper.value
      ensures offsetX.lower.None? ==> b == 0.0
    {
      BoundOf(offsetX)
    }

    /** `boundsY`, the vertical counterpart of `BoundsX`. */
    function BoundsY(): (b: real)
      reads this
      ensures b >= 0.0
      ensures Valid() && offsetY.upper.Some? ==> b == offsetY.upper.value
      ensures offsetY.lower.None? ==> b == 0.0
    {
      BoundOf(offsetY)
    }

    /** The content scaled by the current scale. */
    function ZoomedSize(): Size
      reads this
    {
      Times(fitContentSize, scale.value)
    }

    /**
     * `getOffsetInContent`: a layout position in content coordinates. When
     * the zoomed content overhangs the layout and the offset lies within the
     * bound for the current zoom, every layout position lands on the content.
     */
    function GetOffsetInContent(p: Offset): (c: Offset)
      reads this
      ensures var size := ZoomedSize();
        size.width >= layoutSize.width && 0.0 <= p.x <= layoutSize.width &&
        -OffsetBound(size.width, layoutSize.width) <= offsetX.value <= OffsetBound(size.width, layoutSize.width)
        ==> 0.0 <= c.x <= size.width
      ensures var size := ZoomedSize();
        size.height >= layoutSize.height && 0.0 <= p.y <= layoutSize.height &&
        -OffsetBound(size.height, layoutSize.height) <= offsetY.value <= OffsetBound(size.height, layoutSize.height)
        ==> 0.0 <= c.y <= size.height
    {
      var size := ZoomedSize();
      TapLandsInsideContent(p.x, offsetX.value, size.width, layoutSize.width);
      TapLandsInsideContent(p.y, offsetY.value, size.height, layoutSize.height);
      Offset(ContentCoordinate(p.x, offsetX.value, size.width, layoutSize.width),
             ContentCoordinate(p.y, offsetY.value, size.height, layoutSize.height))
    }

    /** `setLayoutSize`: the fit follows the new layout. */
    method SetLayoutSize(size: Size)
      requires Valid() && NonNegative(size)
      modifies this`layoutSize, this`fitContentSize
      ensures Valid()
      ensures layoutSize == size && fitContentSize == FitContentSize(size, contentSize)
    {
      layoutSize := size;
      fitContentSize := FitContentSize(layoutSize, contentSize);
    }

    /** `setContentSize`: the fit follows the new content size. */
    method SetContentSize(size: Size)
      requires Valid() && NonNegative(size)
      modifies this`contentSize, this`fitContentSize
      ensures Valid()
      ensures contentSize == size && fitContentSize == FitContentSize(layoutSize, size)
    {
      contentSize := size;
      fitContentSize := FitContentSize(layoutSize, contentSize);
    }

    /**
     * `reset(animate)`: with or without animation, once done the scale is 1
     * and both offsets are 0 within the bound (0, 0).
     */
    method Reset()
      requires Valid()
      modifies this`scale, this`offsetX, this`offsetY
      ensures Valid()
      ensures scale.value == 1.0 && !scale.running
      ensures offsetX == Anim(0.0, Some(0.0), Some(0.0), false) && offsetY == offsetX
    {
      scale := SnapTo(scale, 1.0);
      offsetX := SnapTo(WithBound(offsetX, 0.0), 0.0);
      offsetY := SnapTo(WithBound(offsetY, 0.0), 0.0);
    }

    /** `startGesture`: forgets the memoised decision and stops every animation. */
    method StartGesture()
      requires Valid()
      modifies this`shouldConsumeEvent, this`scale, this`offsetX, this`offsetY
      ensures Valid()
      ensures shouldConsumeEvent == None
      ensures scale == old(scale).(running := false)
      ensures offsetX == old(offsetX).(running := false) && offsetY == old(offsetY).(running := false)
    {
      shouldConsumeEvent := None;
      scale := scale.(running := false);
      offsetX := offsetX.(running := false);
      offsetY := offsetY.(running := false);
    }

    /**
     * `canConsumeGesture`: the memoised decision when there is one, otherwise
     * a fresh decision, which is memoised.
     */
    method CanConsumeGesture(pan: Offset, zoom: real) returns (consume: bool)
      requires Valid()
      modifies this`shouldConsumeEvent
      ensures Valid()
      ensures old(shouldConsumeEvent).Some? ==> consume == old(shouldConsumeEvent).value
      ensures old(shouldConsumeEvent).None? ==> consume == Decide(pan, zoom, scale.value, offsetX)
      ensures shouldConsumeEvent == Some(consume)
    {
      if shouldConsumeEvent.Some? {
        return shouldConsumeEvent.value;
      }
      consume := Decide(pan, zoom, scale.value, offsetX);
      shouldConsumeEvent := Some(consume);
    }

    /**
     * `applyGesture`: marks a drag in progress, clamps the new scale to
     * [0.9, maxScale], bounds each offset symmetrically by half the overhang
     * of the newly zoomed content, and moves each offset by the pan plus the
     * shift that keeps the pinched point in place, coerced into that bound.
     * A pinch (zoom != 1) disables the fling at the end of the gesture.
     */
    method ApplyGesture(pan: Offset, zoom: real, position: Offset)
      requires Valid()
      modifies this`isDragInProgress, this`scale, this`offsetX, this`offsetY, this`shouldFling
      ensures Valid()
      ensures isDragInProgress
      ensures scale.value == Clamp(old(scale.value) * zoom, 0.9, maxScale)
      ensures var size := Times(fitContentSize, old(scale.value));
        var newSize := Times(fitContentSize, scale.value);
        var boundX := OffsetBound(newSize.width, layoutSize.width);
        var boundY := OffsetBound(newSize.height, layoutSize.height);
        var inContent := old(GetOffsetInContent(position));
        offsetX == SnapTo(WithBound(old(offsetX), boundX), WithBound(old(offsetX), boundX).value + pan.x + PinchOffset(newSize.width - size.width, inContent.x, size.width)) &&
        offsetY == SnapTo(WithBound(old(offsetY), boundY), WithBound(old(offsetY), boundY).value + pan.y + PinchOffset(newSize.height - size.height, inContent.y, size.height))
      ensures shouldFling == (old(shouldFling) && zoom == 1.0)
    {
      var inContent := GetOffsetInContent(position);
      var size := Times(fitContentSize, scale.value);
      var newScale := Clamp(scale.value * zoom, 0.9, maxScale);
      var newSize := Times(fitContentSize, newScale);
      var newOffsetX := PinchOffset(newSize.width - size.width, inContent.x, size.width);
      var newOffsetY := PinchOffset(newSize.height - size.height, inContent.y, size.height);
      var boundX := OffsetBound(newSize.width, layoutSize.width);
      var boundedX := WithBound(offsetX, boundX);
      SnapWithinBound(offsetX, boundX, boundedX.value + pan.x + newOffsetX);
      offsetX := SnapTo(boundedX, boundedX.value + pan.x + newOffsetX);
      var boundY := OffsetBound(newSize.height, layoutSize.height);
      var boundedY := WithBound(offsetY, boundY);
      SnapWithinBound(offsetY, boundY, boundedY.value + pan.y + newOffsetY);
      offsetY := SnapTo(boundedY, boundedY.value + pan.y + newOffsetY);
      scale := SnapTo(scale, newScale);
      if zoom != 1.0 {
        shouldFling := false;
      }
      isDragInProgress := true;
    }

    /**
     * `endGesture`: a consumed one-finger gesture flings each offset, ending
     * (as reported by `flingX`/`flingY`, the decay's own end points) coerced
     * into its bound; the fling is re-armed; a scale below 1 springs back to
     * 1; the drag is over.
     */
    method EndGesture(flingX: real, flingY: real)
      requires Valid()
      modifies this`offsetX, this`offsetY, this`shouldFling, this`scale, this`isDragInProgress
      ensures Valid()
      ensures if old(shouldConsumeEvent) == Some(true) && old(shouldFling) then
          offsetX == SnapTo(old(offsetX), flingX) && offsetY == SnapTo(old(offsetY), flingY)
        else offsetX == old(offsetX) && offsetY == old(offsetY)
      ensures shouldFling && !isDragInProgress
      ensures scale.value == (if old(scale.value) < 1.0 then 1.0 else old(scale.value))
      ensures old(scale.value) < 1.0 ==> !scale.running
    {
      if shouldConsumeEvent == Some(true) && shouldFling {
        offsetX := SnapTo(offsetX, flingX);
        offsetY := SnapTo(offsetY, flingY);
      }
      shouldFling := true;
      if scale.value < 1.0 {
        scale := SnapTo(scale, 1.0);
      }
      isDragInProgress := false;
    }

    /**
     * `animateZoomTo(zoom, offset)`: the target scale is clamped to
     * [1, maxScale], the offsets are bounded as in `applyGesture` and animate
     * to the pinch shift alone (not added to the current offset), coerced into
     * the new bound.
     */
    method AnimateZoomTo(zoom: real, offset: Offset)
      requires Valid()
      modifies this`scale, this`offsetX, this`offsetY
      ensures Valid()
      ensures scale.value == Clamp(old(scale.value) * zoom, 1.0, maxScale)
      ensures var size := Times(fitContentSize, old(scale.value));
        var newSize := Times(fitContentSize, scale.value);
        var boundX := OffsetBound(newSize.width, layoutSize.width);
        var boundY := OffsetBound(newSize.height, layoutSize.height);
        var inContent := old(GetOffsetInContent(offset));
        offsetX == SnapTo(WithBound(old(offsetX), boundX), PinchOffset(newSize.width - size.width, inContent.x, size.width)) &&
        offsetY == SnapTo(WithBound(old(offsetY), boundY), PinchOffset(newSize.height - size.height, inContent.y, size.height))
    {
      var size := Times(fitContentSize, scale.value);
      var newScale := Clamp(scale.value * zoom, 1.0, maxScale);
      var newSize := Times(fitContentSize, newScale);
      var inContent := GetOffsetInContent(offset);
      var newOffsetX := PinchOffset(newSize.width - size.width, inContent.x, size.width);
      var newOffsetY := PinchOffset(newSize.height - size.height, inContent.y, size.height);
      var boundX := OffsetBound(newSize.width, layoutSize.width);
      SnapWithinBound(offsetX, boundX, newOffsetX);
      offsetX := SnapTo(WithBound(offsetX, boundX), newOffsetX);
      var boundY := OffsetBound(newSize.height, layoutSize.height);
      SnapWithinBound(offsetY, boundY, newOffsetY);
      offsetY := SnapTo(WithBound(offsetY, boundY), newOffsetY);
      scale := SnapTo(scale, newScale);
    }
  }
}
