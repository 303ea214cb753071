// viewer/src/main/java/com/viewer/presenter/pager/zoomable/ZoomState.kt: the
// later zoom state of the pager screens. It adds a vertical pass-through rule
// and tracks the drag flag from `startGesture` to `endGesture`. As in the first
// revision, a suspending call is modelled by the state it leaves once its
// launched children have finished.

module ZoomStateV2 {
  import opened Common
  import opened Geometry
  import opened ZoomMath

  /**
   * The decision `canConsumeGesture` takes when none is memoised: a
   * multi-finger gesture is always consumed, a one-finger gesture on unzoomed
   * content never is, and otherwise a horizontal drag towards the horizontal
   * edge the content already shows, or a vertical drag towards the vertical
   * edge it already shows, is passed on.
   */
  function Decide(pan: Offset, zoom: real, scale: real, offsetX: Anim, offsetY: Anim): (consume: bool)
    ensures zoom != 1.0 ==> consume
    ensures zoom == 1.0 && scale == 1.0 ==> !consume
    ensures zoom == 1.0 && scale != 1.0 ==>
      (consume <==> !(IsHorizontalDrag(pan) && AtEdgeFacing(pan.x, offsetX)) &&
                    !(IsVerticalDrag(pan) && AtEdgeFacing(pan.y, offsetY)))
  {
    DragDirectionsExclusive(pan);
    if zoom != 1.0 then true
    else if scale == 1.0 then false
    else if IsHorizontalDrag(pan) then !AtEdgeFacing(pan.x, offsetX)
    else if IsVerticalDrag(pan) then !AtEdgeFacing(pan.y, offsetY)
    else true
  }

  class ZoomState {
    const maxScale: real
    var contentSize: Size
    var layoutSize: Size
    var fitContentSize: Size
    var scale: Anim
    var offsetX: Anim
    var offsetY: Anim
    var isDragInProgress: bool
    var shouldConsumeEvent: Option<bool>
    var shouldFling: bool

    /**
     * The fit always matches the sizes, the scale stays within its bounds
     * [0.9, maxScale], and each offset is unbounded or within a symmetric bound.
     */
    predicate Valid()
      reads this
    {
      FitValid() && maxScale >= 1.0 &&
      scale.lower == Some(0.9) && scale.upper == Some(maxScale) && 0.9 <= scale.value <= maxScale &&
      SymmetricallyBounded(offsetX) && SymmetricallyBounded(offsetY)
    }

    /** The part of `Valid` about the sizes: the fit is always recomputed from them. */
    predicate FitValid()
      reads this`layoutSize, this`contentSize, this`fitContentSize
    {
      NonNegative(layoutSize) && NonNegative(contentSize) &&
      fitContentSize == FitContentSize(layoutSize, contentSize)
    }

    /** `ZoomState(maxScale, contentSize)`: scale 1 bounded by [0.9, maxScale], offsets 0 and unbounded. */
    constructor (maxScale: real, contentSize: Size)
      requires maxScale >= 1.0 && NonNegative(contentSize)
      ensures Valid()
      ensures this.maxScale == maxScale && this.contentSize == contentSize && layoutSize == ZeroSize
      ensures scale.value == 1.0 && offsetX == Anim(0.0, None, None, false) && offsetY == offsetX
      ensures !isDragInProgress && shouldConsumeEvent == None && shouldFling
    {
      this.maxScale := maxScale;
      this.contentSize := contentSize;
      layoutSize := ZeroSize;
      fitContentSize := ZeroSize;
      scale := Anim(1.0, Some(0.9), Some(maxScale), false);
      offsetX := Anim(0.0, None, None, false);
      offsetY := Anim(0.0, None, None, false);
      isDragInProgress := false;
      shouldConsumeEvent := None;
      shouldFling := true;
    }

    /** `boundsX`: |lowerBound|, that is the horizontal bound itself, or 0 while unbounded. */
    function BoundsX(): (b: real)
      reads this
      ensures b >= 0.0
      ensures Valid() && offsetX.upper.Some? ==> b == offsetX.upper.value
      ensures offsetX.lower.None? ==> b == 0.0
    {
      BoundOf(offsetX)
    }

    /** `boundsY`, the vertical counterpart of `BoundsX`. */
    function BoundsY(): (b: real)
      reads this
      ensures b >= 0.0
      ensures Valid() && offsetY.upper.Some? ==> b == offsetY.upper.value
      ensures offsetY.lower.None? ==> b == 0.0
    {
      BoundOf(offsetY)
    }

    /** `setLayoutSize`: the fit follows the new layout. */
    method SetLayoutSize(size: Size)
      requires Valid() && NonNegative(size)
      modifies this`layoutSize, this`fitContentSize
      ensures Valid()
      ensures layoutSize == size && fitContentSize == FitContentSize(size, contentSize)
    {
      layoutSize := size;
      fitContentSize := FitContentSize(layoutSize, contentSize);
    }

    /** `setContentSize`: the fit follows the new content size. */
    method SetContentSize(size: Size)
      requires Valid() && NonNegative(size)
      modifies this`contentSize, this`fitContentSize
      ensures Valid()
      ensures contentSize == size && fitContentSize == FitContentSize(layoutSize, size)
    {
      contentSize := size;
      fitContentSize := FitContentSize(layoutSize, contentSize);
    }

    /**
     * `reset(animate)`: with or without animation, once done the scale is 1
     * and both offsets are 0 within the bound (0, 0).
     */
    method Reset()
      requires Valid()
      modifies this`scale, this`offsetX, this`offsetY
      ensures Valid()
      ensures scale.value == 1.0 && !scale.running
      ensures offsetX == Anim(0.0, Some(0.0), Some(0.0), false) && offsetY == offsetX
    {
      scale := SnapTo(scale, 1.0);
      offsetX := SnapTo(WithBound(offsetX, 0.0), 0.0);
      offsetY := SnapTo(WithBound(offsetY, 0.0), 0.0);
    }

    /** `startGesture`: a drag starts and the memoised decision is forgotten. */
    method StartGesture()
      requires Valid()
      modifies this`isDragInProgress, this`shouldConsumeEvent
      ensures Valid()
      ensures isDragInProgress && shouldConsumeEvent == None
    {
      isDragInProgress := true;
      shouldConsumeEvent := None;
    }

    /**
     * `canConsumeGesture`: the memoised decision when there is one, otherwise
     * a fresh decision, which is memoised.
     */
    method CanConsumeGesture(pan: Offset, zoom: real) returns (consume: bool)
      requires Valid()
      modifies this`shouldConsumeEvent
      ensures Valid()
      ensures old(shouldConsumeEvent).Some? ==> consume == old(shouldConsumeEvent).value
      ensures old(shouldConsumeEvent).None? ==> consume == Decide(pan, zoom, scale.value, offsetX, offsetY)
      ensures shouldConsumeEvent == Some(consume)
    {
      if shouldConsumeEvent.Some? {
        return shouldConsumeEvent.value;
      }
      consume := Decide(pan, zoom, scale.value, offsetX, offsetY);
      shouldConsumeEvent := Some(consume);
    }

    /**
     * `applyGesture`: the scale is multiplied by the zoom and coerced into
     * [0.9, maxScale]; each offset is bounded by half the overhang of the
     * content at the scale from before this step (the scale snap is launched
     * and runs after the bounds are computed), and moves by the pan, coerced
     * into that bound. A pinch disables the fling.
     */
    method ApplyGesture(pan: Offset, zoom: real)
      requires Valid()
      modifies this`scale, this`offsetX, this`offsetY, this`shouldFling
      ensures Valid()
      ensures scale == SnapTo(old(scale), old(scale.value) * zoom)
      ensures var boundX := ScaledBound(fitContentSize.width, old(scale.value), layoutSize.width);
        offsetX == SnapTo(WithBound(old(offsetX), boundX), WithBound(old(offsetX), boundX).value + pan.x)
      ensures var boundY := ScaledBound(fitContentSize.height, old(scale.value), layoutSize.height);
        offsetY == SnapTo(WithBound(old(offsetY), boundY), WithBound(old(offsetY), boundY).value + pan.y)
      ensures shouldFling == (old(shouldFling) && zoom == 1.0)
    {
      var newScale := SnapTo(scale, scale.value * zoom);
      var boundX := ScaledBound(fitContentSize.width, scale.value, layoutSize.width);
      var boundY := ScaledBound(fitContentSize.height, scale.value, layoutSize.height);
      var boundedX := WithBound(offsetX, boundX);
      var boundedY := WithBound(offsetY, boundY);
      SnapWithinBound(offsetX, boundX, boundedX.value + pan.x);
      SnapWithinBound(offsetY, boundY, boundedY.value + pan.y);
      var newX := SnapTo(boundedX, boundedX.value + pan.x);
      var newY := SnapTo(boundedY, boundedY.value + pan.y);
      offsetX, offsetY, scale := newX, newY, newScale;
      if zoom != 1.0 {
        shouldFling := false;
      }
    }

    /**
     * `endGesture`: when the fling is armed each offset flings, ending (as
     * reported by `flingX`/`flingY`, the decay's own end points) coerced into
     * its bound, whatever the consume decision was; the fling is re-armed; a
     * scale below 1 springs back to 1; the drag is over.
     */
    method EndGesture(flingX: real, flingY: real)
      requires Valid()
      modifies this`offsetX, this`offsetY, this`shouldFling, this`scale, this`isDragInProgress
      ensures Valid()
      ensures if old(shouldFling) then
          offsetX == SnapTo(old(offsetX), flingX) && offsetY == SnapTo(old(offsetY), flingY)
        else offsetX == old(offsetX) && offsetY == old(offsetY)
      ensures shouldFling && !isDragInProgress
      ensures scale.value == (if old(scale.value) < 1.0 then 1.0 else old(scale.value))
    {
      if shouldFling {
        offsetX := SnapTo(offsetX, flingX);
        offsetY := SnapTo(offsetY, flingY);
      }
      shouldFling := true;
      if scale.value < 1.0 {
        scale := SnapTo(scale, 1.0);
      }
      isDragInProgress := false;
    }

    /**
     * `animateZoomTo(zoom, offset)`: the scale animates to `zoom` itself
     * (coerced into [0.9, maxScale]); each offset is bounded by half the
     * overhang at the unclamped `zoom` and animates to
     * `-(offset - bound) - (fit - layout)`, coerced into that bound. The drag
     * flag is raised during the animation and lowered at its end.
     */
    method AnimateZoomTo(zoom: real, offset: Offset)
      requires Valid()
      modifies this`scale, this`offsetX, this`offsetY, this`isDragInProgress
      ensures Valid()
      ensures scale == SnapTo(old(scale), zoom)
      ensures var boundX := ScaledBound(fitContentSize.width, zoom, layoutSize.width);
        offsetX == SnapTo(WithBound(old(offsetX), boundX), -(offset.x - boundX) - (fitContentSize.width - layoutSize.width))
      ensures var boundY := ScaledBound(fitContentSize.height, zoom, layoutSize.height);
        offsetY == SnapTo(WithBound(old(offsetY), boundY), -(offset.y - boundY) - (fitContentSize.height - layoutSize.height))
      ensures !isDragInProgress
    {
      scale := SnapTo(scale, zoom);
      var boundX := ScaledBound(fitContentSize.width, zoom, layoutSize.width);
      var positionX := -(offset.x - boundX) - (fitContentSize.width - layoutSize.width);
      SnapWithinBound(offsetX, boundX, positionX);
      offsetX := SnapTo(WithBound(offsetX, boundX), positionX);
      var boundY := ScaledBound(fitContentSize.height, zoom, layoutSize.height);
      var positionY := -(offset.y - boundY) - (fitContentSize.height - layoutSize.height);
      SnapWithinBound(offsetY, boundY, positionY);
      offsetY := SnapTo(WithBound(offsetY, boundY), positionY);
      isDragInProgress := false;
    }
  }
}
