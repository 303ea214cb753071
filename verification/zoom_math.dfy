// Arithmetic shared by both revisions of ZoomState
// (viewer/src/main/java/com/viewer/pdf/zoomable/ZoomState.kt and
// viewer/src/main/java/com/viewer/presenter/pager/zoomable/ZoomState.kt):
// fitting the content into the layout, the symmetric offset bounds, the
// gesture direction tests, and the animated values themselves.

module ZoomMath {
  import opened Common
  import opened Geometry

  predicate NonNegative(s: Size) {
    s.width >= 0.0 && s.height >= 0.0
  }

  /** Compose `Size * Float`. */
  function Times(s: Size, f: real): Size {
    Size(s.width * f, s.height * f)
  }

  /**
   * The test `content.width / content.height > layout.width / layout.height`,
   * cross-multiplied. For non-negative sizes that are not both 0 by 0 this
   * agrees with the Float comparison, including where a height is 0 and the
   * Float ratio is infinite.
   */
  predicate RelativelyWider(content: Size, layout: Size) {
    content.width * layout.height > layout.width * content.height
  }

  /**
   * `updateFitContentSize`: a zero layout gives a zero fit, a zero content
   * size gives the layout itself, and otherwise the content is scaled by one
   * factor (see `FitContentSizeFits`).
   */
  function FitContentSize(layout: Size, content: Size): (fit: Size)
    requires NonNegative(layout) && NonNegative(content)
    ensures layout == ZeroSize ==> fit == ZeroSize
    ensures layout != ZeroSize && content == ZeroSize ==> fit == layout
  {
    if layout == ZeroSize then ZeroSize
    else if content == ZeroSize then layout
    else if RelativelyWider(content, layout) then Times(content, layout.width / content.width)
    else if content.height == 0.0 then
      // Both heights are 0 here; Float arithmetic gives 0/0.
      ZeroSize
    else Times(content, layout.height / content.height)
  }

  /**
   * The fit keeps the content's aspect ratio, lies inside the layout, and
   * touches the layout on at least one axis.
   */
  lemma FitContentSizeFits(layout: Size, content: Size)
    requires NonNegative(layout) && NonNegative(content)
    ensures var fit := FitContentSize(layout, content);
      NonNegative(fit) &&
      fit.width <= layout.width && fit.height <= layout.height &&
      fit.width * content.height == fit.height * content.width &&
      (layout != ZeroSize ==> fit.width == layout.width || fit.height == layout.height)
  {
    if layout == ZeroSize || content == ZeroSize {
    } else if RelativelyWider(content, layout) {
      FitsWhenWider(content, layout);
    } else if content.height == 0.0 {
    } else {
      FitsWhenTaller(content, layout);
    }
  }

  lemma FitsWhenWider(content: Size, layout: Size)
    requires NonNegative(layout) && NonNegative(content)
    requires RelativelyWider(content, layout)
    ensures content.width > 0.0
    ensures content.width * (layout.width / content.width) == layout.width
    ensures 0.0 <= content.height * (layout.width / content.width) <= layout.height
  {
    var f := layout.width / content.width;
    assert content.width * f == layout.width;
    assert content.height * f * content.width == content.height * layout.width;
    assert content.height * layout.width < layout.height * content.width;
  }

  lemma FitsWhenTaller(content: Size, layout: Size)
    requires NonNegative(layout) && NonNegative(content)
    requires !RelativelyWider(content, layout) && content.height > 0.0
    ensures content.height * (layout.height / content.height) == layout.height
    ensures 0.0 <= content.width * (layout.height / content.height) <= layout.width
  {
    var f := layout.height / content.height;
    assert content.height * f == layout.height;
    assert content.width * f * content.height == content.width * layout.height;
    assert content.width * layout.height <= layout.width * content.height;
  }

  /**
   * The offset bound on one axis, `max(extent - layoutExtent, 0) / 2`: never
   * negative, 0 exactly when the zoomed content fits the layout on that axis,
   * and otherwise half of the overhang.
   */
  function OffsetBound(extent: real, layoutExtent: real): (b: real)
    ensures b >= 0.0
    ensures b == 0.0 <==> extent <= layoutExtent
    ensures extent > layoutExtent ==> b + b == extent - layoutExtent
  {
    MaxR(extent - layoutExtent, 0.0) * 0.5
  }

  /**
   * The offset bound for fitted content zoomed by `scale`: the bound of the
   * zoomed extent `fitExtent * scale`.
   */
  function ScaledBound(fitExtent: real, scale: real, layoutExtent: real): (b: real)
    ensures b >= 0.0
    ensures b == 0.0 <==> fitExtent * scale <= layoutExtent
  {
    OffsetBound(fitExtent * scale, layoutExtent)
  }

  /**
   * A point of the screen, seen in content coordinates: `p - offset +
   * (extent - layoutExtent) / 2` on one axis, with the zoomed content
   * centred in the layout and then shifted by the offset.
   */
  function ContentCoordinate(p: real, offset: real, extent: real, layoutExtent: real): real {
    p - offset + (extent - layoutExtent) * 0.5
  }

  /**
   * Panning within the symmetric bound never uncovers the layout: when the
   * zoomed content overhangs the layout, every point of the layout lies over
   * the content.
   */
  lemma TapLandsInsideContent(p: real, offset: real, extent: real, layoutExtent: real)
    ensures extent >= layoutExtent && 0.0 <= p <= layoutExtent &&
      -OffsetBound(extent, layoutExtent) <= offset <= OffsetBound(extent, layoutExtent)
      ==> 0.0 <= ContentCoordinate(p, offset, extent, layoutExtent) <= extent
  {
  }

  /** A one-finger drag counts as horizontal when |pan.x| > 3·|pan.y|. */
  predicate IsHorizontalDrag(pan: Offset) {
    AbsR(pan.x) > 3.0 * AbsR(pan.y)
  }

  /** A one-finger drag counts as vertical when |pan.x| < 0.33·|pan.y|. */
  predicate IsVerticalDrag(pan: Offset) {
    AbsR(pan.x) < 0.33 * AbsR(pan.y)
  }

  /** A drag is never both horizontal and vertical, and a still finger is neither. */
  lemma DragDirectionsExclusive(pan: Offset)
    ensures !(IsHorizontalDrag(pan) && IsVerticalDrag(pan))
    ensures pan == Offset(0.0, 0.0) ==> !IsHorizontalDrag(pan) && !IsVerticalDrag(pan)
  {
  }

  /**
   * A Compose `Animatable<Float>` reduced to what the zoom state reads: its
   * value, its optional bounds and whether an animation is running.
   */
  datatype Anim = Anim(value: real, lower: Option<real>, upper: Option<real>, running: bool)

  /** The value an `Animatable` takes when asked for `v`: `v` coerced into its bounds. */
  function Coerce(a: Anim, v: real): (c: real)
    requires a.lower.Some? && a.upper.Some? ==> a.lower.value <= a.upper.value
    ensures a.lower.Some? ==> a.lower.value <= c
    ensures a.upper.Some? ==> c <= a.upper.value
    ensures (a.lower.None? || a.lower.value <= v) && (a.upper.None? || v <= a.upper.value) ==> c == v
  {
    if a.lower.Some? && v < a.lower.value then a.lower.value
    else if a.upper.Some? && v > a.upper.value then a.upper.value
    else v
  }

  /**
   * `snapTo(v)`, and equally an `animateTo(v)` or decay that has run to its
   * end: the value becomes `v` coerced into the bounds and nothing is running.
   */
  function SnapTo(a: Anim, v: real): Anim
    requires a.lower.Some? && a.upper.Some? ==> a.lower.value <= a.upper.value
  {
    Anim(Coerce(a, v), a.lower, a.upper, false)
  }

  /**
   * `updateBounds(-b, b)`: the bounds are replaced, and a value at rest is
   * coerced into them at once; a running animation keeps its value until
   * its next frame. (A negative `b` makes Compose throw; every caller here
   * passes a bound of at least 0.)
   */
  function WithBound(a: Anim, b: real): (w: Anim)
    ensures w.lower == Some(-b) && w.upper == Some(b) && w.running == a.running
    ensures a.running ==> w.value == a.value
    ensures !a.running && b >= 0.0 ==> -b <= w.value <= b && (-b <= a.value <= b ==> w.value == a.value)
    ensures !a.running && b >= 0.0 && a.value > b ==> w.value == b
    ensures !a.running && b >= 0.0 && a.value < -b ==> w.value == -b
  {
    Anim(if a.running || b < 0.0 then a.value else Clamp(a.value, -b, b), Some(-b), Some(b), a.running)
  }

  /**
   * The shape every offset keeps: either unbounded (as created), or bounded
   * by a symmetric interval (-b, b) with b >= 0 that contains the value.
   */
  predicate SymmetricallyBounded(a: Anim) {
    (a.lower.None? && a.upper.None?) ||
    (a.upper.Some? && a.upper.value >= 0.0 && a.lower == Some(-a.upper.value) &&
     -a.upper.value <= a.value <= a.upper.value)
  }

  /** Snapping an offset to a fresh symmetric bound leaves it symmetrically bounded, at the coerced value. */
  lemma SnapWithinBound(a: Anim, b: real, v: real)
    requires b >= 0.0
    ensures SymmetricallyBounded(SnapTo(WithBound(a, b), v))
    ensures SnapTo(WithBound(a, b), v).value == Clamp(v, -b, b)
  {
  }

  /** `abs(lowerBound ?: 0f)`: for a symmetric bound, the bound itself. */
  function BoundOf(a: Anim): (b: real)
    ensures b >= 0.0
    ensures SymmetricallyBounded(a) && a.upper.Some? ==> b == a.upper.value
    ensures a.lower.None? ==> b == 0.0
  {
    if a.lower.Some? then AbsR(a.lower.value) else 0.0
  }

  /** The offset sits on the edge the drag moves towards: the lower bound for a negative drag, the upper for a positive one. */
  predicate AtEdgeFacing(d: real, a: Anim) {
    (d < 0.0 && a.lower == Some(a.value)) || (d > 0.0 && a.upper == Some(a.value))
  }
}
