// viewer/src/main/java/com/viewer/pdf/util/UnitConversions.kt:
// outward rounding of real rectangles.

module UnitConversions {
  import opened Common
  import opened Geometry

  predicate IsWhole(x: real) { x.Floor as real == x }

  predicate IsWholeRect(r: Rect) {
    IsWhole(r.left) && IsWhole(r.top) && IsWhole(r.right) && IsWhole(r.bottom)
  }

  /** `outer` covers `inner` edge by edge. */
  predicate Encloses(outer: Rect, inner: Rect) {
    outer.left <= inner.left && outer.top <= inner.top &&
    inner.right <= outer.right && inner.bottom <= outer.bottom
  }

  /** The exactly scaled rectangle, the reference `Scale` is measured against. */
  function Scaled(r: Rect, f: real): Rect {
    Rect(r.left * f, r.top * f, r.right * f, r.bottom * f)
  }

  /**
   * `Rect.toIntRect()`: floor of left/top, ceiling of right/bottom. The result
   * encloses the input, no edge moves by a whole unit, and a rectangle with
   * whole-number edges is kept as it is.
   */
  function ToIntRect(r: Rect): (ir: IntRect)
    ensures Encloses(ir.ToRect(), r)
    ensures r.left - ir.left as real < 1.0 && r.top - ir.top as real < 1.0
    ensures ir.right as real - r.right < 1.0 && ir.bottom as real - r.bottom < 1.0
    ensures IsWholeRect(r) ==> ir.ToRect() == r
  {
    WholeCeil(r.right);
    WholeCeil(r.bottom);
    IntRect(Floor(r.left), Floor(r.top), Ceil(r.right), Ceil(r.bottom))
  }

  /**
   * `Rect.scale(factor)`: the edges scaled and rounded outward. The result has
   * whole-number edges, encloses the exactly scaled rectangle by less than one
   * unit per edge, and for a non-negative factor keeps a non-inverted rectangle
   * non-inverted.
   */
  function Scale(r: Rect, f: real): (s: Rect)
    ensures IsWholeRect(s)
    ensures Encloses(s, Scaled(r, f))
    ensures r.left * f - s.left < 1.0 && r.top * f - s.top < 1.0
    ensures s.right - r.right * f < 1.0 && s.bottom - r.bottom * f < 1.0
    ensures f >= 0.0 && r.left <= r.right ==> s.left <= s.right
    ensures f >= 0.0 && r.top <= r.bottom ==> s.top <= s.bottom
  {
    MulMonotone(r.left, r.right, f);
    MulMonotone(r.top, r.bottom, f);
    Rect(Floor(r.left * f) as real, Floor(r.top * f) as real, Ceil(r.right * f) as real, Ceil(r.bottom * f) as real)
  }

  lemma WholeCeil(x: real)
    ensures IsWhole(x) ==> Ceil(x) as real == x
  {
    if IsWhole(x) {
      var n := x.Floor;
      var c := Ceil(x);
      assert c as real - 1.0 < n as real <= c as real;
      assert c == n;
    }
  }

  lemma MulMonotone(a: real, b: real, f: real)
    ensures f >= 0.0 && a <= b ==> a * f <= b * f
  {
    if f >= 0.0 && a <= b {
      assert b * f - a * f == (b - a) * f;
    }
  }

  /** Rounding a scaled rectangle again adds nothing: `toIntRect(scale(r, f))` is `scale(r, f)`. */
  lemma ToIntRectOfScale(r: Rect, f: real)
    ensures ToIntRect(Scale(r, f)).ToRect() == Scale(r, f)
  {
  }

  /**
   * Scaling twice with non-negative factors (each time rounding outward)
   * encloses the rectangle exactly scaled by the product of the factors.
   */
  lemma {:induction false} ScaleTwiceEncloses(r: Rect, a: real, b: real)
    requires a >= 0.0 && b >= 0.0
    ensures Encloses(Scale(Scale(r, a), b), Scaled(r, a * b))
  {
    var once := Scale(r, a);
    ScaledKeepsEnclosure(once, Scaled(r, a), b);
    ScaledTwice(r, a, b);
  }

  /** Scaling by a non-negative factor keeps one rectangle enclosing another. */
  lemma ScaledKeepsEnclosure(outer: Rect, inner: Rect, f: real)
    requires Encloses(outer, inner) && f >= 0.0
    ensures Encloses(Scaled(outer, f), Scaled(inner, f))
  {
    MulMonotone(outer.left, inner.left, f);
    MulMonotone(outer.top, inner.top, f);
    MulMonotone(inner.right, outer.right, f);
    MulMonotone(inner.bottom, outer.bottom, f);
  }

  /** Exact scaling by `a` and then `b` is exact scaling by `a * b`. */
  lemma ScaledTwice(r: Rect, a: real, b: real)
    ensures Scaled(Scaled(r, a), b) == Scaled(r, a * b)
  {
    assert r.left * a * b == r.left * (a * b);
    assert r.top * a * b == r.top * (a * b);
    assert r.right * a * b == r.right * (a * b);
    assert r.bottom * a * b == r.bottom * (a * b);
  }
}
