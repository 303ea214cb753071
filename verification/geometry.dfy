// The geometry and bitmap types the viewer borrows from Compose, Android and MuPDF.
// None of these are defined in the repository; the definitions below are the
// semantics this model gives them.

module Geometry {
  import opened Common

  /** Compose `Offset`; also stands for Android `PointF`. */
  datatype Offset = Offset(x: real, y: real)

  /** Compose `Size`. */
  datatype Size = Size(width: real, height: real)

  const ZeroSize := Size(0.0, 0.0)

  /** Compose `IntSize`. */
  datatype IntSize = IntSize(width: int, height: int)

  /** Android `Point`. */
  datatype Point = Point(x: int, y: int)

  /**
   * Compose `Rect` (left, top, right, bottom); MuPDF's `Rect` (x0, y0, x1, y1)
   * has the same shape and is modelled by it as well.
   */
  datatype Rect = Rect(left: real, top: real, right: real, bottom: real)
  {
    function Width(): real { right - left }

    /** Half-open containment, as Compose's `Rect.contains` and MuPDF's `Rect.contains`. */
    predicate Contains(p: Offset) {
      left <= p.x < right && top <= p.y < bottom
    }

    /** Compose `Rect.translate(Offset(dx, dy))`. */
    function Translate(dx: real, dy: real): Rect {
      Rect(left + dx, top + dy, right + dx, bottom + dy)
    }
  }

  /** Compose `IntRect`; also stands for Android's integer `Rect`. */
  datatype IntRect = IntRect(left: int, top: int, right: int, bottom: int)
  {
    function Width(): int { right - left }

    function Height(): int { bottom - top }

    predicate IsEmpty() { left >= right || top >= bottom }

    /** Half-open containment of an integer pixel position. */
    predicate ContainsPixel(x: int, y: int) {
      left <= x < right && top <= y < bottom
    }

    /** Compose `IntRect.toRect()`. */
    function ToRect(): Rect {
      Rect(left as real, top as real, right as real, bottom as real)
    }
  }

  /** `Rect()` / `IntRect(0, 0, 0, 0)`. */
  const ZeroRect := IntRect(0, 0, 0, 0)

  /**
   * Android `Rect.intersect(r)`: when the two rectangles overlap, the
   * intersection; otherwise no rectangle (the receiver stays unchanged).
   */
  function Intersect(a: IntRect, b: IntRect): (r: Option<IntRect>)
    ensures r.None? ==> forall x, y :: !(a.ContainsPixel(x, y) && b.ContainsPixel(x, y))
    ensures r.Some? ==> forall x, y :: r.value.ContainsPixel(x, y) <==> a.ContainsPixel(x, y) && b.ContainsPixel(x, y)
  {
    if a.left < b.right && b.left < a.right && a.top < b.bottom && b.top < a.bottom then
      Some(IntRect(Max(a.left, b.left), Max(a.top, b.top), Min(a.right, b.right), Min(a.bottom, b.bottom)))
    else
      None
  }

  /** A MuPDF `Link`, and equally the viewer's `PdfPageLink`: bounds plus a uri. */
  datatype Link = Link(bounds: Rect, uri: string)

  /** Where a source bitmap of the given size is drawn on a canvas. */
  datatype Placement = Placement(width: int, height: int, x: int, y: int)

  /**
   * An Android `Bitmap` reduced to its dimensions and whether it was recycled.
   * The object identity matters: the zoomed-bitmap caches hand out the same
   * object they keep.
   */
  class Bitmap {
    const width: int
    const height: int
    var recycled: bool

    /** `Bitmap.createBitmap(width, height, ARGB_8888)`. */
    constructor (width: int, height: int)
      ensures this.width == width && this.height == height && !recycled
    {
      this.width := width;
      this.height := height;
      recycled := false;
    }

    method Recycle()
      modifies this
      ensures recycled
    {
      recycled := true;
    }
  }

  /**
   * `Bitmap.createBitmap(width, height, ARGB_8888)`, which throws
   * `IllegalArgumentException` unless both sides are positive.
   */
  method CreateBitmap(width: int, height: int) returns (r: Result<Bitmap>)
    ensures r.Ok? <==> width > 0 && height > 0
    ensures r.Err? ==> r.error == IllegalArgument
    ensures r.Ok? ==> fresh(r.value) && r.value.width == width && r.value.height == height && !r.value.recycled
  {
    if width <= 0 || height <= 0 {
      return Err(IllegalArgument);
    }
    var b := new Bitmap(width, height);
    return Ok(b);
  }
}
