// Page fitting and spread sizing shared by every page state
// (viewer/src/main/java/com/viewer/pdf/double/PdfDoublePageState.kt,
// viewer/src/main/java/com/viewer/pdf/page/double/PdfDoublePageState.kt and both
// PdfSinglePageState.kt files): the page is fitted to the reader by comparing an
// integer reader ratio with the page's Float ratio, two fitted pages are merged
// into one spread, and the zoomed content is sized from the entire bitmap.

module PageLayout {
  import opened Common
  import opened Geometry

  /** `readerSize.width / readerSize.height`, in Kotlin `Int` arithmetic. */
  function AspectRatio(reader: IntSize): (r: Result<int>)
    ensures r.Err? <==> reader.height == 0
    ensures r.Err? ==> r.error == Arithmetic
    ensures reader.width >= 0 && reader.height > 0 ==> r == Ok(reader.width / reader.height)
  {
    KotlinDiv(reader.width, reader.height)
  }

  /** A page size MuPDF reports for a real page: both sides positive. */
  predicate PageSizeOk(page: Option<Offset>) {
    page.Some? ==> page.value.x > 0.0 && page.value.y > 0.0
  }

  /**
   * The size a page is drawn at: the reader's full width when the page is
   * relatively wider than `ratioReader`, otherwise the reader's full height;
   * the other side follows the page's aspect ratio and is truncated.
   */
  function PageFit(reader: IntSize, ratioReader: int, page: Offset): (fit: IntSize)
    requires page.x > 0.0 && page.y > 0.0
    ensures fit.width == reader.width || fit.height == reader.height
  {
    var ratioPage := page.x / page.y;
    if (ratioReader as real) < ratioPage then IntSize(reader.width, Trunc(reader.width as real / ratioPage))
    else IntSize(Trunc(reader.height as real * ratioPage), reader.height)
  }

  /** `PageFit` for a core that may be missing. */
  function Fit(reader: IntSize, ratioReader: int, page: Option<Offset>): (fit: Option<IntSize>)
    requires PageSizeOk(page)
    ensures fit.Some? <==> page.Some?
  {
    if page.Some? then Some(PageFit(reader, ratioReader, page.value)) else None
  }

  /**
   * A page whose width-to-height ratio exceeds `ratioReader` takes the
   * reader's width, and its height is the proportional `W * y / x`, truncated:
   * the page's aspect ratio is kept up to the truncation of one side.
   */
  lemma PageFitWide(reader: IntSize, ratioReader: int, page: Offset)
    requires page.x > 0.0 && page.y > 0.0
    requires ratioReader as real < page.x / page.y
    ensures PageFit(reader, ratioReader, page) == IntSize(reader.width, Trunc(reader.width as real * page.y / page.x))
  {
    DivideByRatio(reader.width as real, page.x, page.y);
  }

  /**
   * Any other page takes the reader's height, and its width is the
   * proportional `H * x / y`, truncated.
   */
  lemma PageFitNarrow(reader: IntSize, ratioReader: int, page: Offset)
    requires page.x > 0.0 && page.y > 0.0
    requires !(ratioReader as real < page.x / page.y)
    ensures PageFit(reader, ratioReader, page) == IntSize(Trunc(reader.height as real * page.x / page.y), reader.height)
  {
    MultiplyByRatio(reader.height as real, page.x, page.y);
  }

  /** `a / (x / y) == a * y / x`. */
  lemma DivideByRatio(a: real, x: real, y: real)
    requires x > 0.0 && y > 0.0
    ensures a / (x / y) == a * y / x
  {
    var r := x / y;
    assert r * y == x;
    var q := a / r;
    assert q * r == a;
    assert q * x == a * y by {
      calc {
        q * x;
        q * (r * y);
        (q * r) * y;
        a * y;
      }
    }
  }

  /** `a * (x / y) == a * x / y`. */
  lemma MultiplyByRatio(a: real, x: real, y: real)
    requires x > 0.0 && y > 0.0
    ensures a * (x / y) == a * x / y
  {
  }

  lemma MulLeq(a: real, b: real, c: real)
    requires a <= b && c >= 0.0
    ensures a * c <= b * c
  {
  }

  lemma MulLt(a: real, b: real, c: real)
    requires a < b && c > 0.0
    ensures a * c < b * c
  {
  }


  /**
   * The size of the merged bitmap: both pages side by side, the height of the
   * taller one; a page alone takes twice its width; without any page
   * `getPageBitmap` throws `IllegalStateException`.
   */
  function MergedSize(fit1: Option<IntSize>, fit2: Option<IntSize>): (r: Result<IntSize>)
    ensures r.Err? <==> fit1.None? && fit2.None?
    ensures r.Err? ==> r.error == IllegalState
  {
    if fit1.Some? && fit2.Some? then
      Ok(IntSize(fit1.value.width + fit2.value.width, Max(fit1.value.height, fit2.value.height)))
    else if fit1.Some? then Ok(IntSize(fit1.value.width * 2, fit1.value.height))
    else if fit2.Some? then Ok(IntSize(fit2.value.width * 2, fit2.value.height))
    else Err(IllegalState)
  }


  predicate Positive(s: IntSize) {
    s.width > 0 && s.height > 0
  }

  predicate Inside(p: Placement, size: IntSize) {
    0 <= p.x && p.x + p.width <= size.width && 0 <= p.y && p.y + p.height <= size.height
  }


  /**
   * A page that is not relatively wider than the integer ratio of `reader`
   * takes the reader's height and stays within the reader's width.
   */
  lemma {:induction false} NarrowPageFitsReader(reader: IntSize, page: Offset)
    requires reader.width >= 0 && reader.height > 0 && page.x > 0.0 && page.y > 0.0
    requires !(AspectRatio(reader).value as real < page.x / page.y)
    ensures var fit := PageFit(reader, AspectRatio(reader).value, page);
      fit.height == reader.height && 0 <= fit.width <= reader.width
  {
    NarrowFitWithin(reader.width, reader.height, page.x / page.y);
  }

  /**
   * Fitting to the height `h` a page whose ratio is at most the integer ratio
   * `w / h` gives a width within `w`.
   */
  lemma NarrowFitWithin(w: int, h: int, ratio: real)
    requires w >= 0 && h > 0 && 0.0 < ratio <= (w / h) as real
    ensures 0 <= Trunc(h as real * ratio) <= w
  {
    var r := w / h;
    assert r as real * h as real <= w as real by { DivTimesDivisor(w, h); }
    assert 0.0 <= h as real * ratio by { MulLeq(0.0, ratio, h as real); }
    assert h as real * ratio <= r as real * h as real by { MulLeq(ratio, r as real, h as real); }
  }

  /** The quotient times the divisor does not exceed the dividend, also as reals. */
  lemma DivTimesDivisor(w: int, h: int)
    requires w >= 0 && h > 0
    ensures (w / h) as real * h as real <= w as real
  {
    var r := w / h;
    assert r * h <= w;
    assert (r * h) as real == r as real * h as real;
  }

  /**
   * The integer ratio truncates: with a 1000 x 800 reader the ratio is 1, so
   * a 1100 x 1000 page counts as wider than the reader, takes its full width
   * and is 909 tall, more than the reader's height.
   */
  lemma WidePageOvershootsReader()
    ensures AspectRatio(IntSize(1000, 800)) == Ok(1)
    ensures PageFit(IntSize(1000, 800), 1, Offset(1100.0, 1000.0)) == IntSize(1000, 909)
  {
    PageFitWide(IntSize(1000, 800), 1, Offset(1100.0, 1000.0));
    assert 1000.0 * 1000.0 / 1100.0 == 909.0 + 1.0 / 11.0;
  }

  /** The entire bitmap scaled by the zoom, each side truncated. */
  function ScaledSize(entire: IntSize, scale: real): IntSize {
    IntSize(Trunc(entire.width as real * scale), Trunc(entire.height as real * scale))
  }

  /** The zoomed content: the scaled size cut down to the reader, side by side. */
  function ContentSize(scaled: IntSize, reader: IntSize): (c: IntSize)
    ensures c.width <= scaled.width && c.width <= reader.width
    ensures c.height <= scaled.height && c.height <= reader.height
    ensures c.width == scaled.width || c.width == reader.width
    ensures c.height == scaled.height || c.height == reader.height
  {
    IntSize(Min(scaled.width, reader.width), Min(scaled.height, reader.height))
  }

  /**
   * Zooming in never shrinks the entire bitmap, and the content cut from it
   * has positive sides whenever the bitmap and the reader have.
   */
  lemma {:induction false} ZoomedContentPositive(entire: IntSize, reader: IntSize, scale: real)
    requires Positive(entire) && Positive(reader) && scale > 1.0
    ensures ScaledSize(entire, scale).width >= entire.width
    ensures ScaledSize(entire, scale).height >= entire.height
    ensures Positive(ContentSize(ScaledSize(entire, scale), reader))
  {
    MulLeq(1.0, scale, entire.width as real);
    MulLeq(1.0, scale, entire.height as real);
  }
  /**
   * The arguments of one `core.drawPage(bitmap, rect, pageHeight)` call of the
   * page states: the rectangle handed over and the height the page is
   * rendered at. That overload of `drawPage` is not part of this model.
   */
  datatype PatchDraw = PatchDraw(rect: IntRect, pageHeight: int)

  /**
   * What a single-page `refreshZoomedContent` computes before launching its
   * job: the scale, the scaled entire bitmap, the zoomed content size and the
   * pan position `bounds - offset` on each axis.
   */
  datatype PatchRequest = PatchRequest(scale: real, scaled: IntSize, content: IntSize, posX: real, posY: real)

  /** The request built once the guard has passed. */
  function PatchRequestFor(entire: IntSize, reader: IntSize, scale: real, posX: real, posY: real): (req: PatchRequest)
    ensures req.scaled == ScaledSize(entire, scale) && req.content == ContentSize(req.scaled, reader)
    ensures Positive(entire) && Positive(reader) && scale > 1.0 ==> Positive(req.content)
  {
    var scaled := ScaledSize(entire, scale);
    assert Positive(entire) && Positive(reader) && scale > 1.0 ==> Positive(ContentSize(scaled, reader)) by {
      if Positive(entire) && Positive(reader) && scale > 1.0 {
        ZoomedContentPositive(entire, reader, scale);
      }
    }
    PatchRequest(scale, scaled, ContentSize(scaled, reader), posX, posY)
  }

  /** The rectangle the single-page job hands to `drawPage`: the truncated pan position, then the content size. */
  function PatchRect(req: PatchRequest): IntRect {
    IntRect(Trunc(req.posX), Trunc(req.posY), req.content.width, req.content.height)
  }
}
