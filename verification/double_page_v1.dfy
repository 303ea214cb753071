// viewer/src/main/java/com/viewer/pdf/double/PdfDoublePageState.kt: the first
// revision of the two-page spread. Each page is fitted against the reader
// separately, the two bitmaps are merged side by side into the entire bitmap,
// and a zoom window over that bitmap is split into one clipped part per page.
//
// MuPDF is reduced to the page size each core reports; `drawPage` is recorded
// as the arguments it is called with, and drawing a bitmap on a canvas as a
// `Placement`.

module DoublePageStateV1 {
  import opened Common
  import opened Geometry
  import opened PageLayout
  import ZoomStateV1

  /** `(readerSize.width / 2) / readerSize.height`, in Kotlin `Int` arithmetic. */
  function ReaderAspectRatio(reader: IntSize): (r: Result<int>)
    ensures r.Err? <==> reader.height == 0
    ensures r.Err? ==> r.error == Arithmetic
    ensures reader.width >= 0 && reader.height > 0 ==> r == Ok(reader.width / 2 / reader.height)
  {
    var half := KotlinDiv(reader.width, 2).value;
    KotlinDiv(half, reader.height)
  }

  /**
   * A page that is not relatively wider than the reader's half is fitted to
   * the reader's height and stays within half of the reader's width.
   */
  lemma {:induction false} NarrowPageFitsHalfReader(reader: IntSize, page: Offset)
    requires reader.width >= 0 && reader.height > 0 && page.x > 0.0 && page.y > 0.0
    requires !(ReaderAspectRatio(reader).value as real < page.x / page.y)
    ensures var fit := PageFit(reader, ReaderAspectRatio(reader).value, page);
      fit.height == reader.height && 0 <= fit.width <= reader.width / 2
  {
    var half := IntSize(reader.width / 2, reader.height);
    var ratio := ReaderAspectRatio(reader).value;
    assert ratio == AspectRatio(half).value;
    NarrowPageFitsReader(half, page);
    assert PageFit(reader, ratio, page) == PageFit(half, ratio, page);
  }

  /**
   * The other case is not bounded by the reader: with a 1000 x 800 reader the
   * ratio is 0, so a 400 x 800 page takes the reader's full width and is
   * 2000 tall, more than twice the reader's height.
   */
  lemma WidePageOvershootsReader()
    ensures ReaderAspectRatio(IntSize(1000, 800)) == Ok(0)
    ensures PageFit(IntSize(1000, 800), 0, Offset(400.0, 800.0)) == IntSize(1000, 2000)
  {
    assert 400.0 / 800.0 == 0.5;
    assert 1000.0 / 0.5 == 2000.0;
  }

  /** Where bitmap 2 is drawn: right after bitmap 1, or at half the merged width. */
  function SecondX(fit1: Option<IntSize>, merged: IntSize): int {
    if fit1.Some? then fit1.value.width else KotlinDiv(merged.width, 2).value
  }

  /** The two `drawBitmap` calls on the merged bitmap, in order. */
  function SpreadDraws(fit1: Option<IntSize>, fit2: Option<IntSize>, merged: IntSize): seq<Placement> {
    (if fit1.Some? then [Placement(fit1.value.width, fit1.value.height, 0, 0)] else []) +
    (if fit2.Some? then [Placement(fit2.value.width, fit2.value.height, SecondX(fit1, merged), 0)] else [])
  }

  /**
   * The spread fills the merged bitmap: every page lies inside it, the first
   * page starts at its left edge, the second ends at its right edge and starts
   * where the first ends, and its height is that of the tallest page. A page
   * alone fills its own half.
   */
  lemma {:induction false} SpreadFillsMergedBitmap(fit1: Option<IntSize>, fit2: Option<IntSize>)
    requires fit1.Some? ==> Positive(fit1.value)
    requires fit2.Some? ==> Positive(fit2.value)
    requires fit1.Some? || fit2.Some?
    ensures var merged := MergedSize(fit1, fit2).value;
      var d := SpreadDraws(fit1, fit2, merged);
      Positive(merged) && |d| >= 1 &&
      (forall i :: 0 <= i < |d| ==> Inside(d[i], merged)) &&
      (exists i :: 0 <= i < |d| && d[i].height == merged.height) &&
      (fit1.Some? ==> d[0].x == 0) &&
      (fit2.Some? ==> d[|d| - 1].x + d[|d| - 1].width == merged.width) &&
      (|d| == 2 ==> d[0].x + d[0].width == d[1].x) &&
      (|d| == 1 ==> d[0].width + d[0].width == merged.width)
  {
    var merged := MergedSize(fit1, fit2).value;
    var d := SpreadDraws(fit1, fit2, merged);
    if fit1.Some? && fit2.Some? {
      assert d == [Placement(fit1.value.width, fit1.value.height, 0, 0),
                   Placement(fit2.value.width, fit2.value.height, fit1.value.width, 0)];
      if fit1.value.height >= fit2.value.height {
        assert d[0].height == merged.height;
      } else {
        assert d[1].height == merged.height;
      }
    } else if fit1.Some? {
      assert d == [Placement(fit1.value.width, fit1.value.height, 0, 0)];
      assert d[0].height == merged.height;
    } else {
      assert KotlinDiv(merged.width, 2) == Ok(fit2.value.width);
      assert d == [Placement(fit2.value.width, fit2.value.height, fit2.value.width, 0)];
      assert d[0].height == merged.height;
    }
  }

  /** As written: page 2's rectangle starts at page 1's width, or at 0 without page 1. */
  function SecondPageRectAsWritten(page1Rect: Option<IntRect>, fit2: IntSize): IntRect {
    var leftOffset := if page1Rect.Some? then page1Rect.value.Width() else 0;
    IntRect(leftOffset, 0, fit2.width + leftOffset, fit2.height)
  }

  /**
   * Corrected: page 2's rectangle starts where bitmap 2 is drawn, at page 1's
   * width or, without page 1, at its own width (half the merged width).
   */
  function SecondPageRect(page1Rect: Option<IntRect>, fit2: IntSize): IntRect {
    var leftOffset := if page1Rect.Some? then page1Rect.value.Width() else fit2.width;
    IntRect(leftOffset, 0, fit2.width + leftOffset, fit2.height)
  }

  /** The rectangle of page 1 for a fitted page 1. */
  function FirstPageRect(fit1: IntSize): IntRect {
    IntRect(0, 0, fit1.width, fit1.height)
  }

  /**
   * With a lone right page the rectangle written down for it starts at 0,
   * but the page is drawn at its own width.
   */
  lemma LoneSecondPageRectMisplaced()
    ensures var fit2 := IntSize(500, 800);
      var merged := MergedSize(None, Some(fit2)).value;
      SecondPageRectAsWritten(None, fit2).left == 0 &&
      SpreadDraws(None, Some(fit2), merged) == [Placement(500, 800, 500, 0)]
  {
    var fit2 := IntSize(500, 800);
    var merged := MergedSize(None, Some(fit2)).value;
    assert KotlinDiv(merged.width, 2) == Ok(500);
  }

  /** The corrected rectangle of page 2 is exactly where bitmap 2 is drawn, in both layouts. */
  lemma {:induction false} SecondPageRectMatchesDraw(fit1: Option<IntSize>, fit2: IntSize)
    requires fit1.Some? ==> Positive(fit1.value)
    requires Positive(fit2)
    ensures var merged := MergedSize(fit1, Some(fit2)).value;
      var d := SpreadDraws(fit1, Some(fit2), merged);
      var rect := SecondPageRect(if fit1.Some? then Some(FirstPageRect(fit1.value)) else None, fit2);
      rect.left == d[|d| - 1].x && rect.Width() == d[|d| - 1].width && rect.top == d[|d| - 1].y
  {
    var merged := MergedSize(fit1, Some(fit2)).value;
    if fit1.None? {
      assert KotlinDiv(merged.width, 2) == Ok(fit2.width);
    }
  }

  /** Whether column x lies within the horizontal extent of r. */
  predicate Column(r: IntRect, x: int) {
    r.left <= x < r.right
  }

  /**
   * `getZoomBounds`: the window clipped at page 1's right edge, and the window
   * clipped at page 2's left edge and made relative to it; a part that does
   * not exist or does not overlap is the empty `Rect()`.
   */
  function ZoomBounds(window: IntRect, page1Rect: Option<IntRect>, page2Rect: Option<IntRect>): (parts: (IntRect, IntRect))
    ensures page1Rect.None? ==> parts.0 == ZeroRect
    ensures page2Rect.None? ==> parts.1 == ZeroRect
  {
    var part1 :=
      if page1Rect.Some? && window.left < page1Rect.value.right then
        IntRect(window.left, window.top, Min(window.right, page1Rect.value.right), window.bottom)
      else ZeroRect;
    var part2 :=
      if page2Rect.Some? && window.right > page2Rect.value.left then
        IntRect(Max(window.left, page2Rect.value.left) - page2Rect.value.left, window.top,
                window.right - page2Rect.value.left, window.bottom)
      else ZeroRect;
    (part1, part2)
  }

  /**
   * Every non-empty part keeps the window's rows and has a positive width,
   * and a part can only be non-empty when the window has a positive width.
   */
  lemma ZoomPartsKeepRows(window: IntRect, page1Rect: Option<IntRect>, page2Rect: Option<IntRect>)
    ensures var parts := ZoomBounds(window, page1Rect, page2Rect);
      window.left < window.right ==> parts.0 == ZeroRect || (parts.0.Width() > 0 && parts.0.top == window.top && parts.0.bottom == window.bottom)
    ensures var parts := ZoomBounds(window, page1Rect, page2Rect);
      window.left < window.right ==> parts.1 == ZeroRect || (parts.1.Width() > 0 && parts.1.top == window.top && parts.1.bottom == window.bottom)
    ensures var parts := ZoomBounds(window, page1Rect, page2Rect);
      !parts.0.IsEmpty() || !parts.1.IsEmpty() ==> window.left < window.right
  {
  }

  /**
   * With page 2 starting where page 1 ends (or, without page 1, at or before
   * the window), the widths of the two parts add up to the window's width.
   */
  lemma {:induction false} ZoomBoundsTile(window: IntRect, page1Rect: Option<IntRect>, page2Rect: IntRect)
    requires window.left <= window.right
    requires page1Rect.Some? ==> page2Rect.left == page1Rect.value.right
    requires page1Rect.None? ==> page2Rect.left <= window.left
    ensures var parts := ZoomBounds(window, page1Rect, Some(page2Rect));
      parts.0.Width() + parts.1.Width() == window.Width()
  {
    var parts := ZoomBounds(window, page1Rect, Some(page2Rect));
    var s := page2Rect.left;
    var l, r := window.left, window.right;
    if page1Rect.Some? && l < s {
      if r <= s {
        assert parts.0 == IntRect(l, window.top, r, window.bottom);
        assert parts.1 == ZeroRect;
      } else {
        assert parts.0 == IntRect(l, window.top, s, window.bottom);
        assert parts.1 == IntRect(0, window.top, r - s, window.bottom);
      }
    } else {
      assert parts.0 == ZeroRect;
      if r > s {
        assert parts.1 == IntRect(l - s, window.top, r - s, window.bottom);
      } else {
        assert parts.1 == ZeroRect;
      }
    }
  }

  /**
   * In the same layout each column of the window lies in exactly one part,
   * page 2's part being shifted back by page 2's left edge, and no column
   * outside the window lies in either.
   */
  lemma {:induction false} ZoomBoundsTileColumn(window: IntRect, page1Rect: Option<IntRect>, page2Rect: IntRect, x: int)
    requires window.left <= window.right
    requires page1Rect.Some? ==> page2Rect.left == page1Rect.value.right
    requires page1Rect.None? ==> page2Rect.left <= window.left
    ensures var parts := ZoomBounds(window, page1Rect, Some(page2Rect));
      Column(window, x) <==> Column(parts.0, x) || Column(parts.1, x - page2Rect.left)
    ensures var parts := ZoomBounds(window, page1Rect, Some(page2Rect));
      !(Column(parts.0, x) && Column(parts.1, x - page2Rect.left))
  {
    var parts := ZoomBounds(window, page1Rect, Some(page2Rect));
    var s := page2Rect.left;
    if page1Rect.Some? && window.left < s {
      assert Column(parts.0, x) <==> window.left <= x < Min(window.right, s);
    } else {
      assert !Column(parts.0, x);
    }
    if window.right > s {
      assert Column(parts.1, x - s) <==> Max(window.left, s) <= x < window.right;
    } else {
      assert !Column(parts.1, x - s);
    }
  }

  /**
   * When page 2 starts at or after the end of page 1, the widths of the two
   * parts never exceed the window's width.
   */
  lemma {:induction false} ZoomBoundsWithinWindow(window: IntRect, page1Rect: Option<IntRect>, page2Rect: Option<IntRect>)
    requires window.left <= window.right
    requires page1Rect.Some? && page2Rect.Some? ==> page1Rect.value.right <= page2Rect.value.left
    ensures var parts := ZoomBounds(window, page1Rect, page2Rect);
      0 <= parts.0.Width() && 0 <= parts.1.Width() && parts.0.Width() + parts.1.Width() <= window.Width()
  {
    FirstPartWidth(window, page1Rect, page2Rect);
    SecondPartWidth(window, page1Rect, page2Rect);
  }

  /** The width of page 1's part: up to page 1's right edge, or 0. */
  lemma FirstPartWidth(window: IntRect, page1Rect: Option<IntRect>, page2Rect: Option<IntRect>)
    requires window.left <= window.right
    ensures 0 <= ZoomBounds(window, page1Rect, page2Rect).0.Width() <= window.Width()
    ensures page1Rect.Some? ==> ZoomBounds(window, page1Rect, page2Rect).0.Width() <= Max(page1Rect.value.right - window.left, 0)
    ensures page1Rect.None? ==> ZoomBounds(window, page1Rect, page2Rect).0.Width() == 0
  {
  }

  /** The width of page 2's part: from page 2's left edge, or 0. */
  lemma SecondPartWidth(window: IntRect, page1Rect: Option<IntRect>, page2Rect: Option<IntRect>)
    requires window.left <= window.right
    ensures 0 <= ZoomBounds(window, page1Rect, page2Rect).1.Width() <= window.Width()
    ensures page2Rect.Some? ==> ZoomBounds(window, page1Rect, page2Rect).1.Width() <= Max(window.right - page2Rect.value.left, 0)
    ensures page2Rect.None? ==> ZoomBounds(window, page1Rect, page2Rect).1.Width() == 0
  {
  }

  /** The arguments of one `drawPage` call: the page is rendered at pageWidth x pageHeight and the patch at (patchX, patchY) is copied. */
  datatype PageRender = PageRender(pageWidth: int, pageHeight: int, patchX: int, patchY: int)

  /**
   * What `refreshZoomedContent` computes before launching its job: the scale,
   * the scaled size of the entire bitmap, the size of the zoomed bitmap, the
   * zoom window over the entire bitmap and its two parts.
   */
  datatype ZoomRequest = ZoomRequest(
    scale: real, scaledWidth: int, scaledHeight: int, width: int, height: int,
    window: IntRect, page1Bounds: IntRect, page2Bounds: IntRect)

  /**
   * One axis of the arithmetic in `refreshZoomedContent`: the side of the
   * entire bitmap at the scale, that side fitted to the reader, and the
   * start and extent of the window over the entire bitmap (the pan position
   * and the zoomed side, each divided by the scale and truncated).
   */
  datatype Axis = Axis(scaled: int, zoomed: int, start: int, span: int)

  function AxisFor(entire: int, reader: int, scale: real, pos: real): Axis
    requires scale > 0.0
  {
    var scaled := Trunc(entire as real * scale);
    var zoomed := Min(scaled, reader);
    Axis(scaled, zoomed, Trunc(pos / scale), Trunc(zoomed as real / scale))
  }

  /** The request `refreshZoomedContent` builds once its guard has passed. */
  function RequestFor(entire: IntSize, reader: IntSize, scale: real, posX: real, posY: real,
                      page1Rect: Option<IntRect>, page2Rect: Option<IntRect>): ZoomRequest
    requires scale > 0.0
  {
    var x := AxisFor(entire.width, reader.width, scale, posX);
    var y := AxisFor(entire.height, reader.height, scale, posY);
    var window := IntRect(x.start, y.start, x.start + x.span, y.start + y.span);
    var parts := ZoomBounds(window, page1Rect, page2Rect);
    ZoomRequest(scale, x.scaled, y.scaled, x.zoomed, y.zoomed, window, parts.0, parts.1)
  }

  /**
   * Along either axis, the zoomed side is within the reader and the scaled
   * side, and at least one pixel for a non-empty entire bitmap and reader;
   * the window starts at or after 0, is no longer than the entire bitmap,
   * and at most the zoomed side over the scale.
   */
  lemma AxisWithin(entire: int, reader: int, scale: real, pos: real)
    requires entire >= 0 && reader >= 0 && scale > 1.0 && pos >= 0.0
    ensures 0 <= AxisFor(entire, reader, scale, pos).zoomed <= reader
    ensures AxisFor(entire, reader, scale, pos).zoomed <= AxisFor(entire, reader, scale, pos).scaled
    ensures entire >= 1 && reader >= 1 ==> AxisFor(entire, reader, scale, pos).zoomed >= 1
    ensures 0 <= AxisFor(entire, reader, scale, pos).start
    ensures 0 <= AxisFor(entire, reader, scale, pos).span <= entire
    ensures AxisFor(entire, reader, scale, pos).span as real <= AxisFor(entire, reader, scale, pos).zoomed as real / scale
  {
    ZoomedWithin(entire, reader, scale);
    SpanWithin(entire, reader, scale);
    NonNegativeQuotient(pos, scale);
  }

  /** The zoomed side lies within the reader and the scaled side, and is positive for positive sides. */
  lemma ZoomedWithin(entire: int, reader: int, scale: real)
    requires entire >= 0 && reader >= 0 && scale > 1.0
    ensures 0 <= Min(Trunc(entire as real * scale), reader) <= reader
    ensures entire >= 1 && reader >= 1 ==> Min(Trunc(entire as real * scale), reader) >= 1
  {
    ScaledNonNegative(entire, scale);
    if entire >= 1 {
      ScaledAtLeastOne(entire, scale);
    }
  }

  lemma ScaledAtLeastOne(e: int, scale: real)
    requires e >= 1 && scale > 1.0
    ensures 1.0 <= e as real * scale
  {
  }

  /** The window's extent, the zoomed side over the scale truncated, lies within [0, entire]. */
  lemma SpanWithin(entire: int, reader: int, scale: real)
    requires entire >= 0 && reader >= 0 && scale > 1.0
    ensures 0 <= Trunc(Min(Trunc(entire as real * scale), reader) as real / scale) <= entire
    ensures Trunc(Min(Trunc(entire as real * scale), reader) as real / scale) as real
         <= Min(Trunc(entire as real * scale), reader) as real / scale
  {
    ScaledNonNegative(entire, scale);
    var z := Min(Trunc(entire as real * scale), reader);
    QuotientWithin(z, entire, scale);
  }

  /** `0 <= z <= e * s` means `0 <= z / s <= e`. */
  lemma QuotientWithin(z: int, e: int, s: real)
    requires 0 <= z && z as real <= e as real * s && s > 0.0
    ensures 0.0 <= z as real / s <= e as real
  {
    var q := z as real / s;
    if q > e as real {
      MulLt(e as real, q, s);
    }
    if q < 0.0 {
      MulLt(q, 0.0, s);
    }
  }

  lemma NonNegativeQuotient(a: real, s: real)
    requires a >= 0.0 && s > 0.0
    ensures Trunc(a / s) >= 0
  {
    assert a / s * s == a;
  }

  /** `(part.width() / window.width() * width).toInt()`: the width of a page's zoomed bitmap. */
  function PartWidth(part: IntRect, window: IntRect, width: int): int
    requires window.Width() != 0
  {
    ZoomedWidth(part.Width(), window.Width(), width)
  }

  /** `(p / ww * width).toInt()` on the widths themselves. */
  function ZoomedWidth(p: int, ww: int, width: int): int
    requires ww != 0
  {
    Trunc(p as real / ww as real * width as real)
  }

  /**
   * A part at least one column wide gets a zoomed bitmap at least one pixel
   * wide, since the window is the zoomed width divided by a scale above 1.
   */
  lemma PartWidthPositive(pw: int, ww: int, width: int, scale: real)
    requires pw >= 1 && ww >= 1 && width >= 0 && scale > 1.0
    requires ww as real <= width as real / scale
    ensures ZoomedWidth(pw, ww, width) >= 1
  {
    var f := pw as real / ww as real;
    assert f * ww as real == pw as real;
    assert 0.0 <= f by { QuotientNonNegative(pw as real, ww as real); }
    assert ww as real * scale <= width as real by { BelowQuotient(ww as real, width as real, scale); }
    AtLeastOne(f, ww as real, pw as real, scale, width as real);
  }

  /** A quotient of a non-negative value by a positive one is non-negative. */
  lemma QuotientNonNegative(x: real, w: real)
    requires x >= 0.0 && w > 0.0
    ensures x / w >= 0.0
  {
    var q := x / w;
    if q < 0.0 {
      MulLt(q, 0.0, w);
    }
  }

  /** `a <= b / s` with `s > 0` means `a * s <= b`. */
  lemma BelowQuotient(a: real, b: real, s: real)
    requires s > 0.0 && a <= b / s
    ensures a * s <= b
  {
    MulLeq(a, b / s, s);
  }

  /** `f * width >= 1` when `f * ww` is a whole part `pw >= 1` and `width >= ww * s` with `s > 1`. */
  lemma AtLeastOne(f: real, ww: real, pw: real, s: real, width: real)
    requires f >= 0.0 && f * ww == pw && pw >= 1.0 && s > 1.0 && ww * s <= width
    ensures f * width >= 1.0
  {
    MulLeq(ww * s, width, f);
    assert ww * s * f == pw * s;
    MulLeq(1.0, pw, s);
  }

  /** The shares `x1 / w` and `x2 / w` of parts that fit together in `w` are non-negative and sum to at most 1. */
  lemma QuotientsSum(x1: real, x2: real, w: real)
    requires 0.0 <= x1 && 0.0 <= x2 && x1 + x2 <= w && w > 0.0
    ensures 0.0 <= x1 / w && 0.0 <= x2 / w && x1 / w + x2 / w <= 1.0
  {
    var q1 := x1 / w;
    var q2 := x2 / w;
    if q1 < 0.0 {
      MulLt(q1, 0.0, w);
    }
    if q2 < 0.0 {
      MulLt(q2, 0.0, w);
    }
    if q1 + q2 > 1.0 {
      MulLt(1.0, q1 + q2, w);
    }
  }

  /** Non-negative shares summing to at most 1, applied to a non-negative width, sum to at most that width. */
  lemma SharesOfWidth(q1: real, q2: real, width: real)
    requires 0.0 <= q1 && 0.0 <= q2 && q1 + q2 <= 1.0 && width >= 0.0
    ensures 0.0 <= q1 * width && 0.0 <= q2 * width && q1 * width + q2 * width <= width
  {
    MulLeq(0.0, q1, width);
    MulLeq(0.0, q2, width);
    MulLeq(q1 + q2, 1.0, width);
  }

  /** Two part widths together never exceed the zoomed width when the parts fit in the window. */
  lemma PartWidthsWithin(p1: int, p2: int, ww: int, width: int)
    requires p1 >= 0 && p2 >= 0 && ww >= 1 && width >= 0 && p1 + p2 <= ww
    ensures 0 <= ZoomedWidth(p1, ww, width) && 0 <= ZoomedWidth(p2, ww, width)
    ensures ZoomedWidth(p1, ww, width) + ZoomedWidth(p2, ww, width) <= width
  {
    var a := p1 as real / ww as real * width as real;
    var b := p2 as real / ww as real * width as real;
    assert 0.0 <= a && 0.0 <= b && a + b <= width as real by {
      QuotientsSum(p1 as real, p2 as real, ww as real);
      SharesOfWidth(p1 as real / ww as real, p2 as real / ww as real, width as real);
    }
    assert Trunc(a) as real <= a && Trunc(b) as real <= b;
  }

  /**
   * As written: `page1Rect!!.width() / (page1Rect!!.width() + page2Rect!!.width())`
   * for page 1 and the same with page 2's width on top for page 2; without
   * both rectangles the `!!` throws.
   */
  function TotalPercentsAsWritten(page1Rect: Option<IntRect>, page2Rect: Option<IntRect>): (r: Result<(real, real)>)
    requires page1Rect.Some? && page2Rect.Some? ==> page1Rect.value.Width() > 0 && page2Rect.value.Width() > 0
    ensures r.Err? <==> page1Rect.None? || page2Rect.None?
    ensures r.Err? ==> r.error == NullPointer
  {
    if page1Rect.None? || page2Rect.None? then Err(NullPointer)
    else
      var total := (page1Rect.value.Width() + page2Rect.value.Width()) as real;
      Ok((page1Rect.value.Width() as real / total, page2Rect.value.Width() as real / total))
  }

  /**
   * A lone page crashes the zoom: at pager position 0 there is no left page,
   * and any window reaching the right page gives it a non-empty part, whose
   * job then needs the missing page 1 rectangle.
   */
  lemma LonePageZoomThrows()
    ensures var page2Rect := IntRect(0, 0, 500, 800);
      var parts := ZoomBounds(IntRect(10, 10, 60, 90), None, Some(page2Rect));
      !parts.1.IsEmpty() && TotalPercentsAsWritten(None, Some(page2Rect)) == Err(NullPointer)
  {
  }

  /** Corrected: the share of the entire bitmap's width that a page covers. */
  function TotalPercent(pageWidth: int, entireWidth: int): real
    requires entireWidth > 0
  {
    pageWidth as real / entireWidth as real
  }

  /**
   * Wherever the written shares are defined (both pages present, side by
   * side in the entire bitmap), the corrected share is the same.
   */
  lemma TotalPercentAgrees(page1Rect: IntRect, page2Rect: IntRect)
    requires page1Rect.Width() > 0 && page2Rect.Width() > 0
    ensures var entireWidth := page1Rect.Width() + page2Rect.Width();
      TotalPercentsAsWritten(Some(page1Rect), Some(page2Rect)) ==
        Ok((TotalPercent(page1Rect.Width(), entireWidth), TotalPercent(page2Rect.Width(), entireWidth)))
  {
  }

  /**
   * With the corrected share, a page is rendered at its own width times the
   * scale, up to the two truncations: `Trunc(Trunc(E * s) * w / E)` lies in
   * (w * s - 2, w * s].
   */
  lemma {:induction false} RenderedAtZoomScale(w: int, entireWidth: int, scale: real)
    requires 0 <= w <= entireWidth && entireWidth > 0 && scale > 0.0
    ensures w as real * scale - 2.0 < Trunc(Trunc(entireWidth as real * scale) as real * TotalPercent(w, entireWidth)) as real
    ensures Trunc(Trunc(entireWidth as real * scale) as real * TotalPercent(w, entireWidth)) as real <= w as real * scale
  {
    TruncatedShare(w, entireWidth, scale);
  }

  /** The share of the truncated scaled entire width loses less than one against the page's width times the scale. */
  lemma TruncatedShare(w: int, entireWidth: int, scale: real)
    requires 0 <= w <= entireWidth && entireWidth > 0 && scale > 0.0
    ensures w as real * scale - 1.0 < Trunc(entireWidth as real * scale) as real * TotalPercent(w, entireWidth)
    ensures Trunc(entireWidth as real * scale) as real * TotalPercent(w, entireWidth) <= w as real * scale
    ensures 0.0 <= Trunc(entireWidth as real * scale) as real * TotalPercent(w, entireWidth)
  {
    ShareOfWidth(w, entireWidth);
    ShareScales(w, entireWidth, scale);
    ScaledNonNegative(entireWidth, scale);
  }

  /** A page's share of the entire width lies in [0, 1] and times the entire width gives the page's width back. */
  lemma ShareOfWidth(w: int, entireWidth: int)
    requires 0 <= w <= entireWidth && entireWidth > 0
    ensures 0.0 <= TotalPercent(w, entireWidth) <= 1.0
    ensures entireWidth as real * TotalPercent(w, entireWidth) == w as real
  {
  }

  lemma ShareScales(w: int, entireWidth: int, scale: real)
    requires entireWidth > 0
    ensures entireWidth as real * scale * TotalPercent(w, entireWidth) == w as real * scale
  {
  }

  lemma ScaledNonNegative(e: int, scale: real)
    requires e >= 0 && scale > 0.0
    ensures 0.0 <= e as real * scale
  {
  }

  /** Only the parts with a core and a non-empty window are drawn. */
  predicate Draws(hasCore: bool, part: IntRect) {
    hasCore && !part.IsEmpty()
  }

  /** A request whose parts can be divided by the window: any non-empty part lies in a window of positive width. */
  predicate WellFormed(req: ZoomRequest) {
    req.scale > 0.0 && (!req.page1Bounds.IsEmpty() || !req.page2Bounds.IsEmpty() ==> req.window.Width() > 0)
  }

  /** The placements of the two zoomed parts on the zoomed bitmap: page 1's part at 0, page 2's after it. */
  function ZoomedDraws(req: ZoomRequest, has1: bool, has2: bool): seq<Placement>
    requires WellFormed(req)
  {
    var d1 := Draws(has1, req.page1Bounds);
    var d2 := Draws(has2, req.page2Bounds);
    var w1 := if d1 then PartWidth(req.page1Bounds, req.window, req.width) else 0;
    var w2 := if d2 then PartWidth(req.page2Bounds, req.window, req.width) else 0;
    (if d1 then [Placement(w1, req.height, 0, 0)] else []) +
    (if d2 then [Placement(w2, req.height, w1, 0)] else [])
  }

  /** The `drawPage` call for one part, with the corrected share. */
  function RenderOf(req: ZoomRequest, part: IntRect, pageRect: IntRect, entireWidth: int): PageRender
    requires entireWidth > 0
  {
    PageRender(Trunc(req.scaledWidth as real * TotalPercent(pageRect.Width(), entireWidth)), req.scaledHeight,
               Trunc(part.left as real * req.scale), Trunc(part.top as real * req.scale))
  }

  /**
   * What the job needs of a request: a scale above 1, a zoomed bitmap with
   * positive sides, a window no wider than the zoomed width over the scale,
   * and parts that fit side by side in the window, any non-empty one in a
   * window of positive width.
   */
  predicate Sane(req: ZoomRequest) {
    req.scale > 1.0 && req.width >= 1 && req.height >= 1 &&
    0 <= req.window.Width() && req.window.Width() as real <= req.width as real / req.scale &&
    0 <= req.page1Bounds.Width() && 0 <= req.page2Bounds.Width() &&
    req.page1Bounds.Width() + req.page2Bounds.Width() <= req.window.Width() &&
    (!req.page1Bounds.IsEmpty() || !req.page2Bounds.IsEmpty() ==> req.window.Width() > 0)
  }

  /**
   * A request made over a laid-out spread (page 2 at or after the end of
   * page 1), with a non-empty entire bitmap and reader, a scale above 1 and a
   * position inside the bounds, is sane.
   */
  lemma {:induction false} RequestIsSane(req: ZoomRequest, entire: IntSize, reader: IntSize, scale: real, posX: real, posY: real,
                                         page1Rect: Option<IntRect>, page2Rect: Option<IntRect>)
    requires Positive(entire) && Positive(reader) && scale > 1.0 && posX >= 0.0 && posY >= 0.0
    requires page1Rect.Some? && page2Rect.Some? ==> page1Rect.value.right <= page2Rect.value.left
    requires req == RequestFor(entire, reader, scale, posX, posY, page1Rect, page2Rect)
    ensures Sane(req)
  {
    AxisWithin(entire.width, reader.width, scale, posX);
    AxisWithin(entire.height, reader.height, scale, posY);
    ZoomBoundsWithinWindow(req.window, page1Rect, page2Rect);
    ZoomPartsKeepRows(req.window, page1Rect, page2Rect);
  }

  /**
   * For a sane request every part bitmap has a positive width, and the parts
   * lie side by side inside the zoomed bitmap.
   */
  lemma {:induction false} SaneDrawsFit(req: ZoomRequest, has1: bool, has2: bool)
    requires Sane(req)
    ensures WellFormed(req)
    ensures var d := ZoomedDraws(req, has1, has2);
      (forall i :: 0 <= i < |d| ==> d[i].width > 0 && Inside(d[i], IntSize(req.width, req.height))) &&
      (|d| == 2 ==> d[0].x + d[0].width == d[1].x)
  {
    var d1 := Draws(has1, req.page1Bounds);
    var d2 := Draws(has2, req.page2Bounds);
    var d := ZoomedDraws(req, has1, has2);
    if d1 {
      PartWidthBounds(req.page1Bounds, req.window, req.width, req.scale);
    }
    if d2 {
      PartWidthBounds(req.page2Bounds, req.window, req.width, req.scale);
    }
    if d1 && d2 {
      PartWidthsSum(req.page1Bounds, req.page2Bounds, req.window, req.width);
      var w1 := PartWidth(req.page1Bounds, req.window, req.width);
      var w2 := PartWidth(req.page2Bounds, req.window, req.width);
      assert d == [Placement(w1, req.height, 0, 0), Placement(w2, req.height, w1, 0)];
    } else if d1 {
      assert d == [Placement(PartWidth(req.page1Bounds, req.window, req.width), req.height, 0, 0)];
    } else if d2 {
      assert d == [Placement(PartWidth(req.page2Bounds, req.window, req.width), req.height, 0, 0)];
    } else {
      assert d == [];
    }
  }

  /** A part at least one column wide, inside a sane window, gets a zoomed bitmap between one pixel and the zoomed width. */
  lemma PartWidthBounds(part: IntRect, window: IntRect, width: int, scale: real)
    requires 1 <= part.Width() <= window.Width() && width >= 0 && scale > 1.0
    requires window.Width() as real <= width as real / scale
    ensures 1 <= PartWidth(part, window, width) <= width
  {
    PartWidthPositive(part.Width(), window.Width(), width, scale);
    PartWidthsWithin(part.Width(), 0, window.Width(), width);
    assert ZoomedWidth(0, window.Width(), width) == 0;
  }

  /** Two parts side by side in the window get zoomed bitmaps no wider together than the zoomed width. */
  lemma PartWidthsSum(part1: IntRect, part2: IntRect, window: IntRect, width: int)
    requires 0 <= part1.Width() && 0 <= part2.Width() && part1.Width() + part2.Width() <= window.Width()
    requires window.Width() >= 1 && width >= 0
    ensures PartWidth(part1, window, width) + PartWidth(part2, window, width) <= width
  {
    PartWidthsWithin(part1.Width(), part2.Width(), window.Width(), width);
  }

  class PdfDoublePageState {
    /** The size `core1.getPageSize(pageToLoad)` reports, or None when there is no core 1. */
    const pageSize1: Option<Offset>
    /** The size `core2.getPageSize(pageToLoad)` reports, or None when there is no core 2. */
    const pageSize2: Option<Offset>
    /** `readerState.readerSize`. */
    const readerSize: IntSize
    /** `readerState.reverseLayout`. */
    const reverseLayout: bool
    const zoomState: ZoomStateV1.ZoomState
    var entireBitmap: Bitmap?
    var zoomedBitmap: Bitmap?
    var page1Rect: Option<IntRect>
    var page2Rect: Option<IntRect>

    /**
     * The spread layout: page 1 at the origin, page 2 right after it (or on
     * its own half), both with positive sides, and the entire bitmap as wide
     * as the spread.
     */
    predicate Valid()
      reads this
    {
      (page1Rect.Some? ==>
         page1Rect.value == IntRect(0, 0, page1Rect.value.right, page1Rect.value.bottom) &&
         page1Rect.value.right > 0 && page1Rect.value.bottom > 0) &&
      (page2Rect.Some? ==>
         page2Rect.value.top == 0 && page2Rect.value.bottom > 0 &&
         0 <= page2Rect.value.left < page2Rect.value.right &&
         (page1Rect.Some? ==> page2Rect.value.left == page1Rect.value.right) &&
         (page1Rect.None? ==> page2Rect.value.left == page2Rect.value.Width())) &&
      (entireBitmap != null ==>
        (page1Rect.Some? || page2Rect.Some?) &&
        entireBitmap.width == (if page2Rect.Some? then page2Rect.value.right else 2 * page1Rect.value.right))
    }

    /** `PdfDoublePageState(...)` with the default `ZoomState(maxScale = 600)`; nothing is loaded yet. */
    constructor (pageSize1: Option<Offset>, pageSize2: Option<Offset>, readerSize: IntSize, reverseLayout: bool)
      ensures Valid() && zoomState.Valid() && fresh(zoomState)
      ensures this.pageSize1 == pageSize1 && this.pageSize2 == pageSize2
      ensures this.readerSize == readerSize && this.reverseLayout == reverseLayout
      ensures entireBitmap == null && zoomedBitmap == null && page1Rect == None && page2Rect == None
    {
      this.pageSize1 := pageSize1;
      this.pageSize2 := pageSize2;
      this.readerSize := readerSize;
      this.reverseLayout := reverseLayout;
      zoomState := new ZoomStateV1.ZoomState(600.0, ZeroSize);
      entireBitmap := null;
      zoomedBitmap := null;
      page1Rect := None;
      page2Rect := None;
    }

    /**
     * `getPageBitmap(core1, core2)`: fit each present page, record its
     * rectangle, and merge the pages side by side. The exceptions come in
     * source order: the reader ratio, the page 1 bitmap, the page 2 bitmap,
     * and the missing pages.
     */
    method GetPageBitmap(first: Option<Offset>, second: Option<Offset>) returns (r: Result<Bitmap>, draws: seq<Placement>)
      requires PageSizeOk(first) && PageSizeOk(second)
      modifies this`page1Rect, this`page2Rect
      ensures ReaderAspectRatio(readerSize).Err? ==>
        r == Err(Arithmetic) && page1Rect == old(page1Rect) && page2Rect == old(page2Rect)
      ensures ReaderAspectRatio(readerSize).Ok? ==>
        var ratio := ReaderAspectRatio(readerSize).value;
        var fit1 := Fit(readerSize, ratio, first);
        var fit2 := Fit(readerSize, ratio, second);
        if fit1.Some? && !Positive(fit1.value) then
          r == Err(IllegalArgument) && page1Rect == old(page1Rect) && page2Rect == old(page2Rect)
        else
          page1Rect == (if fit1.Some? then Some(FirstPageRect(fit1.value)) else old(page1Rect)) &&
          if fit2.Some? && !Positive(fit2.value) then r == Err(IllegalArgument) && page2Rect == old(page2Rect)
          else
            page2Rect == (if fit2.Some? then Some(SecondPageRect(page1Rect, fit2.value)) else old(page2Rect)) &&
            (fit1.None? && fit2.None? ==> r == Err(IllegalState)) &&
            (fit1.Some? || fit2.Some? ==>
              var merged := MergedSize(fit1, fit2).value;
              r.Ok? && fresh(r.value) && r.value.width == merged.width && r.value.height == merged.height &&
              draws == SpreadDraws(fit1, fit2, merged))
    {
      draws := [];
      var ratioReader := ReaderAspectRatio(readerSize);
      if ratioReader.Err? {
        return Err(ratioReader.error), draws;
      }
      var fit1 := Fit(readerSize, ratioReader.value, first);
      var fit2 := Fit(readerSize, ratioReader.value, second);
      if fit1.Some? {
        var bitmap1 := CreateBitmap(fit1.value.width, fit1.value.height);
        if bitmap1.Err? {
          return Err(bitmap1.error), draws;
        }
        page1Rect := Some(FirstPageRect(fit1.value));
      }
      if fit2.Some? {
        var bitmap2 := CreateBitmap(fit2.value.width, fit2.value.height);
        if bitmap2.Err? {
          return Err(bitmap2.error), draws;
        }
        page2Rect := Some(SecondPageRect(page1Rect, fit2.value));
      }
      var bitmapSize := MergedSize(fit1, fit2);
      if bitmapSize.Err? {
        return Err(bitmapSize.error), draws;
      }
      var merged := bitmapSize.value;
      var finalBitmap := CreateBitmap(merged.width, merged.height);
      if finalBitmap.Err? {
        assert false;
      }
      draws := SpreadDraws(fit1, fit2, merged);
      return finalBitmap, draws;
    }

    /**
     * The job launched by `init`: the merged bitmap of the two pages, in
     * swapped order under `reverseLayout`, becomes the entire bitmap, and the
     * zoom state takes its size as content size and the reader as layout.
     * It runs once, on a freshly constructed state.
     */
    method Init() returns (r: Result<()>)
      requires Valid() && zoomState.Valid()
      requires entireBitmap == null && page1Rect == None && page2Rect == None
      requires PageSizeOk(pageSize1) && PageSizeOk(pageSize2)
      requires readerSize.width >= 0 && readerSize.height >= 0
      modifies this`entireBitmap, this`page1Rect, this`page2Rect
      modifies zoomState`contentSize, zoomState`layoutSize, zoomState`fitContentSize
      ensures Valid() && zoomState.Valid()
      ensures var first := if reverseLayout then pageSize2 else pageSize1;
        var second := if reverseLayout then pageSize1 else pageSize2;
        r.Ok? <==>
          ReaderAspectRatio(readerSize).Ok? &&
          var fit1 := Fit(readerSize, ReaderAspectRatio(readerSize).value, first);
          var fit2 := Fit(readerSize, ReaderAspectRatio(readerSize).value, second);
          (fit1.Some? ==> Positive(fit1.value)) && (fit2.Some? ==> Positive(fit2.value)) && (fit1.Some? || fit2.Some?)
      ensures r.Ok? ==>
        var first := if reverseLayout then pageSize2 else pageSize1;
        var second := if reverseLayout then pageSize1 else pageSize2;
        var ratio := ReaderAspectRatio(readerSize).value;
        var merged := MergedSize(Fit(readerSize, ratio, first), Fit(readerSize, ratio, second)).value;
        entireBitmap != null && fresh(entireBitmap) &&
        entireBitmap.width == merged.width && entireBitmap.height == merged.height &&
        zoomState.contentSize == Size(merged.width as real, merged.height as real) &&
        zoomState.layoutSize == Size(readerSize.width as real, readerSize.height as real)
      ensures r.Ok? ==>
        var first := if reverseLayout then pageSize2 else pageSize1;
        var second := if reverseLayout then pageSize1 else pageSize2;
        var ratio := ReaderAspectRatio(readerSize).value;
        var fit1 := Fit(readerSize, ratio, first);
        var fit2 := Fit(readerSize, ratio, second);
        page1Rect == (if fit1.Some? then Some(FirstPageRect(fit1.value)) else None) &&
        page2Rect == (if fit2.Some? then Some(SecondPageRect(page1Rect, fit2.value)) else None)
      ensures r.Err? ==>
        entireBitmap == null &&
        zoomState.contentSize == old(zoomState.contentSize) && zoomState.layoutSize == old(zoomState.layoutSize) &&
        zoomState.fitContentSize == old(zoomState.fitContentSize)
    {
      var first := if reverseLayout then pageSize2 else pageSize1;
      var second := if reverseLayout then pageSize1 else pageSize2;
      var bitmap, draws := GetPageBitmap(first, second);
      if bitmap.Err? {
        return Err(bitmap.error);
      }
      var ratio := ReaderAspectRatio(readerSize).value;
      var fit1 := Fit(readerSize, ratio, first);
      var fit2 := Fit(readerSize, ratio, second);
      SpreadFillsMergedBitmap(fit1, fit2);
      entireBitmap := bitmap.value;
      zoomState.SetContentSize(Size(bitmap.value.width as real, bitmap.value.height as real));
      zoomState.SetLayoutSize(Size(readerSize.width as real, readerSize.height as real));
      return Ok(());
    }

    /**
     * `refreshZoomedContent` up to the launch: nothing without an entire
     * bitmap, while the zoom is not settled, or at a scale of at most 1;
     * otherwise the request for the window the reader currently shows.
     */
    method RefreshZoomedContent() returns (req: Option<ZoomRequest>)
      requires zoomState.Valid()
      ensures req.None? <==> entireBitmap == null || !zoomState.IsSettled() || zoomState.scale.value <= 1.0
      ensures req.Some? ==>
        req.value == RequestFor(IntSize(entireBitmap.width, entireBitmap.height), readerSize, zoomState.scale.value,
                                zoomState.BoundsX() - zoomState.offsetX.value, zoomState.BoundsY() - zoomState.offsetY.value,
                                page1Rect, page2Rect)
    {
      if entireBitmap == null {
        return None;
      }
      if !zoomState.IsSettled() || zoomState.scale.value <= 1.0 {
        return None;
      }
      var scale := zoomState.scale.value;
      var posX := zoomState.BoundsX() - zoomState.offsetX.value;
      var posY := zoomState.BoundsY() - zoomState.offsetY.value;
      return Some(RequestFor(IntSize(entireBitmap.width, entireBitmap.height), readerSize, scale, posX, posY,
                             page1Rect, page2Rect));
    }

    /**
     * The job `refreshZoomedContent` launches, with the corrected page
     * shares: one part bitmap per page that has a core and a non-empty part,
     * each rendered with `drawPage` and placed side by side on a bitmap of the
     * zoomed size, which becomes the zoomed bitmap unless the job was
     * cancelled. A bitmap with a side that is not positive throws.
     */
    method CompleteZoomedContent(req: ZoomRequest, isActive: bool)
      returns (r: Result<Bitmap>, draws: seq<Placement>, renders: seq<PageRender>)
      requires Valid() && entireBitmap != null && WellFormed(req)
      requires req.page1Bounds.IsEmpty() || page1Rect.Some?
      requires req.page2Bounds.IsEmpty() || page2Rect.Some?
      modifies this`zoomedBitmap
      ensures var d1 := Draws(pageSize1.Some?, req.page1Bounds);
        var d2 := Draws(pageSize2.Some?, req.page2Bounds);
        r.Ok? <==>
          (d1 ==> PartWidth(req.page1Bounds, req.window, req.width) > 0) &&
          (d2 ==> PartWidth(req.page2Bounds, req.window, req.width) > 0) &&
          req.height > 0 && req.width > 0
      ensures r.Err? ==> r.error == IllegalArgument && zoomedBitmap == old(zoomedBitmap)
      ensures r.Ok? ==>
        fresh(r.value) && r.value.width == req.width && r.value.height == req.height &&
        draws == ZoomedDraws(req, pageSize1.Some?, pageSize2.Some?) &&
        renders ==
          (if Draws(pageSize1.Some?, req.page1Bounds) then [RenderOf(req, req.page1Bounds, page1Rect.value, entireBitmap.width)] else []) +
          (if Draws(pageSize2.Some?, req.page2Bounds) then [RenderOf(req, req.page2Bounds, page2Rect.value, entireBitmap.width)] else []) &&
        zoomedBitmap == (if isActive then r.value else old(zoomedBitmap))
    {
      draws, renders := [], [];
      var entireWidth := entireBitmap.width;
      assert entireWidth > 0;
      var width1 := 0;
      var has1 := Draws(pageSize1.Some?, req.page1Bounds);
      var has2 := Draws(pageSize2.Some?, req.page2Bounds);
      if has1 {
        width1 := PartWidth(req.page1Bounds, req.window, req.width);
        var bitmap1 := CreateBitmap(width1, req.height);
        if bitmap1.Err? {
          return Err(bitmap1.error), draws, renders;
        }
        renders := renders + [RenderOf(req, req.page1Bounds, page1Rect.value, entireWidth)];
      }
      var width2 := 0;
      if has2 {
        width2 := PartWidth(req.page2Bounds, req.window, req.width);
        var bitmap2 := CreateBitmap(width2, req.height);
        if bitmap2.Err? {
          return Err(bitmap2.error), draws, renders;
        }
        renders := renders + [RenderOf(req, req.page2Bounds, page2Rect.value, entireWidth)];
      }
      var finalBitmap := CreateBitmap(req.width, req.height);
      if finalBitmap.Err? {
        return Err(finalBitmap.error), draws, renders;
      }
      if has1 {
        draws := draws + [Placement(width1, req.height, 0, 0)];
      }
      if has2 {
        draws := draws + [Placement(width2, req.height, width1, 0)];
      }
      if isActive {
        zoomedBitmap := finalBitmap.value;
      }
      return finalBitmap, draws, renders;
    }

    /** `dispose`: both bitmaps are dropped (not recycled); the cores are left alone. */
    method Dispose()
      requires Valid()
      modifies this`entireBitmap, this`zoomedBitmap
      ensures Valid() && entireBitmap == null && zoomedBitmap == null
    {
      entireBitmap := null;
      zoomedBitmap := null;
    }
  }
}
