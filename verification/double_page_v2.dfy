// viewer/src/main/java/com/viewer/pdf/page/double/PdfDoublePageState.kt: the
// two-page spread of the later pager. Both pages are fitted into half of the
// reader, the right page is laid out after the left one, the two bitmaps and
// link lists are merged, and a zoom window over the spread is split into one
// part per page whose zoomed bitmaps are drawn side by side.
//
// MuPDF is reduced to what a core reports for its page (`getPageSize` and the
// links of `getPageLinks`); `drawPage` is recorded as a `PatchDraw` and drawing
// a bitmap on a canvas as a `Placement`. `readerState.getContentForCurrentLayout`
// is the `reverse` flag: it keeps the pair or swaps it.

module DoublePageStateV2 {
  import opened Common
  import opened Geometry
  import opened PageLayout
  import PageLinks
  import PageState
  import UnitConversions
  import ZoomStateV1

  /** What a core reports for the page it loads: its size and its links. */
  datatype CorePage = CorePage(size: Offset, links: seq<Link>)

  /** A core that is present reports a page with positive sides. */
  predicate CorePageOk(core: Option<CorePage>) {
    core.Some? ==> core.value.size.x > 0.0 && core.value.size.y > 0.0
  }

  /** `getContentForCurrentLayout(first, second)`: the (left, right) pair, swapped for a reversed layout. */
  function Arrange<T>(reverse: bool, first: T, second: T): (T, T) {
    if reverse then (second, first) else (first, second)
  }

  /** Half of the reader (`readerSize.width / 2`), which each page is fitted into. */
  function HalfReader(reader: IntSize): IntSize
    requires reader.width >= 0
  {
    IntSize(reader.width / 2, reader.height)
  }

  /**
   * `PdfPageContent` reduced to values: the size of the page bitmap, the
   * page's base links and its screen bounds.
   */
  datatype PageContent = PageContent(size: IntSize, links: seq<Link>, screenBounds: Rect)

  /**
   * `getPageContent`: the page fitted into half of the reader, rendered at
   * that size, its links scaled by bitmap height over page height, and its
   * screen bounds the bitmap's rectangle at the origin. Creating the bitmap
   * throws when a fitted side is not positive.
   */
  function GetPageContent(page: CorePage, ratio: int, reader: IntSize): (r: Result<PageContent>)
    requires reader.width >= 0 && page.size.x > 0.0 && page.size.y > 0.0
    ensures var fit := PageFit(HalfReader(reader), ratio, page.size);
      r.Err? <==> !Positive(fit)
    ensures r.Err? ==> r.error == IllegalArgument
    ensures r.Ok? ==>
      var c := r.value;
      Positive(c.size) && c.size == PageFit(HalfReader(reader), ratio, page.size) &&
      c.screenBounds == Rect(0.0, 0.0, c.size.width as real, c.size.height as real) &&
      c.links == PageLinks.ScaleLinks(page.links, c.size.height as real / page.size.y)
  {
    var fit := PageFit(HalfReader(reader), ratio, page.size);
    if !Positive(fit) then Err(IllegalArgument)
    else
      var bounds := IntRect(0, 0, fit.width, fit.height);
      Ok(PageContent(fit, PageLinks.ScaleLinks(page.links, fit.height as real / page.size.y), bounds.ToRect()))
  }

  /**
   * A page that is not relatively wider than half of the reader takes the
   * reader's full height and stays within half of the reader's width.
   */
  lemma {:induction false} NarrowPageFitsHalf(page: CorePage, reader: IntSize)
    requires reader.width >= 0 && reader.height > 0 && page.size.x > 0.0 && page.size.y > 0.0
    requires !(AspectRatio(HalfReader(reader)).value as real < page.size.x / page.size.y)
    ensures var r := GetPageContent(page, AspectRatio(HalfReader(reader)).value, reader);
      r.Ok? ==> r.value.size.height == reader.height && r.value.size.width <= reader.width / 2
  {
    NarrowPageFitsReader(HalfReader(reader), page.size);
  }

  /** A loaded page: a bitmap with positive sides whose screen bounds are its rectangle at the origin. */
  predicate Shaped(c: Option<PageContent>) {
    c.Some? ==>
      Positive(c.value.size) &&
      c.value.screenBounds == Rect(0.0, 0.0, c.value.size.width as real, c.value.size.height as real)
  }

  /** The job of one core: no content without a core, otherwise its page content. */
  function LoadContent(core: Option<CorePage>, ratio: int, reader: IntSize): (r: Result<Option<PageContent>>)
    requires CorePageOk(core) && reader.width >= 0
    ensures r.Ok? ==> (r.value.Some? <==> core.Some?)
    ensures r.Ok? ==> Shaped(r.value)
    ensures r.Ok? && core.Some? ==> Ok(r.value.value) == GetPageContent(core.value, ratio, reader)
    ensures r.Err? ==> core.Some? && GetPageContent(core.value, ratio, reader).Err? &&
                       r.error == GetPageContent(core.value, ratio, reader).error
  {
    if core.None? then Ok(None)
    else
      match GetPageContent(core.value, ratio, reader)
      case Err(e) => Err(e)
      case Ok(c) => Ok(Some(c))
  }

  /**
   * `rightPageOffset`: the width of the left page's screen bounds, or of the
   * right page's when there is no left page; with neither it throws
   * `IllegalStateException`.
   */
  function RightPageOffset(left: Option<PageContent>, right: Option<PageContent>): (r: Result<real>)
    ensures r.Err? <==> left.None? && right.None?
    ensures r.Err? ==> r.error == IllegalState
    ensures r.Ok? ==>
      var c := if left.Some? then left.value else right.value;
      r.value == c.screenBounds.right - c.screenBounds.left
  {
    if left.Some? then Ok(left.value.screenBounds.Width())
    else if right.Some? then Ok(right.value.screenBounds.Width())
    else Err(IllegalState)
  }

  /**
   * The right page's links shifted across by `dx`: each keeps its uri, and
   * contains a point exactly when the unshifted link contains the point
   * shifted back.
   */
  function TranslateLinks(links: seq<Link>, dx: real): (r: seq<Link>)
    ensures |r| == |links|
    ensures forall i :: 0 <= i < |links| ==> r[i].uri == links[i].uri && r[i].bounds == links[i].bounds.Translate(dx, 0.0)
    ensures forall i, p :: 0 <= i < |links| ==> (r[i].bounds.Contains(p) <==> links[i].bounds.Contains(Offset(p.x - dx, p.y)))
  {
    if links == [] then []
    else [Link(links[0].bounds.Translate(dx, 0.0), links[0].uri)] + TranslateLinks(links[1..], dx)
  }

  /** The links of a page content, none without a page. */
  function LinksOf(c: Option<PageContent>): seq<Link> {
    if c.Some? then c.value.links else []
  }

  /** The bitmap size of a page content, if any. */
  function SizeOf(c: Option<PageContent>): Option<IntSize> {
    if c.Some? then Some(c.value.size) else None
  }

  /**
   * The merged links: every left link in order, then every right link in
   * order shifted by `dx`; nothing is dropped or added.
   */
  function MergeLinks(left: seq<Link>, right: seq<Link>, dx: real): (merged: seq<Link>)
    ensures |merged| == |left| + |right|
    ensures merged[..|left|] == left
    ensures merged[|left|..] == TranslateLinks(right, dx)
  {
    var shifted := TranslateLinks(right, dx);
    assert (left + shifted)[..|left|] == left;
    assert (left + shifted)[|left|..] == shifted;
    left + shifted
  }

  /**
   * The canvas draws of the merged bitmap: the left bitmap at the origin and
   * the right one at `offset`.
   */
  function SpreadDraws(left: Option<IntSize>, right: Option<IntSize>, offset: int): seq<Placement> {
    (if left.Some? then [Placement(left.value.width, left.value.height, 0, 0)] else []) +
    (if right.Some? then [Placement(right.value.width, right.value.height, offset, 0)] else [])
  }

  /** What `getDoublePageContent` produces: the merged bitmap's size and links, and the page rectangles. */
  datatype DoubleContent = DoubleContent(
    size: IntSize, links: seq<Link>, leftRect: Option<Rect>, rightRect: Option<Rect>, draws: seq<Placement>)

  /**
   * `getDoublePageContent` as a value. The reader ratio throws for a reader
   * of height 0, a page whose fitted side is not positive throws, and no
   * page at all throws `IllegalStateException`.
   */
  function DoublePageContent(first: Option<CorePage>, second: Option<CorePage>, reverse: bool, reader: IntSize): (r: Result<DoubleContent>)
    requires CorePageOk(first) && CorePageOk(second) && reader.width >= 0
  {
    var ratio := AspectRatio(HalfReader(reader));
    if ratio.Err? then Err(ratio.error)
    else
      var c1 := LoadContent(first, ratio.value, reader);
      var c2 := LoadContent(second, ratio.value, reader);
      if c1.Err? then Err(c1.error)
      else if c2.Err? then Err(c2.error)
      else
        var pair := Arrange(reverse, c1.value, c2.value);
        Assemble(pair.0, pair.1)
  }

  /**
   * The spread made of the arranged pages: the right page is laid out after
   * the left one, the links are merged and both bitmaps drawn; with neither
   * page it throws `IllegalStateException`.
   */
  function Assemble(left: Option<PageContent>, right: Option<PageContent>): (r: Result<DoubleContent>)
    requires Shaped(left) && Shaped(right)
  {
    var offset := RightPageOffset(left, right);
    if offset.Err? then Err(offset.error)
    else
      var leftRect := if left.Some? then Some(left.value.screenBounds) else None;
      var rightRect := if right.Some? then Some(right.value.screenBounds.Translate(offset.value, 0.0)) else None;
      MergedSizePositive(SizeOf(left), SizeOf(right));
      var size := MergedSize(SizeOf(left), SizeOf(right)).value;
      Ok(DoubleContent(size, MergeLinks(LinksOf(left), LinksOf(right), offset.value), leftRect, rightRect,
                       SpreadDraws(SizeOf(left), SizeOf(right), offset.value.Floor)))
  }

  /**
   * The layout of two arranged pages. Without a page at all it throws;
   * otherwise the merged bitmap has positive sides and both draws lie inside
   * it without overlapping; the left page sits at the origin and the right
   * page starts exactly where the left one ends, or, alone, one page width
   * in; no link is lost or added.
   */
  lemma {:induction false} AssembleLayout(left: Option<PageContent>, right: Option<PageContent>)
    requires Shaped(left) && Shaped(right)
    ensures var r := Assemble(left, right);
      (r.Err? <==> left.None? && right.None?) &&
      (r.Err? ==> r.error == IllegalState) &&
      (r.Ok? ==>
        var c := r.value;
        Positive(c.size) &&
        (forall d :: d in c.draws ==> Inside(d, c.size)) &&
        (|c.draws| == 2 ==> c.draws[0].x + c.draws[0].width <= c.draws[1].x) &&
        (c.leftRect.Some? ==> c.leftRect.value.left == 0.0 && c.leftRect.value.top == 0.0) &&
        (c.leftRect.Some? && c.rightRect.Some? ==> c.rightRect.value.left == c.leftRect.value.right) &&
        (c.leftRect.None? ==> c.rightRect.Some? && c.rightRect.value.left == c.rightRect.value.right - c.rightRect.value.left) &&
        (c.rightRect.Some? ==> c.rightRect.value.top == 0.0) &&
        |c.links| == |LinksOf(left)| + |LinksOf(right)|)
  {
    if left.Some? || right.Some? {
      MergedSizePositive(SizeOf(left), SizeOf(right));
      var c := if left.Some? then left.value else right.value;
      assert RightPageOffset(left, right).value == c.size.width as real;
      assert (c.size.width as real).Floor == c.size.width;
    }
  }

  /**
   * The layout of the spread. Without a failure: the merged bitmap has
   * positive sides and both draws lie inside it without overlapping; the
   * left page sits at the origin and the right page starts exactly where the
   * left one ends, or, alone, one page width in; the link count is the sum
   * of the two pages' counts. The failures: a reader of height 0, no page at
   * all, or a page whose fitted side is not positive.
   */
  lemma {:induction false} DoublePageLayout(first: Option<CorePage>, second: Option<CorePage>, reverse: bool, reader: IntSize)
    requires CorePageOk(first) && CorePageOk(second) && reader.width >= 0
    ensures var r := DoublePageContent(first, second, reverse, reader);
      (reader.height == 0 ==> r == Err(Arithmetic)) &&
      (reader.height != 0 && first.None? && second.None? ==> r == Err(IllegalState)) &&
      (r.Err? ==> r.error in {Arithmetic, IllegalState, IllegalArgument}) &&
      (r.Ok? ==>
        var c := r.value;
        Positive(c.size) &&
        (forall d :: d in c.draws ==> Inside(d, c.size)) &&
        (|c.draws| == 2 ==> c.draws[0].x + c.draws[0].width <= c.draws[1].x) &&
        (c.leftRect.Some? ==> c.leftRect.value.left == 0.0 && c.leftRect.value.top == 0.0) &&
        (c.leftRect.Some? && c.rightRect.Some? ==> c.rightRect.value.left == c.leftRect.value.right) &&
        (c.leftRect.None? ==> c.rightRect.Some? && c.rightRect.value.left == c.rightRect.value.right - c.rightRect.value.left) &&
        (c.rightRect.Some? ==> c.rightRect.value.top == 0.0) &&
        |c.links| == |if first.Some? then first.value.links else []| + |if second.Some? then second.value.links else []|)
  {
    if reader.height != 0 {
      var ratio := AspectRatio(HalfReader(reader)).value;
      var c1 := LoadContent(first, ratio, reader);
      var c2 := LoadContent(second, ratio, reader);
      if c1.Ok? && c2.Ok? {
        assert |LinksOf(c1.value)| == |if first.Some? then first.value.links else []|;
        assert |LinksOf(c2.value)| == |if second.Some? then second.value.links else []|;
        var pair := Arrange(reverse, c1.value, c2.value);
        AssembleLayout(pair.0, pair.1);
      }
    }
  }

  /** Merging pages with positive sides gives a bitmap with positive sides. */
  lemma MergedSizePositive(left: Option<IntSize>, right: Option<IntSize>)
    requires left.Some? || right.Some?
    requires (left.Some? ==> Positive(left.value)) && (right.Some? ==> Positive(right.value))
    ensures MergedSize(left, right).Ok? && Positive(MergedSize(left, right).value)
  {
  }

  /** The rectangle a page is scaled to, rounded outward to whole pixels. */
  function ScaledPageRect(r: Rect, scale: real): (s: IntRect)
    ensures s.right == Ceil(r.right * scale) && s.left == Floor(r.left * scale)
  {
    UnitConversions.ToIntRectOfScale(r, scale);
    UnitConversions.ToIntRect(UnitConversions.Scale(r, scale))
  }

  /**
   * The left part of `getPagesBounds`: the window clipped at the scaled left
   * page's right edge `edge`, in the spread's pixels; the zero rectangle when
   * the window lies wholly right of that edge.
   */
  function LeftPart(window: IntRect, edge: int): (p: IntRect)
    ensures window.left < edge ==>
      forall x, y :: p.ContainsPixel(x, y) <==> window.ContainsPixel(x, y) && x < edge
    ensures !(window.left < edge) ==>
      p == ZeroRect && forall x, y :: window.ContainsPixel(x, y) ==> x >= edge
  {
    if window.left < edge then IntRect(window.left, window.top, Min(window.right, edge), window.bottom)
    else ZeroRect
  }

  /**
   * The right part of `getPagesBounds`: the window from the scaled right
   * page's left edge `edge` on, in the right page's own pixels; the zero
   * rectangle when the window lies wholly left of that edge.
   */
  function RightPart(window: IntRect, edge: int): (p: IntRect)
    ensures window.right > edge ==>
      forall x, y :: p.ContainsPixel(x, y) <==> window.ContainsPixel(x + edge, y) && x >= 0
    ensures !(window.right > edge) ==>
      p == ZeroRect && forall x, y :: window.ContainsPixel(x, y) ==> x < edge
  {
    if window.right > edge then
      IntRect(Max(window.left, edge) - edge, window.top, window.right - edge, window.bottom)
    else ZeroRect
  }

  /**
   * `getPagesBounds(scaledContentBounds, scale)`: the part of the window on
   * each scaled page; the zero rectangle for a page that is missing or not
   * under the window.
   */
  function GetPagesBounds(window: IntRect, scale: real, leftRect: Option<Rect>, rightRect: Option<Rect>): (parts: (IntRect, IntRect))
    ensures forall x, y :: parts.0.ContainsPixel(x, y) <==>
      leftRect.Some? && window.ContainsPixel(x, y) && x < ScaledPageRect(leftRect.value, scale).right
    ensures forall x, y :: parts.1.ContainsPixel(x, y) <==>
      rightRect.Some? && window.ContainsPixel(x + ScaledPageRect(rightRect.value, scale).left, y) && x >= 0
  {
    (if leftRect.Some? then LeftPart(window, ScaledPageRect(leftRect.value, scale).right) else ZeroRect,
     if rightRect.Some? then RightPart(window, ScaledPageRect(rightRect.value, scale).left) else ZeroRect)
  }

  /**
   * When the right page starts where the left one ends, every window pixel
   * is in the left part or, shifted to the right page's pixels, in the
   * right part: the two parts tile the window.
   */
  lemma {:induction false} PartsCoverWindow(window: IntRect, scale: real, leftRect: Rect, rightRect: Rect)
    requires scale >= 0.0 && rightRect.left == leftRect.right
    ensures var parts := GetPagesBounds(window, scale, Some(leftRect), Some(rightRect));
      var f := ScaledPageRect(rightRect, scale).left;
      forall x, y :: window.ContainsPixel(x, y) ==> parts.0.ContainsPixel(x, y) || parts.1.ContainsPixel(x - f, y)
  {
    var c := ScaledPageRect(leftRect, scale).right;
    var f := ScaledPageRect(rightRect, scale).left;
    assert f <= c;
    var parts := GetPagesBounds(window, scale, Some(leftRect), Some(rightRect));
    forall x, y | window.ContainsPixel(x, y)
      ensures parts.0.ContainsPixel(x, y) || parts.1.ContainsPixel(x - f, y)
    {
      if x >= c {
        assert window.ContainsPixel((x - f) + f, y);
      }
    }
  }

  /**
   * Where the right page's zoomed bitmap is drawn, AS WRITTEN: one column
   * left of the end of the left bitmap when the two bitmaps are together
   * wider than the content, at its end otherwise, and flush right when
   * there is no left bitmap.
   */
  function StartXAsWritten(leftWidth: Option<int>, rightWidth: int, contentWidth: int): int {
    if leftWidth.Some? then
      if leftWidth.value + rightWidth > contentWidth then leftWidth.value - 1 else leftWidth.value
    else contentWidth - rightWidth
  }

  /**
   * Where the right page's zoomed bitmap is drawn: one column left of the end
   * of the left bitmap exactly when the two scaled pages share a column
   * (`sharedColumn`), at its end otherwise, and flush right when there is no
   * left bitmap.
   */
  function StartX(leftWidth: Option<int>, rightWidth: int, contentWidth: int, sharedColumn: bool): int {
    if leftWidth.Some? then
      if sharedColumn then leftWidth.value - 1 else leftWidth.value
    else contentWidth - rightWidth
  }

  /**
   * What `refreshZoomedContent` computes before launching its job: the scale,
   * the scaled spread, the zoomed content size, the window over the scaled
   * spread, its part on each page, and whether the scaled pages share a
   * column.
   */
  datatype SpreadRequest = SpreadRequest(
    scale: real, scaled: IntSize, content: IntSize, window: IntRect,
    leftBounds: IntRect, rightBounds: IntRect, sharedColumn: bool)

  /** The request built once the guard has passed. */
  function SpreadRequestFor(entire: IntSize, reader: IntSize, scale: real, contentX: real, contentY: real,
                            leftRect: Option<Rect>, rightRect: Option<Rect>): (req: SpreadRequest)
    ensures req.scaled == ScaledSize(entire, scale) && req.content == ContentSize(req.scaled, reader)
    ensures Positive(entire) && Positive(reader) && scale > 1.0 ==> Positive(req.content)
    ensures req.window == UnitConversions.ToIntRect(
      Rect(contentX, contentY, contentX + req.content.width as real, contentY + req.content.height as real))
    ensures (req.leftBounds, req.rightBounds) == GetPagesBounds(req.window, scale, leftRect, rightRect)
    ensures req.sharedColumn <==> (leftRect.Some? && rightRect.Some? &&
      ScaledPageRect(rightRect.value, scale).left < ScaledPageRect(leftRect.value, scale).right)
  {
    var scaled := ScaledSize(entire, scale);
    var content := ContentSize(scaled, reader);
    assert Positive(entire) && Positive(reader) && scale > 1.0 ==> Positive(content) by {
      if Positive(entire) && Positive(reader) && scale > 1.0 {
        ZoomedContentPositive(entire, reader, scale);
      }
    }
    var window := UnitConversions.ToIntRect(
      Rect(contentX, contentY, contentX + content.width as real, contentY + content.height as real));
    var parts := GetPagesBounds(window, scale, leftRect, rightRect);
    var shared := leftRect.Some? && rightRect.Some? &&
                  ScaledPageRect(rightRect.value, scale).left < ScaledPageRect(leftRect.value, scale).right;
    SpreadRequest(scale, scaled, content, window, parts.0, parts.1, shared)
  }

  /**
   * The window over the scaled spread is the content size wide, or one
   * column wider when the pan position is not a whole number.
   */
  lemma WindowWidth(contentX: real, contentY: real, width: int, height: int)
    ensures var w := UnitConversions.ToIntRect(Rect(contentX, contentY, contentX + width as real, contentY + height as real));
      width <= w.right - w.left <= width + 1
  {
  }

  /**
   * With both pages laid out side by side and the window on both of them,
   * the right page's zoomed bitmap lands exactly on its own column of the
   * window, overlaps the left bitmap by at most the column they share, and
   * reaches the end of the content: the content is covered without a gap.
   */
  lemma {:induction false} ZoomedSpreadAligned(entire: IntSize, reader: IntSize, scale: real, contentX: real, contentY: real,
                                               leftRect: Rect, rightRect: Rect)
    requires scale >= 0.0 && rightRect.left == leftRect.right
    ensures var req := SpreadRequestFor(entire, reader, scale, contentX, contentY, Some(leftRect), Some(rightRect));
      var l := req.leftBounds;
      var r := req.rightBounds;
      !l.IsEmpty() && !r.IsEmpty() ==>
        var x := StartX(Some(l.Width()), r.Width(), req.content.width, req.sharedColumn);
        x == ScaledPageRect(rightRect, scale).left - req.window.left &&
        l.Width() - 1 <= x <= l.Width() &&
        x + r.Width() >= req.content.width
  {
    var req := SpreadRequestFor(entire, reader, scale, contentX, contentY, Some(leftRect), Some(rightRect));
    var w := req.window;
    var c := ScaledPageRect(leftRect, scale).right;
    var f := ScaledPageRect(rightRect, scale).left;
    assert req.content.width <= w.right - w.left <= req.content.width + 1 by {
      WindowWidth(contentX, contentY, req.content.width, req.content.height);
    }
    assert f <= c <= f + 1 by {
      AdjacentScaledEdges(leftRect, rightRect, scale);
    }
    assert req.leftBounds == LeftPart(w, c) && req.rightBounds == RightPart(w, f) && req.sharedColumn == (f < c);
    StartXOnRightPage(w, f, c, req.content.width, req.sharedColumn);
  }

  /**
   * Two pages that meet, scaled and rounded outward: the right page starts
   * in the column where the left one ends, or in the column after it.
   */
  lemma AdjacentScaledEdges(leftRect: Rect, rightRect: Rect, scale: real)
    requires rightRect.left == leftRect.right
    ensures ScaledPageRect(rightRect, scale).left <= ScaledPageRect(leftRect, scale).right <= ScaledPageRect(rightRect, scale).left + 1
  {
    var x := leftRect.right * scale;
    assert Floor(x) <= Ceil(x) <= Floor(x) + 1;
  }

  /**
   * The column arithmetic behind `ZoomedSpreadAligned`: a window of `width`
   * or `width + 1` columns over a left page ending at column `c` and a right
   * page starting at column `f`, at most one column apart.
   */
  lemma StartXOnRightPage(window: IntRect, f: int, c: int, width: int, shared: bool)
    requires width <= window.right - window.left <= width + 1 && f <= c <= f + 1 && shared == (f < c)
    ensures var l := LeftPart(window, c);
      var r := RightPart(window, f);
      !l.IsEmpty() && !r.IsEmpty() ==>
        var x := StartX(Some(l.Width()), r.Width(), width, shared);
        x == f - window.left && l.Width() - 1 <= x <= l.Width() && x + r.Width() >= width
  {
  }

  /**
   * The right page as written: with a window over the spread of two 100-wide
   * pages zoomed twice, starting half a pixel into column 150 and 100 wide,
   * the scaled pages share no column (both edges at 200), yet the right
   * bitmap is drawn at column 49 instead of 50, over the left bitmap's last
   * column.
   */
  lemma RightPageMisdrawn()
    ensures var req := SpreadRequestFor(IntSize(200, 100), IntSize(100, 200), 2.0, 150.5, 0.0,
                                        Some(Rect(0.0, 0.0, 100.0, 100.0)), Some(Rect(100.0, 0.0, 200.0, 100.0)));
      req.window == IntRect(150, 0, 251, 200) && !req.sharedColumn &&
      req.leftBounds == IntRect(150, 0, 200, 200) && req.rightBounds == IntRect(0, 0, 51, 200) &&
      StartXAsWritten(Some(50), 51, req.content.width) == 49 &&
      StartX(Some(50), 51, req.content.width, req.sharedColumn) == 50 &&
      ScaledPageRect(Rect(100.0, 0.0, 200.0, 100.0), 2.0).left - req.window.left == 50
  {
    var leftRect := Rect(0.0, 0.0, 100.0, 100.0);
    var rightRect := Rect(100.0, 0.0, 200.0, 100.0);
    var req := SpreadRequestFor(IntSize(200, 100), IntSize(100, 200), 2.0, 150.5, 0.0, Some(leftRect), Some(rightRect));
    assert Trunc(200.0 * 2.0) == 400 && Trunc(100.0 * 2.0) == 200;
    assert req.content == IntSize(100, 200);
    assert Floor(150.5) == 150 && Floor(0.0) == 0 && Ceil(250.5) == 251 && Ceil(200.0) == 200;
    assert req.window == IntRect(150, 0, 251, 200);
    assert Ceil(100.0 * 2.0) == 200 && Floor(100.0 * 2.0) == 200;
    assert ScaledPageRect(leftRect, 2.0).right == 200;
    assert ScaledPageRect(rightRect, 2.0).left == 200;
  }

  /**
   * The as-written rule agrees with `StartX` except in one case: the window
   * is one column wider than the content (a pan position that is not a whole
   * number) while the scaled pages share no column; there it draws the right
   * page one column too far left.
   */
  lemma StartXAsWrittenOffByOne(window: IntRect, f: int, c: int, width: int, shared: bool)
    requires width <= window.right - window.left <= width + 1 && f <= c <= f + 1 && shared == (f < c)
    ensures var l := LeftPart(window, c);
      var r := RightPart(window, f);
      !l.IsEmpty() && !r.IsEmpty() ==>
        var asWritten := StartXAsWritten(Some(l.Width()), r.Width(), width);
        var x := StartX(Some(l.Width()), r.Width(), width, shared);
        if !shared && window.right - window.left == width + 1 then asWritten == x - 1 else asWritten == x
  {
  }

  /** The draws and page renders of the zoomed job. */
  datatype ZoomedSpread = ZoomedSpread(patches: seq<PatchDraw>, draws: seq<Placement>)

  /**
   * What the zoomed job draws when the content can be created: each page
   * that has a core and a non-empty part is rendered at the scaled height
   * into a bitmap of its part's width and the content height; the left one
   * is drawn at the origin, the right one at `StartX`.
   */
  function ZoomedSpreadFor(req: SpreadRequest, hasLeft: bool, hasRight: bool): ZoomedSpread {
    var drawLeft := hasLeft && !req.leftBounds.IsEmpty();
    var drawRight := hasRight && !req.rightBounds.IsEmpty();
    var leftWidth := if drawLeft then Some(req.leftBounds.Width()) else None;
    ZoomedSpread(
      (if drawLeft then [PatchDraw(req.leftBounds, req.scaled.height)] else []) +
      (if drawRight then [PatchDraw(req.rightBounds, req.scaled.height)] else []),
      (if drawLeft then [Placement(req.leftBounds.Width(), req.content.height, 0, 0)] else []) +
      (if drawRight then [Placement(req.rightBounds.Width(), req.content.height,
                                    StartX(leftWidth, req.rightBounds.Width(), req.content.width, req.sharedColumn), 0)]
       else []))
  }

  class PdfDoublePageState {
    const page: PageState.PdfPageState
    /** What `core1` and `core2` report for their pages; `None` for a missing core. */
    const core1: Option<CorePage>
    const core2: Option<CorePage>
    /** `readerState.readerSize`. */
    const readerSize: IntSize
    /** Whether `getContentForCurrentLayout` swaps the pair. */
    const reverse: bool
    var leftPageRect: Option<Rect>
    var rightPageRect: Option<Rect>

    predicate Valid()
      reads this, page, page.zoomState
    {
      page.zoomState.Valid() && CorePageOk(core1) && CorePageOk(core2) &&
      readerSize.width >= 0 && readerSize.height >= 0 &&
      (page.entireBitmap != null ==> page.entireBitmap.width > 0 && page.entireBitmap.height > 0)
    }

    /** `PdfDoublePageState(...)` with the default `ZoomState(maxScale = 6)`; nothing is loaded yet. */
    constructor (core1: Option<CorePage>, core2: Option<CorePage>, readerSize: IntSize, reverse: bool)
      requires CorePageOk(core1) && CorePageOk(core2) && readerSize.width >= 0 && readerSize.height >= 0
      ensures Valid() && fresh(page) && fresh(page.zoomState)
      ensures this.core1 == core1 && this.core2 == core2 && this.readerSize == readerSize && this.reverse == reverse
      ensures page.entireBitmap == null && page.links == null && page.zoomedBitmap == null
      ensures leftPageRect == None && rightPageRect == None
    {
      var zoomState := new ZoomStateV1.ZoomState(6.0, ZeroSize);
      page := new PageState.PdfPageState(zoomState);
      this.core1 := core1;
      this.core2 := core2;
      this.readerSize := readerSize;
      this.reverse := reverse;
      leftPageRect := None;
      rightPageRect := None;
    }

    /**
     * `getDoublePageContent`: the pages are loaded and arranged, the right
     * one laid out after the left one, the page rectangles recorded, and the
     * merged bitmap created with both pages drawn on it. The rectangles are
     * recorded only once the layout is known.
     */
    method GetDoublePageContent() returns (r: Result<Bitmap>, links: seq<Link>, draws: seq<Placement>)
      requires Valid()
      modifies this`leftPageRect, this`rightPageRect
      ensures var c := DoublePageContent(core1, core2, reverse, readerSize);
        (c.Err? ==> r == Err(c.error) && leftPageRect == old(leftPageRect) && rightPageRect == old(rightPageRect)) &&
        (c.Ok? ==> r.Ok? && fresh(r.value) && !r.value.recycled && r.value.width > 0 && r.value.height > 0 &&
                   r.value.width == c.value.size.width && r.value.height == c.value.size.height &&
                   links == c.value.links && draws == c.value.draws &&
                   leftPageRect == c.value.leftRect && rightPageRect == c.value.rightRect)
    {
      var ratio := AspectRatio(HalfReader(readerSize));
      if ratio.Err? {
        return Err(ratio.error), [], [];
      }
      var job1 := LoadContent(core1, ratio.value, readerSize);
      var job2 := LoadContent(core2, ratio.value, readerSize);
      if job1.Err? {
        return Err(job1.error), [], [];
      }
      if job2.Err? {
        return Err(job2.error), [], [];
      }
      var pair := Arrange(reverse, job1.value, job2.value);
      var leftContent := pair.0;
      var rightContent := pair.1;
      var rightPageOffset := RightPageOffset(leftContent, rightContent);
      if rightPageOffset.Err? {
        return Err(rightPageOffset.error), [], [];
      }
      var offset := rightPageOffset.value;
      if rightContent.Some? {
        var shifted := rightContent.value.(screenBounds := rightContent.value.screenBounds.Translate(offset, 0.0));
        rightContent := Some(shifted);
      }
      leftPageRect := if leftContent.Some? then Some(leftContent.value.screenBounds) else None;
      rightPageRect := if rightContent.Some? then Some(rightContent.value.screenBounds) else None;
      var bitmapSize := MergedSize(SizeOf(leftContent), SizeOf(rightContent)).value;
      MergedSizePositive(SizeOf(leftContent), SizeOf(rightContent));
      var mergedBitmap := CreateBitmap(bitmapSize.width, bitmapSize.height);
      assert mergedBitmap.Ok?;
      draws := SpreadDraws(SizeOf(leftContent), SizeOf(rightContent), offset.Floor);
      links := MergeLinks(LinksOf(leftContent), LinksOf(rightContent), offset);
      r := Ok(mergedBitmap.value);
    }

    /**
     * The job `init` launches: the merged bitmap becomes the entire bitmap and
     * the merged links the page links, and the zoom state takes the bitmap as
     * content and the reader as layout.
     */
    method Init() returns (r: Result<()>)
      requires Valid()
      modifies this`leftPageRect, this`rightPageRect, page`entireBitmap, page`links
      modifies page.zoomState`contentSize, page.zoomState`layoutSize, page.zoomState`fitContentSize
      ensures Valid()
      ensures var c := DoublePageContent(core1, core2, reverse, readerSize);
        (c.Err? ==> r == Err(c.error) && page.entireBitmap == old(page.entireBitmap) && page.links == old(page.links) &&
                    leftPageRect == old(leftPageRect) && rightPageRect == old(rightPageRect) &&
                    page.zoomState.contentSize == old(page.zoomState.contentSize) &&
                    page.zoomState.layoutSize == old(page.zoomState.layoutSize) &&
                    page.zoomState.fitContentSize == old(page.zoomState.fitContentSize)) &&
        (c.Ok? ==> r.Ok? &&
                   page.entireBitmap != null && fresh(page.entireBitmap) &&
                   page.entireBitmap.width == c.value.size.width && page.entireBitmap.height == c.value.size.height &&
                   page.links != null && fresh(page.links) &&
                   page.links.baseLinks == c.value.links && page.links.scaledLinks == None &&
                   leftPageRect == c.value.leftRect && rightPageRect == c.value.rightRect &&
                   page.zoomState.contentSize == Size(c.value.size.width as real, c.value.size.height as real) &&
                   page.zoomState.layoutSize == Size(readerSize.width as real, readerSize.height as real))
    {
      var content, links, draws := GetDoublePageContent();
      if content.Err? {
        return Err(content.error);
      }
      ShowContent(content.value, links);
      r := Ok(());
    }

    /**
     * The end of the job `init` launches: the merged bitmap becomes the
     * entire bitmap and fresh page links hold the merged links; the zoom
     * state takes the bitmap as content and the reader as layout.
     */
    method ShowContent(bitmap: Bitmap, links: seq<Link>)
      requires Valid() && bitmap.width > 0 && bitmap.height > 0
      modifies page`entireBitmap, page`links
      modifies page.zoomState`contentSize, page.zoomState`layoutSize, page.zoomState`fitContentSize
      ensures Valid()
      ensures page.entireBitmap == bitmap
      ensures page.links != null && fresh(page.links) && page.links.baseLinks == links && page.links.scaledLinks == None
      ensures page.zoomState.contentSize == Size(bitmap.width as real, bitmap.height as real)
      ensures page.zoomState.layoutSize == Size(readerSize.width as real, readerSize.height as real)
    {
      var pageLinks := new PageLinks.PdfPageLinks(links);
      page.entireBitmap := bitmap;
      page.links := pageLinks;
      page.zoomState.SetContentSize(Size(bitmap.width as real, bitmap.height as real));
      page.zoomState.SetLayoutSize(Size(readerSize.width as real, readerSize.height as real));
    }

    /**
     * `refreshZoomedContent` up to the launch: nothing without an entire
     * bitmap, while the zoom is not settled, or at a scale of at most 1;
     * otherwise the request for the window the reader shows over the zoomed
     * spread.
     */
    method RefreshZoomedContent() returns (req: Option<SpreadRequest>)
      requires Valid()
      ensures req.None? <==>
        page.entireBitmap == null || !page.zoomState.IsSettled() || page.zoomState.scale.value <= 1.0
      ensures req.Some? ==>
        var zs := page.zoomState;
        req.value == SpreadRequestFor(IntSize(page.entireBitmap.width, page.entireBitmap.height), readerSize,
                                      zs.scale.value, zs.BoundsX() - zs.offsetX.value, zs.BoundsY() - zs.offsetY.value,
                                      leftPageRect, rightPageRect)
    {
      var entireBitmap := page.entireBitmap;
      if entireBitmap == null {
        return None;
      }
      var zs := page.zoomState;
      if !zs.IsSettled() || zs.scale.value <= 1.0 {
        return None;
      }
      var scale := zs.scale.value;
      var contentX := zs.BoundsX() - zs.offsetX.value;
      var contentY := zs.BoundsY() - zs.offsetY.value;
      return Some(SpreadRequestFor(IntSize(entireBitmap.width, entireBitmap.height), readerSize, scale,
                                   contentX, contentY, leftPageRect, rightPageRect));
    }

    /**
     * The job `refreshZoomedContent` launches: each page with a core and a
     * non-empty part is rendered into its own bitmap, both are drawn into a
     * bitmap of the content size, the links are scaled by the zoom, and the
     * result is shown unless the job was cancelled. Creating a bitmap throws
     * exactly when the content size is not positive.
     */
    method CompleteZoomedContent(req: SpreadRequest, isActive: bool) returns (r: Result<ZoomedSpread>)
      requires Valid()
      modifies page.links, page`zoomedBitmap
      ensures Valid()
      ensures r.Err? <==> !Positive(req.content)
      ensures r.Err? ==> r.error == IllegalArgument && page.zoomedBitmap == old(page.zoomedBitmap)
      ensures r.Ok? ==>
        var pair := Arrange(reverse, core1, core2);
        r.value == ZoomedSpreadFor(req, pair.0.Some?, pair.1.Some?) &&
        (page.links != null ==> page.links.scaledLinks == Some(PageLinks.ScaleLinks(page.links.baseLinks, req.scale)) &&
                                page.links.baseLinks == old(page.links.baseLinks)) &&
        (isActive ==> page.zoomedBitmap != null && fresh(page.zoomedBitmap) &&
                      page.zoomedBitmap.width == req.content.width && page.zoomedBitmap.height == req.content.height) &&
        (!isActive ==> page.zoomedBitmap == old(page.zoomedBitmap))
    {
      var pair := Arrange(reverse, core1, core2);
      var finalBitmap: Bitmap?;
      r, finalBitmap := RenderSpread(req, pair.0.Some?, pair.1.Some?);
      if r.Err? {
        return;
      }
      if page.links != null {
        page.links.Scale(req.scale);
      }
      if isActive {
        page.zoomedBitmap := finalBitmap;
      }
    }
  }

  /**
   * The drawing part of the zoomed job: each page that has a core and a
   * non-empty part gets a bitmap of its part's width and the content height,
   * then the bitmap of the content size is created and the parts drawn on
   * it, the right one at `StartX`. Creating a bitmap throws exactly when the
   * content size is not positive.
   */
  method RenderSpread(req: SpreadRequest, hasLeft: bool, hasRight: bool) returns (r: Result<ZoomedSpread>, content: Bitmap?)
    ensures r.Err? <==> !Positive(req.content)
    ensures r.Err? ==> r.error == IllegalArgument
    ensures r.Ok? ==>
      r.value == ZoomedSpreadFor(req, hasLeft, hasRight) &&
      content != null && fresh(content) && content.width == req.content.width && content.height == req.content.height
  {
    content := null;
    var patches: seq<PatchDraw> := [];
    var leftWidth: Option<int> := None;
    if hasLeft && !req.leftBounds.IsEmpty() {
      var leftBitmap := CreateBitmap(req.leftBounds.Width(), req.content.height);
      if leftBitmap.Err? {
        return Err(leftBitmap.error), null;
      }
      patches := patches + [PatchDraw(req.leftBounds, req.scaled.height)];
      leftWidth := Some(leftBitmap.value.width);
    }
    var rightWidth: Option<int> := None;
    if hasRight && !req.rightBounds.IsEmpty() {
      var rightBitmap := CreateBitmap(req.rightBounds.Width(), req.content.height);
      if rightBitmap.Err? {
        return Err(rightBitmap.error), null;
      }
      patches := patches + [PatchDraw(req.rightBounds, req.scaled.height)];
      rightWidth := Some(rightBitmap.value.width);
    }
    var finalBitmap := CreateBitmap(req.content.width, req.content.height);
    if finalBitmap.Err? {
      return Err(finalBitmap.error), null;
    }
    var draws: seq<Placement> := [];
    if leftWidth.Some? {
      draws := draws + [Placement(leftWidth.value, req.content.height, 0, 0)];
    }
    if rightWidth.Some? {
      var startX := StartX(leftWidth, rightWidth.value, req.content.width, req.sharedColumn);
      draws := draws + [Placement(rightWidth.value, req.content.height, startX, 0)];
    }
    r, content := Ok(ZoomedSpread(patches, draws)), finalBitmap.value;
  }
}
