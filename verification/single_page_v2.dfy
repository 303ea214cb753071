// viewer/src/main/java/com/viewer/pdf/page/single/PdfSinglePageState.kt: one
// page of the later pager. `init` fits the page to the reader, renders it and
// scales its links to the bitmap; `refreshZoomedContent` renders the part of
// the zoomed page the reader shows into the cached zoomed bitmap.
//
// The page size comes from the modelled `PdfCore`; the links MuPDF reports for
// the page are a parameter, and `drawPage` is recorded as a `PatchDraw`.

module SinglePageStateV2 {
  import opened Common
  import opened Geometry
  import opened PageLayout
  import PageLinks
  import PageState
  import PdfCoreModel
  import ZoomStateV1
  import ZoomedBitmapCache

  /**
   * The factor `init` gives `setBaseScale`: the bitmap height over the page
   * height. Since the bitmap keeps the page's aspect ratio up to truncation,
   * a page fitted to the reader's height is scaled by exactly `H / y`, and
   * one fitted to the reader's width by at most `W / x`.
   */
  function LinkScale(fit: IntSize, page: Offset): real
    requires page.y > 0.0
  {
    fit.height as real / page.y
  }

  /**
   * The base link scale maps the page's height onto the bitmap's height, and
   * for a page fitted to the width the page's width onto at most the
   * bitmap's width.
   */
  lemma {:induction false} LinkScaleFitsBitmap(reader: IntSize, ratio: int, page: Offset)
    requires reader.width >= 0 && reader.height >= 0 && page.x > 0.0 && page.y > 0.0
    ensures var fit := PageFit(reader, ratio, page);
      page.y * LinkScale(fit, page) == fit.height as real &&
      (ratio as real < page.x / page.y ==> page.x * LinkScale(fit, page) <= fit.width as real)
  {
    var fit := PageFit(reader, ratio, page);
    HeightOverHeight(fit.height, page.y);
    if ratio as real < page.x / page.y {
      PageFitWide(reader, ratio, page);
      WidthWithinWidth(reader, page, fit.height);
    }
  }

  lemma HeightOverHeight(h: int, y: real)
    requires y > 0.0
    ensures y * (h as real / y) == h as real
  {
  }

  /**
   * A height truncated from the reader's width over the page's aspect ratio
   * scales the page's width to at most the reader's width when scaled by
   * itself over the page's height.
   */
  lemma WidthWithinWidth(reader: IntSize, page: Offset, h: int)
    requires reader.width >= 0 && page.x > 0.0 && page.y > 0.0
    requires h == Trunc(reader.width as real * page.y / page.x)
    ensures page.x * (h as real / page.y) <= reader.width as real
  {
    var w, x, y := reader.width, page.x, page.y;
    var exact := w as real * y / x;
    assert h as real <= exact;
    assert exact * x == w as real * y;
    MulLeq(h as real, exact, x);
    var s := h as real / y;
    assert x * s * y == x * h as real;
    assert x * s <= w as real by {
      if x * s > w as real {
        MulLt(w as real, x * s, y);
      }
    }
  }

  class PdfSinglePageState {
    const page: PageState.PdfPageState
    const core: PdfCoreModel.PdfCore
    const cache: ZoomedBitmapCache.BitmapCache
    /** `readerState.readerSize`. */
    const readerSize: IntSize
    const pageToLoad: int

    predicate Valid()
      reads this, page, page.zoomState, core
    {
      page.zoomState.Valid() && core.Valid() &&
      readerSize.width >= 0 && readerSize.height >= 0 &&
      (page.entireBitmap != null ==> page.entireBitmap.width > 0 && page.entireBitmap.height > 0)
    }

    /** `PdfSinglePageState(...)` with the default `ZoomState(maxScale = 6)`; nothing is loaded yet. */
    constructor (core: PdfCoreModel.PdfCore, readerSize: IntSize, pageToLoad: int)
      requires core.Valid() && readerSize.width >= 0 && readerSize.height >= 0
      ensures Valid() && fresh(page) && fresh(page.zoomState) && fresh(cache)
      ensures this.core == core && this.readerSize == readerSize && this.pageToLoad == pageToLoad
      ensures page.entireBitmap == null && page.links == null && page.zoomedBitmap == null && cache.last == null
    {
      var zoomState := new ZoomStateV1.ZoomState(6.0, ZeroSize);
      page := new PageState.PdfPageState(zoomState);
      cache := new ZoomedBitmapCache.BitmapCache();
      this.core := core;
      this.readerSize := readerSize;
      this.pageToLoad := pageToLoad;
    }

    /**
     * The job `init` launches: the page is fitted to the reader (the integer
     * reader ratio against the page's ratio), rendered into a bitmap of that
     * size, and its links are scaled by bitmap height over page height; the
     * zoom state takes the bitmap as content and the reader as layout, and
     * the bitmap and links become the page's. The exceptions: a reader of
     * height 0, and a fitted side that is not positive.
     */
    method Init(pageLinks: seq<Link>) returns (r: Result<PatchDraw>)
      requires Valid() && !core.docDestroyed && core.pageCount >= 1 && PdfCoreModel.PagesSized(core.doc)
      modifies core, page`entireBitmap, page`links
      modifies page.zoomState`contentSize, page.zoomState`layoutSize, page.zoomState`fitContentSize
      ensures Valid()
      ensures readerSize.height == 0 ==> r == Err(Arithmetic)
      ensures readerSize.height > 0 ==>
        var size := PdfCoreModel.SizeOf(core.doc.pages[PdfCoreModel.ClampPage(pageToLoad, core.pageCount)]);
        var fit := PageFit(readerSize, readerSize.width / readerSize.height, size);
        if !Positive(fit) then r == Err(IllegalArgument)
        else
          r == Ok(PatchDraw(IntRect(0, 0, fit.width, fit.height), fit.height)) &&
          page.entireBitmap != null && fresh(page.entireBitmap) &&
          page.entireBitmap.width == fit.width && page.entireBitmap.height == fit.height &&
          page.links != null && fresh(page.links) &&
          page.links.baseLinks == PageLinks.ScaleLinks(pageLinks, LinkScale(fit, size)) &&
          page.links.scaledLinks == None &&
          page.zoomState.contentSize == Size(fit.width as real, fit.height as real) &&
          page.zoomState.layoutSize == Size(readerSize.width as real, readerSize.height as real)
      ensures r.Err? ==>
        page.entireBitmap == old(page.entireBitmap) && page.links == old(page.links) &&
        page.zoomState.contentSize == old(page.zoomState.contentSize) && page.zoomState.layoutSize == old(page.zoomState.layoutSize) &&
        page.zoomState.fitContentSize == old(page.zoomState.fitContentSize)
    {
      var pdfPageSize := core.GetPageSize(pageToLoad);
      var size := pdfPageSize.value;
      var ratio := AspectRatio(readerSize);
      if ratio.Err? {
        return Err(ratio.error);
      }
      var fit := PageFit(readerSize, ratio.value, size);
      var bitmap := CreateBitmap(fit.width, fit.height);
      if bitmap.Err? {
        return Err(bitmap.error);
      }
      var draw := PatchDraw(IntRect(0, 0, fit.width, fit.height), fit.height);
      var links := new PageLinks.PdfPageLinks(pageLinks);
      links.SetBaseScale(fit.height as real / size.y);
      page.zoomState.SetContentSize(Size(fit.width as real, fit.height as real));
      page.zoomState.SetLayoutSize(Size(readerSize.width as real, readerSize.height as real));
      page.entireBitmap := bitmap.value;
      page.links := links;
      return Ok(draw);
    }

    /**
     * `refreshZoomedContent` up to the launch: nothing without an entire
     * bitmap, while the zoom is not settled, or at a scale of at most 1;
     * otherwise the request for the part of the zoomed page the reader shows.
     */
    method RefreshZoomedContent() returns (req: Option<PatchRequest>)
      requires Valid()
      ensures req.None? <==>
        page.entireBitmap == null || !page.zoomState.IsSettled() || page.zoomState.scale.value <= 1.0
      ensures req.Some? ==>
        var zs := page.zoomState;
        req.value == PatchRequestFor(IntSize(page.entireBitmap.width, page.entireBitmap.height), readerSize,
                                     zs.scale.value, zs.BoundsX() - zs.offsetX.value, zs.BoundsY() - zs.offsetY.value)
    {
      var entireBitmap := page.entireBitmap;
      if entireBitmap == null {
        return None;
      }
      var zs := page.zoomState;
      if !zs.IsSettled() || zs.scale.value <= 1.0 {
        return None;
      }
      var scale := zs.scale.value;
      var contentX := zs.BoundsX() - zs.offsetX.value;
      var contentY := zs.BoundsY() - zs.offsetY.value;
      return Some(PatchRequestFor(IntSize(entireBitmap.width, entireBitmap.height), readerSize, scale, contentX, contentY));
    }

    /**
     * The job `refreshZoomedContent` launches: the cached zoomed bitmap of the
     * content size (reused on a size hit), the page drawn into it, the links
     * scaled by the zoom, and the bitmap shown unless the job was cancelled.
     */
    method CompleteZoomedContent(req: PatchRequest, isActive: bool) returns (r: Result<PatchDraw>)
      requires Valid()
      modifies cache`last, cache.last, page.links, page`zoomedBitmap
      ensures Valid()
      ensures r.Err? <==> !old(cache.Hit(req.content.width, req.content.height)) && !Positive(req.content)
      ensures r.Err? ==> r.error == IllegalArgument && page.zoomedBitmap == old(page.zoomedBitmap)
      ensures r.Ok? ==>
        r.value == PatchDraw(PatchRect(req), req.scaled.height) &&
        cache.last != null && cache.last.width == req.content.width && cache.last.height == req.content.height &&
        (old(cache.Hit(req.content.width, req.content.height)) ==> cache.last == old(cache.last)) &&
        (page.links != null ==> page.links.scaledLinks == Some(PageLinks.ScaleLinks(page.links.baseLinks, req.scale)) &&
                                page.links.baseLinks == old(page.links.baseLinks)) &&
        page.zoomedBitmap == (if isActive then cache.last else old(page.zoomedBitmap))
    {
      var bitmap := cache.GetZoomedBitmap(req.content.width, req.content.height);
      if bitmap.Err? {
        return Err(bitmap.error);
      }
      var draw := PatchDraw(PatchRect(req), req.scaled.height);
      if page.links != null {
        page.links.Scale(req.scale);
      }
      if isActive {
        page.zoomedBitmap := bitmap.value;
      }
      return Ok(draw);
    }
  }
}
