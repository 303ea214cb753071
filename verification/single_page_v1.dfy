// viewer/src/main/java/com/viewer/pdf/single/PdfSinglePageState.kt: the first
// revision of a single page. It keeps MuPDF's links itself, as an entire list
// scaled to the bitmap on each axis and a zoomed list scaled by the zoom, and
// reports every link under a tap.
//
// The page size comes from the modelled `PdfCore`; the links MuPDF reports for
// the page are a parameter, and `drawPage` is recorded as a `PatchDraw`.

module SinglePageStateV1 {
  import opened Common
  import opened Geometry
  import opened PageLayout
  import PdfCoreModel
  import ZoomStateV1
  import ZoomedBitmapCache

  /** MuPDF's `Rect(x0 * sx, y0 * sy, x1 * sx, y1 * sy)`. */
  function ScaleRect(r: Rect, sx: real, sy: real): Rect {
    Rect(r.left * sx, r.top * sy, r.right * sx, r.bottom * sy)
  }

  /**
   * The `map` that rebuilds each link with its bounds scaled by `sx` across
   * and `sy` down: the list keeps its length, its order and every uri.
   */
  function ScaleLinksXY(links: seq<Link>, sx: real, sy: real): (r: seq<Link>)
    ensures |r| == |links|
    ensures forall i :: 0 <= i < |links| ==>
      r[i].uri == links[i].uri && r[i].bounds == ScaleRect(links[i].bounds, sx, sy)
  {
    if links == [] then []
    else [Link(ScaleRect(links[0].bounds, sx, sy), links[0].uri)] + ScaleLinksXY(links[1..], sx, sy)
  }

  /**
   * Scaling the entire links by the zoom gives the page's own links scaled
   * by the composed factors: the zoomed list does not drift from the page.
   */
  lemma {:induction false} ScaleLinksXYTwice(links: seq<Link>, sx: real, sy: real, s: real)
    ensures ScaleLinksXY(ScaleLinksXY(links, sx, sy), s, s) == ScaleLinksXY(links, sx * s, sy * s)
  {
    var mid := ScaleLinksXY(links, sx, sy);
    var lhs := ScaleLinksXY(mid, s, s);
    var rhs := ScaleLinksXY(links, sx * s, sy * s);
    forall i | 0 <= i < |links|
      ensures lhs[i] == rhs[i]
    {
      ScaleRectTwice(links[i].bounds, sx, sy, s);
      assert lhs[i].bounds == ScaleRect(mid[i].bounds, s, s);
    }
  }

  lemma ScaleRectTwice(r: Rect, sx: real, sy: real, s: real)
    ensures ScaleRect(ScaleRect(r, sx, sy), s, s) == ScaleRect(r, sx * s, sy * s)
  {
    assert r.left * sx * s == r.left * (sx * s);
    assert r.top * sy * s == r.top * (sy * s);
    assert r.right * sx * s == r.right * (sx * s);
    assert r.bottom * sy * s == r.bottom * (sy * s);
  }

  /**
   * The indices of the links containing `p`, in increasing order: every
   * containing index, each once, and no other.
   */
  function HitIndices(links: seq<Link>, p: Offset): (idx: seq<int>)
    ensures forall k :: 0 <= k < |idx| ==> 0 <= idx[k] < |links| && links[idx[k]].bounds.Contains(p)
    ensures forall k, l :: 0 <= k < l < |idx| ==> idx[k] < idx[l]
    ensures forall i :: 0 <= i < |links| && links[i].bounds.Contains(p) ==> i in idx
  {
    if links == [] then []
    else
      var rest := HitIndices(links[..|links| - 1], p);
      assert forall i :: 0 <= i < |links| - 1 ==> links[..|links| - 1][i] == links[i];
      rest + (if links[|links| - 1].bounds.Contains(p) then [|links| - 1] else [])
  }

  /**
   * The uris of the links containing `p`, in list order: the `onLinkClick`
   * calls of one tap, one per containing link.
   */
  function ContainingUris(links: seq<Link>, p: Offset): (uris: seq<string>)
    ensures |uris| <= |links|
    ensures forall i :: 0 <= i < |links| && links[i].bounds.Contains(p) ==> links[i].uri in uris
    ensures forall u :: u in uris ==> exists i :: 0 <= i < |links| && links[i].bounds.Contains(p) && links[i].uri == u
  {
    if links == [] then []
    else
      var rest := ContainingUris(links[..|links| - 1], p);
      var last := links[|links| - 1];
      assert forall i :: 0 <= i < |links| - 1 ==> links[..|links| - 1][i] == links[i];
      rest + (if last.bounds.Contains(p) then [last.uri] else [])
  }

  /** Tap order: the uris follow the containing links one for one, in list order. */
  lemma {:induction false} UrisFollowHits(links: seq<Link>, p: Offset)
    ensures var uris := ContainingUris(links, p); var idx := HitIndices(links, p);
      |uris| == |idx| && forall k :: 0 <= k < |idx| ==> uris[k] == links[idx[k]].uri
  {
    if links != [] {
      var init := links[..|links| - 1];
      UrisFollowHits(init, p);
      assert forall i :: 0 <= i < |init| ==> init[i] == links[i];
    }
  }

  /** For a positive factor, a scaled rectangle contains the scaled point exactly when the rectangle contains the point. */
  lemma ScaleRectContains(r: Rect, p: Offset, s: real)
    requires s > 0.0
    ensures ScaleRect(r, s, s).Contains(Offset(p.x * s, p.y * s)) <==> r.Contains(p)
  {
    MulOrder(r.left, p.x, s);
    MulOrder(p.x, r.right, s);
    MulOrder(r.top, p.y, s);
    MulOrder(p.y, r.bottom, s);
  }

  lemma MulOrder(a: real, b: real, s: real)
    requires s > 0.0
    ensures a * s <= b * s <==> a <= b
    ensures a * s < b * s <==> a < b
  {
    if a <= b {
      MulLeq(a, b, s);
    } else {
      MulLt(b, a, s);
    }
    if a < b {
      MulLt(a, b, s);
    } else {
      MulLeq(b, a, s);
    }
  }

  /**
   * A tap on the zoomed links at a point scaled by the zoom reports the same
   * uris, in the same order, as a tap on the entire links at the point.
   */
  lemma {:induction false} ZoomedTapMatchesEntire(links: seq<Link>, p: Offset, s: real)
    requires s > 0.0
    ensures ContainingUris(ScaleLinksXY(links, s, s), Offset(p.x * s, p.y * s)) == ContainingUris(links, p)
    decreases |links|
  {
    if links != [] {
      var n := |links| - 1;
      var scaled := ScaleLinksXY(links, s, s);
      assert scaled[..n] == ScaleLinksXY(links[..n], s, s);
      ZoomedTapMatchesEntire(links[..n], p, s);
      ScaleRectContains(links[n].bounds, p, s);
    }
  }

  class PdfSinglePageState {
    const core: PdfCoreModel.PdfCore
    const zoomState: ZoomStateV1.ZoomState
    const cache: ZoomedBitmapCache.BitmapCache
    /** `readerState.readerSize`. */
    const readerSize: IntSize
    const pageToLoad: int
    /** `pageSize`: the page size truncated to whole points. */
    var pageSize: IntSize
    var entireBitmap: Bitmap?
    var entireLinks: Option<seq<Link>>
    var zoomedBitmap: Bitmap?
    var zoomedLinks: Option<seq<Link>>

    predicate Valid()
      reads this, zoomState, core
    {
      zoomState.Valid() && core.Valid() &&
      readerSize.width >= 0 && readerSize.height >= 0 &&
      (entireBitmap != null ==> entireBitmap.width > 0 && entireBitmap.height > 0)
    }

    /** `PdfSinglePageState(...)` with the default `ZoomState(maxScale = 6)`; nothing is loaded yet. */
    constructor (core: PdfCoreModel.PdfCore, readerSize: IntSize, pageToLoad: int)
      requires core.Valid() && readerSize.width >= 0 && readerSize.height >= 0
      ensures Valid() && fresh(zoomState) && fresh(cache)
      ensures this.core == core && this.readerSize == readerSize && this.pageToLoad == pageToLoad
      ensures pageSize == IntSize(0, 0) && entireBitmap == null && entireLinks == None
      ensures zoomedBitmap == null && zoomedLinks == None && cache.last == null
    {
      this.core := core;
      zoomState := new ZoomStateV1.ZoomState(6.0, ZeroSize);
      cache := new ZoomedBitmapCache.BitmapCache();
      this.readerSize := readerSize;
      this.pageToLoad := pageToLoad;
      pageSize := IntSize(0, 0);
      entireBitmap := null;
      entireLinks := None;
      zoomedBitmap := null;
      zoomedLinks := None;
    }

    /**
     * The job `init` launches: the page size is recorded truncated, the page
     * is fitted to the reader and rendered, and MuPDF's links are scaled by
     * bitmap width over page width across and bitmap height over page height
     * down, uris kept; the zoom state takes the bitmap as content and the
     * reader as layout. A reader of height 0 throws after the page size is
     * recorded; a fitted side that is not positive throws.
     */
    method Init(pageLinks: Option<seq<Link>>) returns (r: Result<PatchDraw>)
      requires Valid() && !core.docDestroyed && core.pageCount >= 1 && PdfCoreModel.PagesSized(core.doc)
      modifies core, this`pageSize, this`entireBitmap, this`entireLinks
      modifies zoomState`contentSize, zoomState`layoutSize, zoomState`fitContentSize
      ensures Valid()
      ensures var size := PdfCoreModel.SizeOf(core.doc.pages[PdfCoreModel.ClampPage(pageToLoad, core.pageCount)]);
        pageSize == IntSize(Trunc(size.x), Trunc(size.y)) && pageSize.width >= 1 && pageSize.height >= 1
      ensures readerSize.height == 0 ==> r == Err(Arithmetic)
      ensures readerSize.height > 0 ==>
        var size := PdfCoreModel.SizeOf(core.doc.pages[PdfCoreModel.ClampPage(pageToLoad, core.pageCount)]);
        var fit := PageFit(readerSize, readerSize.width / readerSize.height, size);
        if !Positive(fit) then r == Err(IllegalArgument)
        else
          r == Ok(PatchDraw(IntRect(0, 0, fit.width, fit.height), fit.height)) &&
          entireBitmap != null && fresh(entireBitmap) &&
          entireBitmap.width == fit.width && entireBitmap.height == fit.height &&
          entireLinks == (if pageLinks.Some? then
            Some(ScaleLinksXY(pageLinks.value, fit.width as real / pageSize.width as real,
                              fit.height as real / pageSize.height as real))
            else None) &&
          zoomState.contentSize == Size(fit.width as real, fit.height as real) &&
          zoomState.layoutSize == Size(readerSize.width as real, readerSize.height as real)
      ensures r.Err? ==>
        entireBitmap == old(entireBitmap) && entireLinks == old(entireLinks) &&
        zoomState.contentSize == old(zoomState.contentSize) && zoomState.layoutSize == old(zoomState.layoutSize) &&
        zoomState.fitContentSize == old(zoomState.fitContentSize)
    {
      var pdfPageSize := core.GetPageSize(pageToLoad);
      var size := pdfPageSize.value;
      pageSize := IntSize(Trunc(size.x), Trunc(size.y));
      var ratio := AspectRatio(readerSize);
      if ratio.Err? {
        return Err(ratio.error);
      }
      var fit := PageFit(readerSize, ratio.value, size);
      var bitmap := CreateBitmap(fit.width, fit.height);
      if bitmap.Err? {
        return Err(bitmap.error);
      }
      var draw := PatchDraw(IntRect(0, 0, fit.width, fit.height), fit.height);
      var linkScaledWidth := fit.width as real / pageSize.width as real;
      var linkScaledHeight := fit.height as real / pageSize.height as real;
      var links := if pageLinks.Some? then Some(ScaleLinksXY(pageLinks.value, linkScaledWidth, linkScaledHeight)) else None;
      zoomState.SetContentSize(Size(fit.width as real, fit.height as real));
      zoomState.SetLayoutSize(Size(readerSize.width as real, readerSize.height as real));
      entireBitmap := bitmap.value;
      entireLinks := links;
      return Ok(draw);
    }

    /**
     * `dispose`: both bitmaps are recycled and dropped, and the core is
     * destroyed.
     */
    method Dispose()
      requires Valid()
      modifies this`entireBitmap, this`zoomedBitmap, entireBitmap, zoomedBitmap, core
      ensures old(entireBitmap) != null ==> old(entireBitmap).recycled
      ensures old(zoomedBitmap) != null ==> old(zoomedBitmap).recycled
      ensures entireBitmap == null && zoomedBitmap == null
      ensures core.Valid() && core.docDestroyed && core.page == None && core.displayList == None
    {
      if entireBitmap != null {
        entireBitmap.Recycle();
      }
      if zoomedBitmap != null {
        zoomedBitmap.Recycle();
      }
      entireBitmap := null;
      zoomedBitmap := null;
      core.Destroy();
    }

    /**
     * `refreshZoomedContent` up to the launch: nothing without an entire
     * bitmap, while the zoom is not settled, or at a scale of at most 1;
     * otherwise the request for the part of the zoomed page the reader shows.
     */
    method RefreshZoomedContent() returns (req: Option<PatchRequest>)
      requires Valid()
      ensures req.None? <==> entireBitmap == null || !zoomState.IsSettled() || zoomState.scale.value <= 1.0
      ensures req.Some? ==>
        req.value == PatchRequestFor(IntSize(entireBitmap.width, entireBitmap.height), readerSize, zoomState.scale.value,
                                     zoomState.BoundsX() - zoomState.offsetX.value, zoomState.BoundsY() - zoomState.offsetY.value)
    {
      var entire := entireBitmap;
      if entire == null {
        return None;
      }
      if !zoomState.IsSettled() || zoomState.scale.value <= 1.0 {
        return None;
      }
      var scale := zoomState.scale.value;
      var posX := zoomState.BoundsX() - zoomState.offsetX.value;
      var posY := zoomState.BoundsY() - zoomState.offsetY.value;
      return Some(PatchRequestFor(IntSize(entire.width, entire.height), readerSize, scale, posX, posY));
    }

    /**
     * The job `refreshZoomedContent` launches: the cached zoomed bitmap of the
     * content size (reused on a size hit) with the page drawn into it, and
     * the entire links scaled uniformly by the zoom, uris kept; both are
     * shown unless the job was cancelled.
     */
    method CompleteZoomedContent(req: PatchRequest, isActive: bool) returns (r: Result<PatchDraw>)
      requires Valid()
      modifies cache`last, cache.last, this`zoomedBitmap, this`zoomedLinks
      ensures Valid()
      ensures r.Err? <==> !old(cache.Hit(req.content.width, req.content.height)) && !Positive(req.content)
      ensures r.Err? ==> r.error == IllegalArgument && zoomedBitmap == old(zoomedBitmap) && zoomedLinks == old(zoomedLinks)
      ensures r.Ok? ==>
        r.value == PatchDraw(PatchRect(req), req.scaled.height) &&
        cache.last != null && cache.last.width == req.content.width && cache.last.height == req.content.height &&
        (old(cache.Hit(req.content.width, req.content.height)) ==> cache.last == old(cache.last)) &&
        zoomedBitmap == (if isActive then cache.last else old(zoomedBitmap)) &&
        zoomedLinks == (if !isActive then old(zoomedLinks)
                        else if entireLinks.Some? then Some(ScaleLinksXY(entireLinks.value, req.scale, req.scale))
                        else None)
    {
      var bitmap := cache.GetZoomedBitmap(req.content.width, req.content.height);
      if bitmap.Err? {
        return Err(bitmap.error);
      }
      var draw := PatchDraw(PatchRect(req), req.scaled.height);
      var links := if entireLinks.Some? then Some(ScaleLinksXY(entireLinks.value, req.scale, req.scale)) else None;
      if isActive {
        zoomedBitmap := bitmap.value;
        zoomedLinks := links;
      }
      return Ok(draw);
    }

    /** `clearZoomedContent`: the zoomed bitmap and the zoomed links are dropped. */
    method ClearZoomedContent()
      modifies this`zoomedBitmap, this`zoomedLinks
      ensures zoomedBitmap == null && zoomedLinks == None
    {
      zoomedBitmap := null;
      zoomedLinks := None;
    }

    /**
     * `handleClick(position)`: walks the zoomed links when there are any,
     * otherwise the entire links, and calls `onLinkClick` once for every link
     * containing the tap in content coordinates, in list order.
     */
    method HandleClick(position: Offset) returns (uris: seq<string>)
      ensures var p := zoomState.GetOffsetInContent(position);
        uris == ContainingUris(if zoomedLinks.Some? then zoomedLinks.value
                               else if entireLinks.Some? then entireLinks.value else [], p)
    {
      var contentOffset := zoomState.GetOffsetInContent(position);
      var links := if zoomedLinks.Some? then zoomedLinks.value else if entireLinks.Some? then entireLinks.value else [];
      uris := [];
      var i := 0;
      while i < |links|
        invariant 0 <= i <= |links|
        invariant uris == ContainingUris(links[..i], contentOffset)
      {
        assert links[..i + 1][..i] == links[..i];
        if links[i].bounds.Contains(contentOffset) {
          uris := uris + [links[i].uri];
        }
        i := i + 1;
      }
      assert links[..|links|] == links;
    }
  }
}
