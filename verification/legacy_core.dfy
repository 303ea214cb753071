// viewer/src/main/java/com/viewer/PDFCore.kt: the older MuPDF wrapper used by
// the view pager. Besides the page cursor it keeps the reflow layout
// parameters of the document and may lose its document on `onDestroy`.

module LegacyCore {
  import opened Common
  import opened Geometry
  import opened PdfCoreModel

  /**
   * A MuPDF document that may be reflowable. Its pages depend on the layout
   * parameters (width, height, em) it was last laid out with; a fixed-layout
   * document simply ignores them.
   */
  class ReflowDocument {
    /** The pages MuPDF produces for a layout (w, h, em). */
    const pagesFor: (int, int, int) -> seq<PageBounds>
    /**
     * Where the bookmark made for page `p` under layout `from` points once the
     * document is laid out as `to` (`makeBookmark`, `findBookmark`,
     * `pageNumberFromLocation`).
     */
    const relocate: (int, (int, int, int), (int, int, int)) -> int
    var layoutParams: (int, int, int)
    var destroyed: bool

    constructor (pagesFor: (int, int, int) -> seq<PageBounds>, relocate: (int, (int, int, int), (int, int, int)) -> int)
      ensures this.pagesFor == pagesFor && this.relocate == relocate && !destroyed
    {
      this.pagesFor := pagesFor;
      this.relocate := relocate;
      layoutParams := (0, 0, 0);
      destroyed := false;
    }

    /** The pages under the current layout (`countPages`, `loadPage`). */
    function Pages(): seq<PageBounds>
      reads this
    {
      pagesFor(layoutParams.0, layoutParams.1, layoutParams.2)
    }

    /** `Document.layout(w, h, em)`. */
    method Layout(w: int, h: int, em: int)
      modifies this
      ensures layoutParams == (w, h, em) && destroyed == old(destroyed)
    {
      layoutParams := (w, h, em);
    }

    /** `Document.destroy()`. */
    method Destroy()
      modifies this
      ensures destroyed && layoutParams == old(layoutParams)
    {
      destroyed := true;
    }
  }

  /** A loaded MuPDF page: the document it was loaded from and its index there. */
  datatype PageRef = PageRef(owner: ReflowDocument, index: int)

  /** The "A Format" pocket book size every document is first laid out with. */
  const DefaultLayout := (312, 504, 10)

  class PDFCore {
    var resolution: int
    var doc: ReflowDocument?
    var pageCount: int
    var currentPage: int
    var page: Option<PageRef>
    var pageWidth: real
    var pageHeight: real
    /** The display list built from the loaded page. */
    var displayList: Option<PageRef>
    var layoutW: int
    var layoutH: int
    var layoutEM: int
    /** The `createLink` calls issued on loaded pages, in order. */
    var addedLinks: seq<(PageRef, Link)>

    /**
     * While a document is attached: the page count is the document's, the
     * document is alive and laid out with the stored parameters, and the
     * recorded size is that of the current page whenever it is a real page.
     */
    predicate Valid()
      reads this, doc
    {
      doc != null ==>
        pageCount == |doc.Pages()| && !doc.destroyed &&
        doc.layoutParams == (layoutW, layoutH, layoutEM) &&
        (0 <= currentPage < pageCount ==> Offset(pageWidth, pageHeight) == SizeOf(doc.Pages()[currentPage]))
    }

    /** `PDFCore(doc)`: the fields start at their defaults and `refresh(doc)` runs. */
    constructor (d: ReflowDocument)
      requires !d.destroyed
      modifies d
      ensures Valid()
      ensures doc == d && resolution == 160 && currentPage == -1
      ensures (layoutW, layoutH, layoutEM) == DefaultLayout && d.layoutParams == DefaultLayout
      ensures pageCount == |d.Pages()| && page == None && displayList == None && addedLinks == []
    {
      layoutW, layoutH, layoutEM := 312, 504, 10;
      page := None;
      pageWidth, pageHeight := 0.0, 0.0;
      displayList := None;
      addedLinks := [];
      d.Layout(312, 504, 10);
      doc := d;
      pageCount := |d.Pages()|;
      resolution := 160;
      currentPage := -1;
    }

    /**
     * `refresh(doc)`: attach a document, lay it out with the stored parameters,
     * read its page count and force the next `gotoPage` to load.
     */
    method Refresh(d: ReflowDocument)
      requires !d.destroyed
      modifies this, d
      ensures Valid()
      ensures doc == d && d.layoutParams == (layoutW, layoutH, layoutEM)
      ensures pageCount == |d.Pages()| && resolution == 160 && currentPage == -1
      ensures layoutW == old(layoutW) && layoutH == old(layoutH) && layoutEM == old(layoutEM)
      ensures page == old(page) && displayList == old(displayList) && addedLinks == old(addedLinks)
      ensures pageWidth == old(pageWidth) && pageHeight == old(pageHeight)
    {
      doc := d;
      d.Layout(layoutW, layoutH, layoutEM);
      pageCount := |d.Pages()|;
      resolution := 160;
      currentPage := -1;
    }

    /**
     * `layout(oldPage, w, h, em)`: with the same parameters nothing happens
     * and `oldPage` is returned. Otherwise the parameters are stored, the
     * document is laid out again, the cursor is reset and the page the old
     * page's bookmark now lands on is returned. Without a document the new
     * parameters are stored and the bookmark lookup fails.
     */
    method Layout(oldPage: int, w: int, h: int, em: int) returns (r: Result<int>)
      requires Valid()
      modifies this, doc
      ensures Valid()
      ensures doc == old(doc) && page == old(page) && displayList == old(displayList) && addedLinks == old(addedLinks)
      ensures (w, h, em) == old((layoutW, layoutH, layoutEM)) ==>
        r == Ok(oldPage) && currentPage == old(currentPage) && pageCount == old(pageCount) &&
        (doc != null ==> doc.layoutParams == old(doc.layoutParams))
      ensures (w, h, em) != old((layoutW, layoutH, layoutEM)) ==>
        (layoutW, layoutH, layoutEM) == (w, h, em) &&
        (if doc == null then r == Err(NullPointer) && currentPage == old(currentPage)
         else
           doc.layoutParams == (w, h, em) && currentPage == -1 && pageCount == |doc.Pages()| &&
           r == Ok(doc.relocate(oldPage, old(doc.layoutParams), (w, h, em))))
    {
      if w != layoutW || h != layoutH || em != layoutEM {
        layoutW, layoutH, layoutEM := w, h, em;
        if doc == null {
          return Err(NullPointer);
        }
        var from := doc.layoutParams;
        doc.Layout(w, h, em);
        currentPage := -1;
        pageCount := |doc.Pages()|;
        return Ok(doc.relocate(oldPage, from, (w, h, em)));
      }
      return Ok(oldPage);
    }

    /**
     * `gotoPage`: the clamp of `PdfCore.gotoPage`, reloading only when the
     * clamped index changes. Without a document the page is dropped and the
     * size becomes 0 by 0.
     */
    method GotoPage(pageNumber: int) returns (r: Result<()>)
      requires Valid()
      modifies this
      ensures Valid()
      ensures doc == old(doc) && pageCount == old(pageCount) && addedLinks == old(addedLinks)
      ensures layoutW == old(layoutW) && layoutH == old(layoutH) && layoutEM == old(layoutEM)
      ensures var p := ClampPage(pageNumber, pageCount);
        if p == old(currentPage) then
          r.Ok? && currentPage == old(currentPage) && page == old(page) && displayList == old(displayList) &&
          pageWidth == old(pageWidth) && pageHeight == old(pageHeight)
        else
          currentPage == p && displayList == None &&
          (if doc == null then r.Ok? && page == None && pageWidth == 0.0 && pageHeight == 0.0
           else if 0 <= p < pageCount then
             r.Ok? && page == Some(PageRef(doc, p)) && Offset(pageWidth, pageHeight) == SizeOf(doc.Pages()[p])
           else r == Err(IndexOutOfBounds) && page == None)
    {
      var pageNum := pageNumber;
      if pageNum > pageCount - 1 {
        pageNum := pageCount - 1;
      } else if pageNum < 0 {
        pageNum := 0;
      }
      if pageNum != currentPage {
        currentPage := pageNum;
        page := None;
        displayList := None;
        if doc != null {
          var pages := doc.Pages();
          if !(0 <= pageNum < |pages|) {
            return Err(IndexOutOfBounds);
          }
          page := Some(PageRef(doc, pageNum));
          pageWidth := pages[pageNum].x1 - pages[pageNum].x0;
          pageHeight := pages[pageNum].y1 - pages[pageNum].y0;
        } else {
          page := None;
          pageWidth := 0.0;
          pageHeight := 0.0;
        }
      }
      return Ok(());
    }

    /**
     * `getPageSize(n)`: with a non-empty document attached, the size of the
     * clamped page n; without a document, 0 by 0 once the cursor moves.
     */
    method GetPageSize(pageNum: int) returns (r: Result<Offset>)
      requires Valid()
      modifies this
      ensures Valid()
      ensures doc == old(doc) && pageCount == old(pageCount)
      ensures doc != null && pageCount >= 1 ==> r == Ok(SizeOf(doc.Pages()[ClampPage(pageNum, pageCount)]))
      ensures doc == null && ClampPage(pageNum, pageCount) != old(currentPage) ==> r == Ok(Offset(0.0, 0.0))
    {
      var g := GotoPage(pageNum);
      if g.Err? {
        return Err(g.error);
      }
      return Ok(Offset(pageWidth, pageHeight));
    }

    /**
     * `onDestroy`: drops the display list and the page, destroys the document
     * if there is one and detaches it.
     */
    method OnDestroy()
      modifies this, doc
      ensures displayList == None && page == None && doc == null
      ensures old(doc) != null ==> old(doc).destroyed
      ensures currentPage == old(currentPage) && pageCount == old(pageCount) && addedLinks == old(addedLinks)
      ensures Valid()
    {
      displayList := None;
      page := None;
      if doc != null {
        doc.Destroy();
      }
      doc := null;
    }

    /**
     * `addPageLinks(n, links)`: nothing happens for a missing or empty link
     * array. Otherwise the cursor moves to page n and one `createLink` per
     * link is issued on the loaded page, in order; with no page loaded the
     * first one fails.
     */
    method AddPageLinks(pageNum: int, links: Option<seq<Link>>) returns (r: Result<()>)
      requires Valid()
      modifies this
      ensures Valid()
      ensures links.None? || links.value == [] ==>
        r.Ok? && currentPage == old(currentPage) && page == old(page) && addedLinks == old(addedLinks)
      ensures links.Some? && links.value != [] && r.Ok? ==>
        page.Some? && |addedLinks| == |old(addedLinks)| + |links.value| &&
        addedLinks[..|old(addedLinks)|] == old(addedLinks) &&
        forall j :: 0 <= j < |links.value| ==> addedLinks[|old(addedLinks)| + j] == (page.value, links.value[j])
      ensures links.Some? && links.value != [] && r.Ok? ==> currentPage == ClampPage(pageNum, pageCount)
    {
      if links.None? || |links.value| == 0 {
        return Ok(());
      }
      var g := GotoPage(pageNum);
      if g.Err? {
        return Err(g.error);
      }
      if page.None? {
        return Err(NullPointer);
      }
      var ls := links.value;
      var p := page.value;
      var n0 := |addedLinks|;
      var i := 0;
      while i < |ls|
        invariant 0 <= i <= |ls|
        invariant |addedLinks| == n0 + i && addedLinks[..n0] == old(addedLinks)
        invariant forall j :: 0 <= j < i ==> addedLinks[n0 + j] == (p, ls[j])
        invariant page == Some(p) && Valid()
        invariant currentPage == ClampPage(pageNum, pageCount)
      {
        addedLinks := addedLinks + [(p, ls[i])];
        i := i + 1;
      }
      return Ok(());
    }
  }
}
