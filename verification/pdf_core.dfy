// viewer/src/main/java/com/viewer/pdf/PdfCore.kt: the per-file MuPDF wrapper with
// a one-page cursor. The MuPDF document is reduced to the bounds of its pages.

module PdfCoreModel {
  import opened Common
  import opened Geometry

  /** MuPDF `Page.bounds`. */
  datatype PageBounds = PageBounds(x0: real, y0: real, x1: real, y1: real)

  /** The size `gotoPage` records for a loaded page: x1 - x0 by y1 - y0. */
  function SizeOf(b: PageBounds): Offset {
    Offset(b.x1 - b.x0, b.y1 - b.y0)
  }

  /**
   * An opened MuPDF document, as far as the wrapper observes it: the bounds of
   * each page. `loadPage(i)` succeeds exactly for 0 <= i < |pages|.
   */
  datatype Document = Document(pages: seq<PageBounds>)

  /** Every page of the document is at least one point wide and tall. */
  predicate PagesSized(doc: Document) {
    forall i :: 0 <= i < |doc.pages| ==> SizeOf(doc.pages[i]).x >= 1.0 && SizeOf(doc.pages[i]).y >= 1.0
  }

  /**
   * The clamp at the head of `gotoPage`: above the last page goes to the last
   * page, below zero goes to zero. For a non-empty document the result is a
   * valid page index, and a valid index is kept.
   */
  function ClampPage(n: int, pageCount: int): (p: int)
    ensures pageCount >= 1 ==> 0 <= p < pageCount
    ensures 0 <= n < pageCount ==> p == n
    ensures n >= pageCount ==> p == pageCount - 1
    ensures n < 0 && pageCount >= 1 ==> p == 0
  {
    if n > pageCount - 1 then pageCount - 1 else if n < 0 then 0 else n
  }

  class PdfCore {
    const doc: Document
    const resolution: int
    var pageCount: int
    var currentPage: int
    /** The loaded MuPDF page, identified by its index. */
    var page: Option<int>
    var pageWidth: real
    var pageHeight: real
    /** The display list built from the loaded page, identified by the page index. */
    var displayList: Option<int>
    var docDestroyed: bool

    /**
     * The cursor invariant: a loaded page is the current page, the recorded
     * size is that of the current page whenever it is a real page, and a
     * display list only exists for the loaded page.
     */
    predicate Valid()
      reads this
    {
      pageCount == |doc.pages| &&
      (page.Some? ==> page.value == currentPage && 0 <= currentPage < pageCount) &&
      (0 <= currentPage < pageCount ==> Offset(pageWidth, pageHeight) == SizeOf(doc.pages[currentPage])) &&
      (displayList.Some? ==> page.Some? && displayList.value == page.value)
    }

    /** `PdfCore(file, password, resolution)`: the page count is read once; no page is loaded. */
    constructor (doc: Document, resolution: int)
      ensures Valid()
      ensures this.doc == doc && this.resolution == resolution
      ensures pageCount == |doc.pages| && currentPage == -1
      ensures page == None && displayList == None && !docDestroyed
    {
      this.doc := doc;
      this.resolution := resolution;
      pageCount := |doc.pages|;
      currentPage := -1;
      page := None;
      pageWidth, pageHeight := 0.0, 0.0;
      displayList := None;
      docDestroyed := false;
    }

    /**
     * `destroy`: drops the display list and the page and destroys the document.
     * The cursor position is kept.
     */
    method Destroy()
      requires Valid()
      modifies this
      ensures Valid()
      ensures displayList == None && page == None && docDestroyed
      ensures currentPage == old(currentPage) && pageWidth == old(pageWidth) && pageHeight == old(pageHeight)
    {
      displayList := None;
      page := None;
      docDestroyed := true;
    }

    /**
     * `gotoPage`: clamps the index and reloads only when the clamped index
     * differs from the current one; the old page and display list are dropped
     * first. Loading a missing page (an empty document) fails after the cursor
     * has moved.
     */
    method GotoPage(pageNumber: int) returns (r: Result<()>)
      requires Valid() && !docDestroyed
      modifies this
      ensures Valid()
      ensures var p := ClampPage(pageNumber, pageCount);
        if p == old(currentPage) then
          r.Ok? && currentPage == old(currentPage) && page == old(page) && displayList == old(displayList) &&
          pageWidth == old(pageWidth) && pageHeight == old(pageHeight)
        else
          currentPage == p && displayList == None &&
          (if 0 <= p < pageCount then r.Ok? && page == Some(p) && Offset(pageWidth, pageHeight) == SizeOf(doc.pages[p])
           else r == Err(IndexOutOfBounds) && page == None)
      ensures pageCount == old(pageCount) && docDestroyed == old(docDestroyed)
    {
      var pageNum := pageNumber;
      if pageNum > pageCount - 1 {
        pageNum := pageCount - 1;
      } else if pageNum < 0 {
        pageNum := 0;
      }
      if pageNum != currentPage {
        currentPage := pageNum;
        page := None;
        displayList := None;
        if !(0 <= pageNum < |doc.pages|) {
          return Err(IndexOutOfBounds);
        }
        page := Some(pageNum);
        var b := doc.pages[pageNum];
        pageWidth := b.x1 - b.x0;
        pageHeight := b.y1 - b.y0;
      }
      return Ok(());
    }

    /**
     * `getPageSize(n)`: the size of the clamped page n. For a non-empty
     * document this is always the size recorded in the document.
     */
    method GetPageSize(pageNum: int) returns (r: Result<Offset>)
      requires Valid() && !docDestroyed
      modifies this
      ensures Valid()
      ensures pageCount >= 1 ==> r == Ok(SizeOf(doc.pages[ClampPage(pageNum, pageCount)]))
      ensures pageCount >= 1 ==> currentPage == ClampPage(pageNum, pageCount)
      ensures pageCount == old(pageCount) && docDestroyed == old(docDestroyed)
    {
      var g := GotoPage(pageNum);
      if g.Err? {
        return Err(g.error);
      }
      return Ok(Offset(pageWidth, pageHeight));
    }

    /**
     * `drawPage`: moves the cursor, builds the display list if a page is loaded
     * and none exists yet, and returns without drawing when there is still no
     * display list or no page. `drawn` says whether the (opaque) MuPDF
     * rendering ran.
     */
    method DrawPage(pageNum: int) returns (r: Result<bool>)
      requires Valid() && !docDestroyed
      modifies this
      ensures Valid()
      ensures r.Ok? ==> currentPage == ClampPage(pageNum, pageCount)
      ensures r == Ok(true) <==> page.Some? && displayList == page && r.Ok?
      ensures r.Ok? && page.Some? ==> r == Ok(true)
      ensures pageCount >= 1 ==> r == Ok(true) || (r == Ok(false) && page == None)
      ensures pageCount == old(pageCount) && docDestroyed == old(docDestroyed)
    {
      var g := GotoPage(pageNum);
      if g.Err? {
        return Err(g.error);
      }
      if displayList == None && page.Some? {
        displayList := page;
      }
      if displayList == None || page == None {
        return Ok(false);
      }
      return Ok(true);
    }
  }
}
