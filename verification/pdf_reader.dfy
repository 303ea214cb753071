// viewer/src/main/java/com/viewer/pdf/PdfReader.kt: which page the pager shows
// at a position. In single-page mode a position shows one entry of the page
// list; in double-page mode position p shows entries 2p - 1 and 2p side by
// side, a missing entry leaving its half blank and an `Empty` entry turning
// the whole spread into an empty page.

module PdfReaderModel {
  import opened Common
  import opened Geometry

  /** `PdfReaderPage` (viewer/src/main/java/com/viewer/pdf/PdfReaderState.kt). */
  datatype ReaderPage = Empty | PdfFile(file: string, password: Option<string>)

  /** What the pager draws at a position. */
  datatype Shown =
    | Nothing                                                  // the reader has no size yet
    | EmptyPage                                                // `EmptyPage(readerState)`
    | SinglePage(pdfFile: ReaderPage)                          // `PdfSinglePage(pdfFile = page, ...)`
    | DoublePage(pdfFile1: Option<ReaderPage>, pdfFile2: Option<ReaderPage>)  // `PdfDoublePage(...)`

  /** `List.getOrNull(i)`. */
  function GetOrNull<T>(s: seq<T>, i: int): (r: Option<T>)
    ensures r.Some? <==> 0 <= i < |s|
    ensures r.Some? ==> r.value == s[i]
  {
    if 0 <= i < |s| then Some(s[i]) else None
  }

  /** Kotlin's `x !is PdfReaderPage.Empty` for a nullable entry: null passes. */
  predicate NotEmpty(page: Option<ReaderPage>) {
    page.None? || page.value.PdfFile?
  }

  /** Kotlin's `x as? PdfReaderPage.PdfFile`. */
  function AsPdfFile(page: Option<ReaderPage>): (r: Option<ReaderPage>)
    ensures r.Some? ==> r.value.PdfFile?
  {
    if page.Some? && page.value.PdfFile? then page else None
  }

  /** The left index of the spread at pager position `position`. */
  function LeftIndex(position: int): int { position * 2 - 1 }

  /** The right index of the spread at pager position `position`. */
  function RightIndex(position: int): int { position * 2 }

  /**
   * The content of the pager at `position`. The page list is indexed
   * directly in single-page mode, so the position must be one of its
   * entries there.
   */
  function PageAt(pages: seq<ReaderPage>, position: int, readerSize: IntSize, doublePage: bool): (shown: Shown)
    requires position >= 0
    requires !doublePage ==> position < |pages|
    ensures readerSize == IntSize(0, 0) <==> shown.Nothing?
    ensures readerSize != IntSize(0, 0) && !doublePage ==>
      (shown.EmptyPage? <==> pages[position].Empty?) &&
      (pages[position].PdfFile? ==> shown == SinglePage(pages[position]))
    ensures readerSize != IntSize(0, 0) && doublePage ==>
      var first := GetOrNull(pages, LeftIndex(position));
      var second := GetOrNull(pages, RightIndex(position));
      (shown.DoublePage? <==> NotEmpty(first) && NotEmpty(second)) &&
      (shown.DoublePage? ==> shown.pdfFile1 == first && shown.pdfFile2 == second) &&
      (!shown.DoublePage? ==> shown == EmptyPage)
  {
    if readerSize == IntSize(0, 0) then Nothing
    else if !doublePage then
      match pages[position]
      case PdfFile(_, _) => SinglePage(pages[position])
      case Empty => EmptyPage
    else
      var page1 := GetOrNull(pages, LeftIndex(position));
      var page2 := GetOrNull(pages, RightIndex(position));
      if NotEmpty(page1) && NotEmpty(page2) then DoublePage(AsPdfFile(page1), AsPdfFile(page2))
      else EmptyPage
  }

  /** The first spread has no left page: index -1 is outside every list. */
  lemma FirstSpreadHasNoLeftPage(pages: seq<ReaderPage>, readerSize: IntSize)
    requires readerSize != IntSize(0, 0)
    ensures var shown := PageAt(pages, 0, readerSize, true);
      shown.EmptyPage? || shown.pdfFile1 == None
    ensures |pages| >= 1 && pages[0].PdfFile? ==> PageAt(pages, 0, readerSize, true) == DoublePage(None, Some(pages[0]))
  {
  }

  /**
   * Every entry of the page list belongs to exactly one spread: entry `i`
   * is the left page of spread `(i + 1) / 2` when `i` is odd and its right
   * page when `i` is even, and no other spread takes it.
   */
  lemma {:induction false} EntryInOneSpread(i: nat)
    ensures var p := (i + 1) / 2;
      (i % 2 == 1 ==> LeftIndex(p) == i) && (i % 2 == 0 ==> RightIndex(p) == i)
    ensures forall q :: LeftIndex(q) == i || RightIndex(q) == i ==> q == (i + 1) / 2
  {
    forall q | LeftIndex(q) == i || RightIndex(q) == i
      ensures q == (i + 1) / 2
    {
      if LeftIndex(q) == i {
        assert i + 1 == 2 * q;
      } else {
        assert i + 1 == 2 * q + 1;
      }
    }
  }
}
