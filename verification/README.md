# ReaderPdf viewer core, modelled in Dafny

ReaderPdf is an Android PDF viewer built on MuPDF. It renders each page into a
bitmap fitted to the reader and places two pages side by side in double-page
mode. While the user zooms it re-renders only the visible window, and it maps
taps on a page to the links under the finger. The repository keeps several
revisions of the same screens, and each revision is its own module here:

- `PageLinks`: `PdfPageLinks`, a base list of (bounds, uri) links with an
  optional zoom-scaled copy, and first-match hit-testing.
- `UnitConversions`: `Rect.toIntRect` and `Rect.scale`, which round a
  rectangle outward to whole pixels.
- `PageLayout`: the page fit shared by every page state. It compares an
  integer reader ratio with the page's ratio, merges two pages into one
  spread, and sizes the zoomed content.
- `DoublePageStateV1` and `DoublePageStateV2`: the two revisions of the
  two-page spread. They cover the spread layout, the merged bitmap and links,
  splitting a zoom window into one part per page, and where the zoomed parts
  are drawn.
- `PageState`, `SinglePageStateV1`, `SinglePageStateV2` and
  `ZoomedBitmapCache`: the page-state holders. They cover the one-slot zoomed
  bitmap cache, link scaling, tap dispatch, and the guard of the zoomed
  refresh.
- `PdfCoreModel` and `LegacyCore`: the two MuPDF wrappers. Each is a page
  cursor that clamps the index, reloads only on a change of page, and lays out
  again only on a change of layout parameters.
- `ZoomMath`, `ZoomStateV1` and `ZoomStateV2`: the two revisions of
  `ZoomState`. They cover the aspect-preserving fit, scale clamps, symmetric
  pan bounds, and the memoised "consume or pass to the pager" decision.
- `PageViewModel`, `PageAdapterModel` and `StepperModel`: the legacy view
  pager. They cover when the high-quality patch is rendered, redrawn or
  dropped, the page-size and link caches with their stale-view check, and the
  coalescing stepper.
- `PdfReaderModel`: which page or spread the pager shows at a position.

Bitmaps are objects with a width, a height and a recycled flag; creating one
with a side that is not positive fails with `IllegalArgument`, as
`Bitmap.createBitmap` throws. Drawing a bitmap on a canvas is recorded as a
`Placement`, and a MuPDF `drawPage` call is recorded as its arguments. Kotlin
`Float` is `real`: `toInt` is truncation, `floor` and `ceil` are exact. Kotlin
`Int` division is modelled with its exception for a zero divisor. Each
coroutine body is its own method: `RefreshZoomedContent` returns what the
source computes before `launch`, and `CompleteZoomedContent` performs the job,
with `isActive` as a parameter. `readerState.getContentForCurrentLayout` keeps
or swaps the (left, right) pair; it is the `reverse` flag.

## Model

Paths are relative to the repository root.

| member | source | states |
|---|---|---|
| UnitConversions.ToIntRect | viewer/src/main/java/com/viewer/pdf/util/UnitConversions.kt:8-15 | the integer rectangle encloses the input, each edge moves by less than one, and a rectangle with whole coordinates is mapped to itself |
| UnitConversions.Scale | viewer/src/main/java/com/viewer/pdf/util/UnitConversions.kt:17-24 | the scaled rectangle has whole coordinates, encloses the exactly scaled rectangle, each edge is within one of it, and a non-negative factor keeps a non-empty rectangle non-empty |
| UnitConversions.ToIntRectOfScale | viewer/src/main/java/com/viewer/pdf/util/UnitConversions.kt:8-24 | `toIntRect` after `scale` adds no further rounding |
| UnitConversions.ScaleTwiceEncloses | viewer/src/main/java/com/viewer/pdf/util/UnitConversions.kt:17-24 | scaling by a and then by b, with non-negative factors, still encloses the rectangle scaled exactly by a·b |
| PageLinks.ScaleLinks | viewer/src/main/java/com/viewer/pdf/PdfPageLinks.kt:35-39 | scaling a link list keeps its length, its order and every uri; each bounds is the rectangle scaled and rounded outward |
| PageLinks.FirstContaining | viewer/src/main/java/com/viewer/pdf/PdfPageLinks.kt:26-33 | the index found is that of a link containing the point with no earlier link containing it; none is found exactly when no link contains the point |
| PageLinks.LinkAt | viewer/src/main/java/com/viewer/pdf/PdfPageLinks.kt:26-33 | no link is found exactly when no link contains the point; otherwise the link found contains it and no earlier link does |
| PageLinks.ScaleLinksTwice | viewer/src/main/java/com/viewer/pdf/PdfPageLinks.kt:13-16 | `setBaseScale` twice composes: each link keeps its uri and its bounds enclose the bounds scaled by the product |
| PageLinks.PdfPageLinks.constructor | viewer/src/main/java/com/viewer/pdf/PdfPageLinks.kt:7-11 | a new holder has the given base links and no scaled copy |
| PageLinks.PdfPageLinks.SetBaseScale | viewer/src/main/java/com/viewer/pdf/PdfPageLinks.kt:13-16 | the base links become the old base links scaled, and the scaled copy is cleared |
| PageLinks.PdfPageLinks.Scale | viewer/src/main/java/com/viewer/pdf/PdfPageLinks.kt:18-20 | the scaled copy becomes the base links scaled, so it is not cumulative; the base links are unchanged |
| PageLinks.PdfPageLinks.ResetScale | viewer/src/main/java/com/viewer/pdf/PdfPageLinks.kt:22-24 | only the scaled copy is cleared |
| PageLinks.PdfPageLinks.FindLink | viewer/src/main/java/com/viewer/pdf/PdfPageLinks.kt:26-33 | the link found is the first containing link of the scaled copy when there is one, else of the base links; the loop is proved against `FirstContaining` |
| PdfCoreModel.ClampPage | viewer/src/main/java/com/viewer/pdf/PdfCore.kt:39-40 | an index above the last page becomes the last page, a negative one becomes 0, an index in range is kept, and the result lies in range whenever there is a page |
| PdfCoreModel.PdfCore.constructor | viewer/src/main/java/com/viewer/pdf/PdfCore.kt:14-26 | the page count is the document's, the cursor starts at -1, and no page or display list is loaded |
| PdfCoreModel.PdfCore.Destroy | viewer/src/main/java/com/viewer/pdf/PdfCore.kt:28-35 | the display list and the page are dropped and the document destroyed; the cursor and the page size stay |
| PdfCoreModel.PdfCore.GotoPage | viewer/src/main/java/com/viewer/pdf/PdfCore.kt:37-52 | nothing changes when the clamped index is the current page; otherwise the display list is dropped, the cursor moves, and the page is loaded with its size taken from its bounds, or the call fails for an empty document |
| PdfCoreModel.PdfCore.GetPageSize | viewer/src/main/java/com/viewer/pdf/PdfCore.kt:54-58 | the size returned is that of the clamped page, which becomes the current page |
| PdfCoreModel.PdfCore.DrawPage | viewer/src/main/java/com/viewer/pdf/PdfCore.kt:60-69 | the page is drawn exactly when after `gotoPage` there is both a page and a display list; otherwise it returns without drawing |
| LegacyCore.PDFCore.constructor | viewer/src/main/java/com/viewer/PDFCore.kt:9-34 | the document is laid out with the default parameters, the resolution is 160, the cursor is -1 and the page count is the document's |
| LegacyCore.PDFCore.Refresh | viewer/src/main/java/com/viewer/PDFCore.kt:28-34 | the document is laid out with the stored parameters, the resolution is 160, the cursor is reset to -1 and the page count is reread |
| LegacyCore.PDFCore.Layout | viewer/src/main/java/com/viewer/PDFCore.kt:55-69 | unchanged parameters return the old page and change nothing; changed ones are stored, re-lay out the document, reset the cursor and return the relocated page, and a missing document throws |
| LegacyCore.PDFCore.GotoPage | viewer/src/main/java/com/viewer/PDFCore.kt:71-93 | nothing changes when the clamped index is the current page; otherwise the cursor moves, the display list is dropped, and the page is loaded with its size, or with no document the page is null and the size 0 |
| LegacyCore.PDFCore.GetPageSize | viewer/src/main/java/com/viewer/PDFCore.kt:95-99 | the size returned is that of the clamped page, or 0 with no document |
| LegacyCore.PDFCore.OnDestroy | viewer/src/main/java/com/viewer/PDFCore.kt:101-109 | the display list, the page and the document are dropped, and the document is destroyed |
| LegacyCore.PDFCore.AddPageLinks | viewer/src/main/java/com/viewer/PDFCore.kt:154-162 | null or empty links change nothing; otherwise the page is loaded and every link is appended in order, tagged with that page |
| PageLayout.AspectRatio | viewer/src/main/java/com/viewer/pdf/page/single/PdfSinglePageState.kt:51 | the reader ratio is integer division and throws for a reader of height 0 |
| PageLayout.PageFit | viewer/src/main/java/com/viewer/pdf/page/single/PdfSinglePageState.kt:51-59 | the fitted page fills the reader on one side; `PageFitWide` and `PageFitNarrow` say which side and the size of the other |
| PageLayout.Fit | viewer/src/main/java/com/viewer/pdf/double/PdfDoublePageState.kt:99-123 | a fitted size exists exactly for a page that is present |
| PageLayout.PageFitWide | viewer/src/main/java/com/viewer/pdf/page/single/PdfSinglePageState.kt:55-56 | a page relatively wider than the reader takes the reader's width, and its height is the proportional height, truncated |
| PageLayout.PageFitNarrow | viewer/src/main/java/com/viewer/pdf/page/single/PdfSinglePageState.kt:57-58 | any other page takes the reader's height, and its width is the proportional width, truncated |
| PageLayout.NarrowPageFitsReader | viewer/src/main/java/com/viewer/pdf/page/single/PdfSinglePageState.kt:51-59 | a page fitted to the reader's height stays within the reader's width |
| PageLayout.WidePageOvershootsReader | viewer/src/main/java/com/viewer/pdf/page/single/PdfSinglePageState.kt:51-59 | because the reader ratio truncates, a 1100 x 1000 page in a 1000 x 800 reader is fitted 909 tall, taller than the reader |
| PageLayout.MergedSize | viewer/src/main/java/com/viewer/pdf/double/PdfDoublePageState.kt:131-139 | the merged size fails with `IllegalState` exactly when there is no page |
| PageLayout.ContentSize | viewer/src/main/java/com/viewer/pdf/page/single/PdfSinglePageState.kt:108-109 | each side of the zoomed content is at most the scaled side and at most the reader's side, and equals one of them |
| PageLayout.ZoomedContentPositive | viewer/src/main/java/com/viewer/pdf/page/single/PdfSinglePageState.kt:103-109 | a scale above 1 never shrinks the entire bitmap, and the content has positive sides when the bitmap and the reader have |
| PageLayout.PatchRequestFor | viewer/src/main/java/com/viewer/pdf/page/single/PdfSinglePageState.kt:98-113 | the request holds the scaled bitmap and the content cut to the reader, which is positive for a positive bitmap and reader at a scale above 1 |
| ZoomedBitmapCache.BitmapCache.constructor | viewer/src/main/java/com/viewer/pdf/page/single/PdfSinglePageState.kt:28-42 | the cache starts empty |
| ZoomedBitmapCache.BitmapCache.GetZoomedBitmap | viewer/src/main/java/com/viewer/pdf/page/single/PdfSinglePageState.kt:85-96 | on a hit the cached bitmap itself is returned and stays cached; otherwise the old one is recycled and a fresh bitmap of the requested size is created and cached, or creation fails and the cache is empty; a bitmap returned always has the requested size |
| PageState.UriAt | viewer/src/main/java/com/viewer/pdf/page/PdfPageState.kt:58-63 | no uri exactly when no link contains the point; a uri found belongs to a link containing the point |
| PageState.PdfPageState.constructor | viewer/src/main/java/com/viewer/pdf/page/PdfPageState.kt:15-51 | a new state has no entire bitmap, no links and no zoomed bitmap |
| PageState.PdfPageState.ClearZoomedContent | viewer/src/main/java/com/viewer/pdf/page/PdfPageState.kt:53-56 | the zoomed bitmap is dropped and the link scale reset, the base links intact |
| PageState.PdfPageState.HandleClick | viewer/src/main/java/com/viewer/pdf/page/PdfPageState.kt:58-64 | one click per tap, at the tap's position, carrying the uri of the link at the offset in content, or none without links or hit |
| PageState.PdfPageState.Dispose | viewer/src/main/java/com/viewer/pdf/page/PdfPageState.kt:66-69 | both bitmaps are dropped and the links are left alone |
| SinglePageStateV2.LinkScaleFitsBitmap | viewer/src/main/java/com/viewer/pdf/page/single/PdfSinglePageState.kt:66-70 | the base link scale maps the page's height onto the bitmap's height, and a page fitted to the reader's width stays within the bitmap's width |
| SinglePageStateV2.PdfSinglePageState.constructor | viewer/src/main/java/com/viewer/pdf/page/single/PdfSinglePageState.kt:28-42 | nothing is loaded and the cache is empty |
| SinglePageStateV2.PdfSinglePageState.Init | viewer/src/main/java/com/viewer/pdf/page/single/PdfSinglePageState.kt:44-83 | the page is fitted to the reader and drawn at the fitted size; the links' base scale is bitmap height over page height; the zoom state takes the bitmap as content and the reader as layout; a reader of height 0 or an empty fitted side fails and leaves the entire bitmap, the links and the zoom state's content, layout and fit sizes unchanged |
| SinglePageStateV2.PdfSinglePageState.RefreshZoomedContent | viewer/src/main/java/com/viewer/pdf/page/single/PdfSinglePageState.kt:98-115 | no request without an entire bitmap, while unsettled, or at a scale of at most 1; otherwise the request for the current pan position |
| SinglePageStateV2.PdfSinglePageState.CompleteZoomedContent | viewer/src/main/java/com/viewer/pdf/page/single/PdfSinglePageState.kt:115-133 | the cached bitmap of the content size is drawn into, the links are scaled by the zoom with the base kept, and the bitmap is shown unless cancelled; it fails only on a cache miss with an empty content size |
| SinglePageStateV1.ScaleLinksXY | viewer/src/main/java/com/viewer/pdf/single/PdfSinglePageState.kt:94-106 | each link keeps its uri and position in the list, and its bounds are scaled by one factor on x and another on y |
| SinglePageStateV1.ScaleLinksXYTwice | viewer/src/main/java/com/viewer/pdf/single/PdfSinglePageState.kt:171-181 | zoomed links, the entire links scaled again by the zoom, equal the page links scaled once by the product |
| SinglePageStateV1.ContainingUris | viewer/src/main/java/com/viewer/pdf/single/PdfSinglePageState.kt:198-205 | a uri is dispatched for every link containing the point, and every uri dispatched is that of a containing link; there are at most as many as links |
| SinglePageStateV1.HitIndices | viewer/src/main/java/com/viewer/pdf/single/PdfSinglePageState.kt:198-205 | the indices of the containing links: each in range and containing the point, strictly increasing, and none missing |
| SinglePageStateV1.UrisFollowHits | viewer/src/main/java/com/viewer/pdf/single/PdfSinglePageState.kt:198-205 | one uri per containing link, in list order: the k-th uri dispatched is the uri of the k-th containing link |
| SinglePageStateV1.ZoomedTapMatchesEntire | viewer/src/main/java/com/viewer/pdf/single/PdfSinglePageState.kt:171-205 | a tap on the zoomed links dispatches the same uris as the corresponding tap on the entire links |
| SinglePageStateV1.PdfSinglePageState.constructor | viewer/src/main/java/com/viewer/pdf/single/PdfSinglePageState.kt:30-67 | nothing is loaded, no links, and the cache is empty |
| SinglePageStateV1.PdfSinglePageState.Init | viewer/src/main/java/com/viewer/pdf/single/PdfSinglePageState.kt:69-117 | the page size is the truncated clamped page's size; the page is fitted and drawn; the links are scaled by bitmap over page size on each axis; the zoom state takes the bitmap and the reader; the page size is stored before anything can fail, as the source does, and a failure leaves the entire bitmap, the links and the zoom state's content, layout and fit sizes unchanged |
| SinglePageStateV1.PdfSinglePageState.Dispose | viewer/src/main/java/com/viewer/pdf/single/PdfSinglePageState.kt:119-125 | both bitmaps are recycled and dropped and the core is destroyed |
| SinglePageStateV1.PdfSinglePageState.RefreshZoomedContent | viewer/src/main/java/com/viewer/pdf/single/PdfSinglePageState.kt:140-157 | no request without an entire bitmap, while unsettled, or at a scale of at most 1; otherwise the request for the current pan position |
| SinglePageStateV1.PdfSinglePageState.CompleteZoomedContent | viewer/src/main/java/com/viewer/pdf/single/PdfSinglePageState.kt:157-190 | the cached bitmap of the content size is drawn into, and unless cancelled it becomes the zoomed bitmap and the entire links scaled by the zoom become the zoomed links |
| SinglePageStateV1.PdfSinglePageState.ClearZoomedContent | viewer/src/main/java/com/viewer/pdf/single/PdfSinglePageState.kt:193-196 | the zoomed bitmap and the zoomed links are dropped |
| SinglePageStateV1.PdfSinglePageState.HandleClick | viewer/src/main/java/com/viewer/pdf/single/PdfSinglePageState.kt:198-205 | the uris dispatched are those of the zoomed links when present, else of the entire links, that contain the tap's offset in content |
| DoublePageStateV1.ReaderAspectRatio | viewer/src/main/java/com/viewer/pdf/double/PdfDoublePageState.kt:93-94 | the ratio is half the reader's width over its height in integer division, and throws for a height of 0 |
| DoublePageStateV1.NarrowPageFitsHalfReader | viewer/src/main/java/com/viewer/pdf/double/PdfDoublePageState.kt:99-112 | a page fitted to the reader's height stays within half the reader's width |
| DoublePageStateV1.WidePageOvershootsReader | viewer/src/main/java/com/viewer/pdf/double/PdfDoublePageState.kt:101-108 | for a 1000 x 800 reader the half-reader ratio truncates to 0, so a 400 x 800 page is fitted to the full reader width at 1000 x 2000, wider than its half and taller than the reader |
| DoublePageStateV1.SpreadFillsMergedBitmap | viewer/src/main/java/com/viewer/pdf/double/PdfDoublePageState.kt:131-156 | every page lies in the merged bitmap; page 1 starts at its left edge; page 2 ends at its right edge and starts where page 1 ends; the tallest page sets the height; a lone page fills its half |
| DoublePageStateV1.SecondPageRectAsWritten | viewer/src/main/java/com/viewer/pdf/double/PdfDoublePageState.kt:126-127 | page 2's rectangle as the source records it: from page 1's width, or from 0 without page 1, as wide and tall as the fitted page |
| DoublePageStateV1.LoneSecondPageRectMisplaced | viewer/src/main/java/com/viewer/pdf/double/PdfDoublePageState.kt:126-127 | a lone right page's rectangle as written starts at 0 though its bitmap is drawn at its own width |
| DoublePageStateV1.SecondPageRectMatchesDraw | viewer/src/main/java/com/viewer/pdf/double/PdfDoublePageState.kt:126-155 | the corrected rectangle of page 2 has the position and width at which bitmap 2 is drawn, with or without page 1 |
| DoublePageStateV1.ZoomBounds | viewer/src/main/java/com/viewer/pdf/double/PdfDoublePageState.kt:270-291 | a part for a missing page is the empty `Rect()` |
| DoublePageStateV1.ZoomPartsKeepRows | viewer/src/main/java/com/viewer/pdf/double/PdfDoublePageState.kt:270-291 | for a window of positive width each part is empty or has positive width and the window's rows; a non-empty part needs such a window |
| DoublePageStateV1.ZoomBoundsTile | viewer/src/main/java/com/viewer/pdf/double/PdfDoublePageState.kt:270-291 | with page 2 starting where page 1 ends, or before the window without page 1, the part widths sum to the window's width |
| DoublePageStateV1.ZoomBoundsTileColumn | viewer/src/main/java/com/viewer/pdf/double/PdfDoublePageState.kt:270-291 | in that layout a column is in the window exactly when it is in one part, page 2's part counted from page 2's left edge, and never in both |
| DoublePageStateV1.ZoomBoundsWithinWindow | viewer/src/main/java/com/viewer/pdf/double/PdfDoublePageState.kt:270-291 | with page 2 at or after page 1's end the part widths are non-negative and together no wider than the window |
| DoublePageStateV1.AxisWithin | viewer/src/main/java/com/viewer/pdf/double/PdfDoublePageState.kt:168-184 | along either axis the zoomed side is within the reader and the scaled side, and positive for a non-empty bitmap and reader; the window starts at or after 0, is no longer than the entire bitmap, and at most the zoomed side over the scale |
| DoublePageStateV1.AxisFor | viewer/src/main/java/com/viewer/pdf/double/PdfDoublePageState.kt:168-184 | one axis of the request: the entire side times the scale, truncated; that side cut to the reader; the pan position and the cut side each over the scale, truncated (bounds in `AxisWithin`) |
| DoublePageStateV1.RequestFor | viewer/src/main/java/com/viewer/pdf/double/PdfDoublePageState.kt:168-185 | the request holds both axes, the window they span over the entire bitmap and its two `getZoomBounds` parts (its bounds in `RequestIsSane`) |
| DoublePageStateV1.RequestIsSane | viewer/src/main/java/com/viewer/pdf/double/PdfDoublePageState.kt:163-185 | a request over a laid-out spread at a scale above 1 and a position inside the bounds has positive sides and parts that fit side by side in the window |
| DoublePageStateV1.SaneDrawsFit | viewer/src/main/java/com/viewer/pdf/double/PdfDoublePageState.kt:193-257 | for such a request every part bitmap has positive width and the parts lie side by side inside the zoomed bitmap |
| DoublePageStateV1.TotalPercentsAsWritten | viewer/src/main/java/com/viewer/pdf/double/PdfDoublePageState.kt:193-221 | the shares as written throw a null-pointer exception exactly when a page rectangle is missing |
| DoublePageStateV1.LonePageZoomThrows | viewer/src/main/java/com/viewer/pdf/double/PdfDoublePageState.kt:188-221 | with a lone right page, a zoom window over it gives it a non-empty part, and its job throws |
| DoublePageStateV1.TotalPercentAgrees | viewer/src/main/java/com/viewer/pdf/double/PdfDoublePageState.kt:194-221 | where both rectangles exist, the corrected share equals the written one |
| DoublePageStateV1.RenderedAtZoomScale | viewer/src/main/java/com/viewer/pdf/double/PdfDoublePageState.kt:201-205 | with the corrected share a page is rendered no wider than its own width times the scale and less than two pixels narrower |
| DoublePageStateV1.PdfDoublePageState.constructor | viewer/src/main/java/com/viewer/pdf/double/PdfDoublePageState.kt:30-71 | nothing is loaded and no page rectangle is recorded |
| DoublePageStateV1.PdfDoublePageState.GetPageBitmap | viewer/src/main/java/com/viewer/pdf/double/PdfDoublePageState.kt:92-161 | the exceptions in source order (reader ratio, bitmap 1, bitmap 2, no page), page 1's rectangle recorded as it is fitted and page 2's with the corrected `SecondPageRect` (see Left out), and on success a fresh merged bitmap of the merged size with the two pages drawn side by side |
| DoublePageStateV1.PdfDoublePageState.Init | viewer/src/main/java/com/viewer/pdf/double/PdfDoublePageState.kt:73-90 | under `reverseLayout` the pages are swapped; it succeeds exactly when the ratio is defined, both fitted pages are positive and one exists; page 1's rectangle is the first fitted page at the origin and page 2's follows it by `SecondPageRect`, each only when that page exists; the merged bitmap becomes the entire bitmap and the zoom state takes its size and the reader; a failure leaves no entire bitmap and the zoom state's sizes unchanged |
| DoublePageStateV1.PdfDoublePageState.RefreshZoomedContent | viewer/src/main/java/com/viewer/pdf/double/PdfDoublePageState.kt:163-186 | no request without an entire bitmap, while unsettled, or at a scale of at most 1; otherwise the request for the window the reader shows |
| DoublePageStateV1.PdfDoublePageState.CompleteZoomedContent | viewer/src/main/java/com/viewer/pdf/double/PdfDoublePageState.kt:187-266 | one part bitmap per page with a core and a non-empty part, rendered with the corrected share and drawn side by side on a bitmap of the zoomed size, shown unless cancelled; it fails exactly when a bitmap side is not positive |
| DoublePageStateV1.PdfDoublePageState.Dispose | viewer/src/main/java/com/viewer/pdf/double/PdfDoublePageState.kt:293-301 | both bitmaps are dropped and the layout invariant is kept |
| DoublePageStateV2.GetPageContent | viewer/src/main/java/com/viewer/pdf/page/double/PdfDoublePageState.kt:140-172 | the page is fitted into half of the reader; it fails exactly when a fitted side is not positive; the bounds are the bitmap's rectangle at the origin and the links are scaled by bitmap height over page height |
| DoublePageStateV2.NarrowPageFitsHalf | viewer/src/main/java/com/viewer/pdf/page/double/PdfDoublePageState.kt:146-154 | a page fitted to the reader's height stays within half the reader's width |
| DoublePageStateV2.LoadContent | viewer/src/main/java/com/viewer/pdf/page/double/PdfDoublePageState.kt:75-83 | a missing core gives no content; a present one gives its page content or its failure |
| DoublePageStateV2.RightPageOffset | viewer/src/main/java/com/viewer/pdf/page/double/PdfDoublePageState.kt:91-95 | the offset is the left page's width, else the right page's, and it throws `IllegalState` exactly when both are missing |
| DoublePageStateV2.TranslateLinks | viewer/src/main/java/com/viewer/pdf/page/double/PdfDoublePageState.kt:129-135 | each shifted link keeps its uri, is moved across only, and contains a point exactly when the original contains the point shifted back |
| DoublePageStateV2.MergeLinks | viewer/src/main/java/com/viewer/pdf/page/double/PdfDoublePageState.kt:129-135 | the merged links are the left links in order followed by the right links shifted, none dropped or added |
| DoublePageStateV2.DoublePageLayout | viewer/src/main/java/com/viewer/pdf/page/double/PdfDoublePageState.kt:68-138 | the failures (height 0, no page, empty fitted side); on success the merged bitmap is positive, both draws lie inside it without overlap, the left page sits at the origin, the right page starts where it ends or alone one page width in, and the link count is the sum |
| DoublePageStateV2.AssembleLayout | viewer/src/main/java/com/viewer/pdf/page/double/PdfDoublePageState.kt:90-137 | with no page at all it throws `IllegalState`; otherwise the merged bitmap is positive, both draws lie inside it without overlap, the left page sits at the origin, the right page starts where it ends or alone one page width in, and no link is lost or added |
| DoublePageStateV2.MergedSizePositive | viewer/src/main/java/com/viewer/pdf/page/double/PdfDoublePageState.kt:105-113 | merging positive pages gives a positive merged size |
| DoublePageStateV2.ScaledPageRect | viewer/src/main/java/com/viewer/pdf/page/double/PdfDoublePageState.kt:251-268 | the scaled page rectangle is rounded outward: its left edge is the floor and its right edge the ceiling of the scaled edges |
| DoublePageStateV2.LeftPart | viewer/src/main/java/com/viewer/pdf/page/double/PdfDoublePageState.kt:249-264 | the left part holds exactly the window's pixels left of the page's edge, or is the zero rectangle when the window lies wholly right of it |
| DoublePageStateV2.RightPart | viewer/src/main/java/com/viewer/pdf/page/double/PdfDoublePageState.kt:266-281 | the right part holds exactly the window's pixels from the page's edge on, counted from that edge, or is the zero rectangle when the window lies wholly left of it |
| DoublePageStateV2.PartsCoverWindow | viewer/src/main/java/com/viewer/pdf/page/double/PdfDoublePageState.kt:248-284 | when the right page starts where the left one ends, every window pixel is in the left part or in the right part |
| DoublePageStateV2.GetPagesBounds | viewer/src/main/java/com/viewer/pdf/page/double/PdfDoublePageState.kt:248-284 | a pixel is in the left part exactly when the left page exists and the pixel is a window pixel left of the scaled left page's right edge; a pixel is in the right part exactly when the right page exists and, shifted by the scaled right page's left edge, it is a window pixel at or right of that edge |
| DoublePageStateV2.SpreadRequestFor | viewer/src/main/java/com/viewer/pdf/page/double/PdfDoublePageState.kt:178-193 | the content is the scaled spread cut to the reader, positive at a scale above 1; the window is the pan rectangle rounded outward; the parts are `getPagesBounds` of it |
| DoublePageStateV2.WindowWidth | viewer/src/main/java/com/viewer/pdf/page/double/PdfDoublePageState.kt:191-192 | the window is the content width wide, or one column wider for a pan position that is not whole |
| DoublePageStateV2.ZoomedSpreadAligned | viewer/src/main/java/com/viewer/pdf/page/double/PdfDoublePageState.kt:221-231 | with the corrected rule the right bitmap lands on its own column of the window, overlaps the left bitmap by at most the shared column, and reaches the content's end |
| DoublePageStateV2.RightPageMisdrawn | viewer/src/main/java/com/viewer/pdf/page/double/PdfDoublePageState.kt:221-231 | a concrete window where the pages share no column yet the rule as written draws the right bitmap one column too far left |
| DoublePageStateV2.StartXAsWritten | viewer/src/main/java/com/viewer/pdf/page/double/PdfDoublePageState.kt:221-231 | the right bitmap's x as the source computes it: one column left of the left bitmap's end when the two widths exceed the content width, at its end otherwise, flush right without a left bitmap |
| DoublePageStateV2.StartXAsWrittenOffByOne | viewer/src/main/java/com/viewer/pdf/page/double/PdfDoublePageState.kt:221-231 | the rule as written agrees with the corrected one except when the window is one column wider than the content and no column is shared; there it is one less |
| DoublePageStateV2.PdfDoublePageState.constructor | viewer/src/main/java/com/viewer/pdf/page/double/PdfDoublePageState.kt:38-50 | nothing is loaded and no page rectangle is recorded |
| DoublePageStateV2.PdfDoublePageState.GetDoublePageContent | viewer/src/main/java/com/viewer/pdf/page/double/PdfDoublePageState.kt:68-138 | the outcome is `DoublePageLayout`'s content: the failure changes no rectangle; on success a fresh merged bitmap of that size, the merged links, the draws and the page rectangles |
| DoublePageStateV2.PdfDoublePageState.Init | viewer/src/main/java/com/viewer/pdf/page/double/PdfDoublePageState.kt:52-66 | the merged bitmap becomes the entire bitmap and the merged links the fresh page links, and the zoom state takes the bitmap and the reader; a failure leaves the entire bitmap, the page links, both page rectangles and the zoom state's content, layout and fit sizes unchanged |
| DoublePageStateV2.PdfDoublePageState.ShowContent | viewer/src/main/java/com/viewer/pdf/page/double/PdfDoublePageState.kt:58-64 | the bitmap becomes the entire bitmap, fresh page links at their base scale hold the merged links, and the zoom state takes the bitmap's size as content and the reader's as layout, keeping its invariant |
| DoublePageStateV2.PdfDoublePageState.RefreshZoomedContent | viewer/src/main/java/com/viewer/pdf/page/double/PdfDoublePageState.kt:174-193 | no request without an entire bitmap, while unsettled, or at a scale of at most 1; otherwise the request for the current pan position |
| DoublePageStateV2.PdfDoublePageState.CompleteZoomedContent | viewer/src/main/java/com/viewer/pdf/page/double/PdfDoublePageState.kt:195-297 | it fails exactly for an empty content size; otherwise the pages with a core and a non-empty part are rendered and drawn, the right one at the corrected x; the links are scaled by the zoom; the bitmap is shown unless cancelled |
| DoublePageStateV2.RenderSpread | viewer/src/main/java/com/viewer/pdf/page/double/PdfDoublePageState.kt:196-233 | creating a bitmap fails exactly for an empty content size; otherwise the parts drawn and their places are those of `ZoomedSpreadFor`, on a fresh bitmap of the content size |
| DoublePageStateV2.ZoomedSpreadFor | viewer/src/main/java/com/viewer/pdf/page/double/PdfDoublePageState.kt:196-233 | a page is rendered and drawn only when it exists and its part is non-empty; the left bitmap at the origin, the right one at the corrected `StartX`, both at the content height (alignment in `ZoomedSpreadAligned`) |
| ZoomMath.FitContentSize | viewer/src/main/java/com/viewer/pdf/zoomable/ZoomState.kt:94-113 | an empty layout gives an empty fit, and an empty content gives the layout |
| ZoomMath.FitContentSizeFits | viewer/src/main/java/com/viewer/pdf/zoomable/ZoomState.kt:105-112 | the fit lies inside the layout, keeps the content's aspect ratio, and touches the layout on one side |
| ZoomMath.OffsetBound | viewer/src/main/java/com/viewer/pdf/zoomable/ZoomState.kt:204-211 | the pan bound is non-negative, is zero exactly when the content fits the layout, and is otherwise half the overhang |
| ZoomMath.ScaledBound | viewer/src/main/java/com/viewer/presenter/pager/zoomable/ZoomState.kt:209-217 | the pan bound is non-negative and zero exactly when the scaled fit fits the layout |
| ZoomMath.TapLandsInsideContent | viewer/src/main/java/com/viewer/pdf/zoomable/ZoomState.kt:280-285 | a tap inside the layout, with the offset within its bounds, maps to a point inside the zoomed content |
| ZoomMath.DragDirectionsExclusive | viewer/src/main/java/com/viewer/presenter/pager/zoomable/ZoomState.kt:164-188 | no drag is both horizontal and vertical, and a still pan is neither |
| ZoomMath.WithBound | viewer/src/main/java/com/viewer/pdf/zoomable/ZoomState.kt:205-211 | `updateBounds(-b, b)` replaces the bounds; a value at rest is coerced into [-b, b] at once (kept when already inside, else moved to the nearer end), and a running animation keeps its value |
| ZoomMath.Coerce | viewer/src/main/java/com/viewer/pdf/zoomable/ZoomState.kt:204-214 | an animated value is kept within its bounds, and a value already within them is kept as it is |
| ZoomMath.SnapWithinBound | viewer/src/main/java/com/viewer/pdf/zoomable/ZoomState.kt:204-214 | snapping under the symmetric bound b clamps the value to [-b, b] and keeps the bounds symmetric |
| ZoomMath.BoundOf | viewer/src/main/java/com/viewer/pdf/zoomable/ZoomState.kt:51-55 | `boundsX`/`boundsY` is non-negative, the upper bound of a symmetric offset, and 0 without bounds |
| ZoomStateV1.Decide | viewer/src/main/java/com/viewer/pdf/zoomable/ZoomState.kt:156-179 | a pinch is always consumed, a one-finger gesture at scale 1 never, and otherwise it is consumed unless it is a horizontal drag towards the edge the offset sits on |
| ZoomStateV1.PinchKeepsPointUnderFinger | viewer/src/main/java/com/viewer/pdf/zoomable/ZoomState.kt:197-202 | the pinch offset keeps the content point under the finger, moved by the pan, scaled with the content |
| ZoomStateV1.ZoomState.constructor | viewer/src/main/java/com/viewer/pdf/zoomable/ZoomState.kt:25-66 | it needs a maximum scale of at least 1; scale 1, no offset bounds, no decision, no drag |
| ZoomStateV1.ZoomState.BoundsX | viewer/src/main/java/com/viewer/pdf/zoomable/ZoomState.kt:51-52 | the horizontal bound is non-negative and the upper bound of the offset |
| ZoomStateV1.ZoomState.BoundsY | viewer/src/main/java/com/viewer/pdf/zoomable/ZoomState.kt:54-55 | the vertical bound is non-negative and the upper bound of the offset |
| ZoomStateV1.ZoomState.GetOffsetInContent | viewer/src/main/java/com/viewer/pdf/zoomable/ZoomState.kt:280-285 | a tap inside the layout, with the offset within its bounds, lands inside the zoomed content on each axis |
| ZoomStateV1.ZoomState.SetLayoutSize | viewer/src/main/java/com/viewer/pdf/zoomable/ZoomState.kt:78-81 | the layout is stored and the fit recomputed from it |
| ZoomStateV1.ZoomState.SetContentSize | viewer/src/main/java/com/viewer/pdf/zoomable/ZoomState.kt:88-91 | the content is stored and the fit recomputed from it |
| ZoomStateV1.ZoomState.Reset | viewer/src/main/java/com/viewer/pdf/zoomable/ZoomState.kt:118-142 | scale 1 and offsets 0 with zero bounds, nothing animating |
| ZoomStateV1.ZoomState.StartGesture | viewer/src/main/java/com/viewer/pdf/zoomable/ZoomState.kt:146-154 | the memoised decision is cleared and running animations are stopped where they are |
| ZoomStateV1.ZoomState.CanConsumeGesture | viewer/src/main/java/com/viewer/pdf/zoomable/ZoomState.kt:156-179 | a stored decision is returned unchanged; otherwise `Decide` is computed and stored |
| ZoomStateV1.ZoomState.ApplyGesture | viewer/src/main/java/com/viewer/pdf/zoomable/ZoomState.kt:184-225 | the scale is clamped to [0.9, maxScale], each offset at rest is first coerced into its new symmetric bound, then moved by the pan and the pinch shift and snapped within that bound, and only a pan keeps fling enabled |
| ZoomStateV1.ZoomState.EndGesture | viewer/src/main/java/com/viewer/pdf/zoomable/ZoomState.kt:227-247 | a consumed gesture that may fling flings within the bounds; a scale below 1 springs back to 1; the drag ends |
| ZoomStateV1.ZoomState.AnimateZoomTo | viewer/src/main/java/com/viewer/pdf/zoomable/ZoomState.kt:249-278 | the scale is clamped to [1, maxScale] and each offset is snapped within its new symmetric bound around the tapped point |
| ZoomStateV2.Decide | viewer/src/main/java/com/viewer/presenter/pager/zoomable/ZoomState.kt:161-194 | a pinch is always consumed, a one-finger gesture at scale 1 never, and otherwise it is consumed unless it is a horizontal or vertical drag towards the matching edge |
| ZoomStateV2.ZoomState.constructor | viewer/src/main/java/com/viewer/presenter/pager/zoomable/ZoomState.kt:40-81 | it needs a maximum scale of at least 1; scale 1, no offset bounds, no decision, no drag |
| ZoomStateV2.ZoomState.BoundsX | viewer/src/main/java/com/viewer/presenter/pager/zoomable/ZoomState.kt:65-66 | the horizontal bound is non-negative and the upper bound of the offset |
| ZoomStateV2.ZoomState.BoundsY | viewer/src/main/java/com/viewer/presenter/pager/zoomable/ZoomState.kt:68-69 | the vertical bound is non-negative and the upper bound of the offset |
| ZoomStateV2.ZoomState.SetLayoutSize | viewer/src/main/java/com/viewer/presenter/pager/zoomable/ZoomState.kt:89-92 | the layout is stored and the fit recomputed from it |
| ZoomStateV2.ZoomState.SetContentSize | viewer/src/main/java/com/viewer/presenter/pager/zoomable/ZoomState.kt:99-102 | the content is stored and the fit recomputed from it |
| ZoomStateV2.ZoomState.Reset | viewer/src/main/java/com/viewer/presenter/pager/zoomable/ZoomState.kt:129-152 | scale 1 and offsets 0 with zero bounds, nothing animating |
| ZoomStateV2.ZoomState.StartGesture | viewer/src/main/java/com/viewer/presenter/pager/zoomable/ZoomState.kt:156-159 | a drag is in progress and the memoised decision is cleared |
| ZoomStateV2.ZoomState.CanConsumeGesture | viewer/src/main/java/com/viewer/presenter/pager/zoomable/ZoomState.kt:161-194 | a stored decision is returned unchanged; otherwise `Decide` is computed and stored |
| ZoomStateV2.ZoomState.ApplyGesture | viewer/src/main/java/com/viewer/presenter/pager/zoomable/ZoomState.kt:199-226 | the scale becomes the old scale times the zoom, within its bounds; each offset at rest is first coerced into the symmetric bound of the scale before the gesture, then moved by the pan and snapped within that bound; only a pan keeps fling enabled |
| ZoomStateV2.ZoomState.EndGesture | viewer/src/main/java/com/viewer/presenter/pager/zoomable/ZoomState.kt:228-248 | a gesture that may fling flings within the bounds; a scale below 1 springs back to 1; the drag ends |
| ZoomStateV2.ZoomState.AnimateZoomTo | viewer/src/main/java/com/viewer/presenter/pager/zoomable/ZoomState.kt:250-272 | the scale becomes the target and each offset is snapped within the target's symmetric bound; the drag ends |
| PageViewModel.SourceScale | viewer/src/main/java/com/viewer/PageView.kt:137 | the scale at minimum zoom, the smaller of the parent-to-page ratios; `FittedSize` states that the page scaled by it fits the parent and fills it on one side |
| PageViewModel.FittedSize | viewer/src/main/java/com/viewer/PageView.kt:137-140 | the fitted page lies inside the parent and fills it on one side |
| PageViewModel.PatchArea | viewer/src/main/java/com/viewer/PageView.kt:303-310 | no area only when the view and the parent share no pixel; otherwise the area holds exactly the shared pixels, counted from the view's corner |
| PageViewModel.HqDecision | viewer/src/main/java/com/viewer/PageView.kt:294-315 | the patch is dropped exactly when the view is as wide or as tall as the page at minimum zoom; a render is for the on-screen area and the view's current size, is partial exactly when those are the stored ones and an update is asked for, and without an update happens only when they differ; a zoomed view on screen is rendered whenever its area or size changed or an update is asked for |
| PageViewModel.HqSettles | viewer/src/main/java/com/viewer/PageView.kt:311-353 | once a render's area and size are stored, the same view needs nothing without update and a partial redraw with update |
| PageViewModel.PageView.constructor | viewer/src/main/java/com/viewer/PageView.kt:40-66 | the entire bitmap is a fresh bitmap of the parent's size and the patch bitmap is the shared one; nothing is set |
| PageViewModel.PageView.Reinit | viewer/src/main/java/com/viewer/PageView.kt:68-85 | the view is blank at page 0, its size defaults to the parent, and the patch, search boxes and links are cleared |
| PageViewModel.PageView.Blank | viewer/src/main/java/com/viewer/PageView.kt:105-114 | as `reinit`, with the page set to the given one |
| PageViewModel.PageView.ReleaseBitmaps | viewer/src/main/java/com/viewer/PageView.kt:95-103 | the view is reinitialised and both bitmaps are recycled and dropped |
| PageViewModel.PageView.SetPage | viewer/src/main/java/com/viewer/PageView.kt:116-172 | the view shows the page and is no longer blank; the source scale is the smaller of the parent-to-page ratios; the size, returned for rendering, is the page scaled by it and fills the parent on one side; the entire page is not shown until rendered |
| PageViewModel.PageView.EntireRendered | viewer/src/main/java/com/viewer/PageView.kt:164-171 | the entire page is shown |
| PageViewModel.PageView.OnLayout | viewer/src/main/java/com/viewer/PageView.kt:272-286 | a patch rendered for another view size is cleared and hidden; otherwise the patch is kept |
| PageViewModel.PageView.UpdateHq | viewer/src/main/java/com/viewer/PageView.kt:294-366 | without a size it throws and changes nothing; otherwise the outcome is `HqDecision`, a drop hides the patch and a render creates the patch view |
| PageViewModel.PageView.HqRendered | viewer/src/main/java/com/viewer/PageView.kt:348-353 | the rendered area and view size are stored and the patch is shown |
| PageViewModel.PageView.UpdateLinks | viewer/src/main/java/com/viewer/PageView.kt:368-376 | the view takes the given links |
| PageViewModel.PageView.RemoveHq | viewer/src/main/java/com/viewer/PageView.kt:419-428 | the patch area and view size are cleared and the patch hidden |
| PageAdapterModel.FetchedLinks | viewer/src/main/java/com/viewer/old/PageAdapter.kt:109-110 | null links from MuPDF are stored as an empty list, others as they are |
| PageAdapterModel.PageAdapter.constructor | viewer/src/main/java/com/viewer/old/PageAdapter.kt:16-25 | the count is the document's page count and nothing is cached |
| PageAdapterModel.PageAdapter.GetCount | viewer/src/main/java/com/viewer/old/PageAdapter.kt:27-29 | the count stored at construction or by `reset` |
| PageAdapterModel.PageAdapter.ReleaseBitmaps | viewer/src/main/java/com/viewer/old/PageAdapter.kt:39-43 | the shared bitmap is recycled and dropped |
| PageAdapterModel.PageAdapter.Reset | viewer/src/main/java/com/viewer/old/PageAdapter.kt:45-49 | the page sizes are cleared and the count is 0; the links stay |
| PageAdapterModel.PageAdapter.RemovePageSize | viewer/src/main/java/com/viewer/old/PageAdapter.kt:51-53 | only the given page size is removed |
| PageAdapterModel.PageAdapter.SetLinks | viewer/src/main/java/com/viewer/old/PageAdapter.kt:119-121 | the entry is stored, even a null one |
| PageAdapterModel.PageAdapter.GetView | viewer/src/main/java/com/viewer/old/PageAdapter.kt:55-117 | it throws only for a new view over an empty parent; the shared bitmap is reused when it has the parent's size; a cached size sets the page up, a miss blanks it; cached links are applied; a fetch is launched exactly for each miss |
| PageAdapterModel.PageAdapter.PageSizeFetched | viewer/src/main/java/com/viewer/old/PageAdapter.kt:84-96 | the fetched size is cached, and it sets the view up only if the view still shows that page; otherwise the view is unchanged |
| PageAdapterModel.PageAdapter.LinksFetched | viewer/src/main/java/com/viewer/old/PageAdapter.kt:106-116 | the fetched links are cached, and applied only if the view still shows that page; otherwise the view is unchanged |
| StepperModel.Step | viewer/src/main/java/com/viewer/old/Stepper.kt:9-17 | the task runs exactly on a frame with a callback queued; `prod` leaves the stepper pending and posts exactly when it was not; a frame that runs the task clears the flag and dequeues |
| StepperModel.StepCoalesces | viewer/src/main/java/com/viewer/old/Stepper.kt:9-17 | one event keeps at most one callback queued, exactly while pending; `prod` leaves it pending, and a frame clears the flag and runs the task once if it was pending |
| StepperModel.StepsCoalesce | viewer/src/main/java/com/viewer/old/Stepper.kt:9-17 | over any interleaving at most one callback is queued, and the task runs no more often than `prod` was called |
| StepperModel.ProdServedAtNextFrame | viewer/src/main/java/com/viewer/old/Stepper.kt:9-17 | after a `prod` and any further prods one callback is queued; the next frame runs the task once, and the following `prod` posts again |
| StepperModel.Stepper.constructor | viewer/src/main/java/com/viewer/old/Stepper.kt:6-7 | nothing pending, posted or run |
| StepperModel.Stepper.Prod | viewer/src/main/java/com/viewer/old/Stepper.kt:9-17 | it posts exactly when not already pending, and leaves the stepper pending |
| StepperModel.Stepper.AnimationFrame | viewer/src/main/java/com/viewer/old/Stepper.kt:13-14 | the posted callback clears the flag and runs the task once if one was pending |
| PdfReaderModel.GetOrNull | viewer/src/main/java/com/viewer/pdf/PdfReader.kt:63-64 | an entry exactly for an index in range, and it is that entry |
| PdfReaderModel.AsPdfFile | viewer/src/main/java/com/viewer/pdf/PdfReader.kt:68-69 | the cast yields only file pages |
| PdfReaderModel.PageAt | viewer/src/main/java/com/viewer/pdf/PdfReader.kt:47-77 | nothing before the reader has a size; in single-page mode an empty page exactly for an `Empty` entry, else that file; in double-page mode a spread of entries 2p-1 and 2p exactly when neither is `Empty`, else an empty page |
| PdfReaderModel.FirstSpreadHasNoLeftPage | viewer/src/main/java/com/viewer/pdf/PdfReader.kt:63-66 | the spread at position 0 has no left page, and shows the first file on the right |
| PdfReaderModel.EntryInOneSpread | viewer/src/main/java/com/viewer/pdf/PdfReader.kt:63-64 | every entry belongs to exactly one spread, on the left when its index is odd and on the right when it is even |

## Left out

- MuPDF itself is not modelled: opening documents, loading and rendering pages, display lists, searching, passwords and bookmarks. A document is a list of page bounds (in `LegacyCore`, a layout-dependent list and a relocation function), and `drawPage` is recorded as its arguments.
- The `drawPage(bitmap, rect, pageHeight)` overload used by the later page states is not part of this model. Only its arguments are recorded (`PatchDraw`).
- `getPageLinks` is a parameter of the methods that use it, since it comes from MuPDF.
- Pixel content of bitmaps and canvases is not modelled. Only sizes, the recycled flag and placements are.
- Coroutines, `withContext`, `async`/`await`, `synchronized` and job cancellation are left out. Each launched body is a separate method, and `isActive` is a parameter. Concurrent interleavings of two jobs are not modelled.
- Compose animation internals are left out: `Animatable` timing, velocity tracking and decay. An animation is modelled as its final value within its bounds; `updateBounds` coerces a value at rest at once and leaves a running one to its next frame (`WithBound`).
- The gesture detectors and composables (`Zoomable.kt`, `PdfPage.kt`, the `PdfSinglePage`/`PdfDoublePage` composables) are UI plumbing and are left out.
- `PageView`'s `onDraw`, `onMeasure`, `hitLink`, the busy indicator, search-box and link highlighting, and the `update()` re-render are view code and are left out.
- `PdfReaderState`, `presenter/components/PdfPageState.kt` and the sample apps are state holders and activity code, and are left out.
- `readerState.getContentForCurrentLayout` is not in these files. It is modelled as a flag that keeps or swaps the pair.
- `Rect.contains` and `Rect.intersect` belong to Compose and Android. `Geometry.Intersect`, the half-open `Contains`/`ContainsPixel` and `CreateBitmap` state the semantics the model gives them.
- Float NaN and infinity are left out. Pages must have positive sides (`PageSizeOk`, `CorePageOk`, `PagesSized`), because a zero side divides by zero in Float.
- PageViewModel.PageView.constructor: requires a positive parent size, where the source throws from `Bitmap.createBitmap`.
- PageViewModel.PageView.ReleaseBitmaps: the patch bitmap recycled here is the adapter's shared bitmap. The model records the recycling but not that the adapter still holds the recycled bitmap.
- DoublePageStateV2.PdfDoublePageState.GetDoublePageContent: the per-page bitmaps that are created, drawn and recycled inside the job are not allocated. Only the merged bitmap is.
- DoublePageStateV2.PdfDoublePageState.constructor: the cores are taken as the page size and links they report (`CorePage`), not as `PdfCore` objects with a cursor.
- SinglePageStateV1.PdfSinglePageState.Init and SinglePageStateV2.PdfSinglePageState.Init: require a document with at least one page, because `getPageSize` on an empty document is outside what MuPDF defines.
- DoublePageStateV1.PdfDoublePageState.CompleteZoomedContent: uses the corrected page share (see Findings); the as-written share is modelled separately.
- DoublePageStateV1.PdfDoublePageState.GetPageBitmap: records page 2's rectangle with the corrected `SecondPageRect` (see Findings), so a lone page 2 starts at its own width, where its bitmap is drawn; the source records it from 0 (`SecondPageRectAsWritten`). `Valid` keeps the corrected placement. With the source's rectangle, `getZoomBounds` measures page 2's part of the window from x = 0 instead of from the page's drawn left edge, so the part requested from MuPDF is shifted right by the page's width; the model's request is the corrected one.
- DoublePageStateV2.PdfDoublePageState.CompleteZoomedContent: draws the right zoomed bitmap at the corrected `StartX` (see Findings), one column left only when the scaled pages share a column; the source's `StartXAsWritten` also does so when a fractional pan widens the window, one column left of the model's x.
- DoublePageStateV2.RenderSpread: places the right bitmap at the corrected `StartX`, as `CompleteZoomedContent` above; the as-written x is `StartXAsWritten`.

## Findings

| source | as written | input that shows it | evidently intended | confidence | as-written member | corrected member |
|---|---|---|---|---|---|---|
| viewer/src/main/java/com/viewer/pdf/double/PdfDoublePageState.kt:194-221 | each zoom job computes its page share with `page1Rect!!` and `page2Rect!!`, so it needs both page rectangles | double-page position 0, where only the right page exists, zoomed over that page: `page1Rect` is null and the job throws | the share of a page is its width over the entire bitmap's width, which is defined for a lone page too | medium, not executed | DoublePageStateV1.TotalPercentsAsWritten, DoublePageStateV1.LonePageZoomThrows | DoublePageStateV1.TotalPercent, DoublePageStateV1.TotalPercentAgrees, DoublePageStateV1.RenderedAtZoomScale |
| viewer/src/main/java/com/viewer/pdf/double/PdfDoublePageState.kt:126-127 | page 2's rectangle starts at page 1's width, or at 0 without page 1 | a lone right page 500 x 800: its rectangle starts at 0, but it is drawn at x = 500, half of the 1000-wide merged bitmap | the rectangle starts where the bitmap is drawn: at its own width when there is no page 1 | medium, not executed | DoublePageStateV1.SecondPageRectAsWritten, DoublePageStateV1.LoneSecondPageRectMisplaced | DoublePageStateV1.SecondPageRect, DoublePageStateV1.SecondPageRectMatchesDraw |
| viewer/src/main/java/com/viewer/pdf/page/double/PdfDoublePageState.kt:221-231 | the right zoomed bitmap is drawn one column left whenever the two part widths exceed the content width | two 100-wide pages at scale 2, pan position 150.5, content 100 wide: the window is 101 columns, the pages share no column, yet the right bitmap is drawn at 49 instead of 50 | draw one column left only when the scaled pages share a column; the wider window comes from rounding a fractional pan outward | medium, not executed | DoublePageStateV2.StartXAsWritten, DoublePageStateV2.RightPageMisdrawn, DoublePageStateV2.StartXAsWrittenOffByOne | DoublePageStateV2.StartX, DoublePageStateV2.ZoomedSpreadAligned |
