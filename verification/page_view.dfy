// viewer/src/main/java/com/viewer/PageView.kt: one page of the legacy view
// pager. At minimum zoom the page is rendered whole into a parent-sized
// bitmap; once the view is zoomed, a high-quality patch is rendered for the
// part of the view on screen and dropped again when the view's size changes.
//
// Child views, the busy indicator, link painting and MuPDF rendering are not
// modelled; a render the view launches is returned as a value and its
// completion is a separate method.

module PageViewModel {
  import opened Common
  import opened Geometry

  /** A MuPDF search-hit `Quad`. */
  datatype Quad = Quad(ul: Offset, ur: Offset, ll: Offset, lr: Offset)

  /** `Math.min(parent.x / size.x, parent.y / size.y)`: the scale at minimum zoom. */
  function SourceScale(parent: Point, size: Offset): real
    requires size.x > 0.0 && size.y > 0.0
  {
    MinR(parent.x as real / size.x, parent.y as real / size.y)
  }

  /**
   * The page size at minimum zoom: each side scaled by the source scale and
   * truncated. The page then fits inside the parent and spans it fully
   * across or fully down: the page's aspect ratio decides which.
   */
  function FittedSize(parent: Point, size: Offset): (fitted: Point)
    requires size.x > 0.0 && size.y > 0.0
    ensures parent.x >= 0 && parent.y >= 0 ==>
      0 <= fitted.x <= parent.x && 0 <= fitted.y <= parent.y && (fitted.x == parent.x || fitted.y == parent.y)
  {
    ScaledSides(parent.x, size.x, parent.y, size.y, SourceScale(parent, size))
  }

  /**
   * Both sides scaled by `k` and truncated. At the smaller of `px / sx` and
   * `py / sy` they stay within (`px`, `py`) and one of them reaches it.
   */
  function ScaledSides(px: int, sx: real, py: int, sy: real, k: real): (f: Point)
    ensures px >= 0 && py >= 0 && sx > 0.0 && sy > 0.0 && k == MinR(px as real / sx, py as real / sy) ==>
      0 <= f.x <= px && 0 <= f.y <= py && (f.x == px || f.y == py)
  {
    if px >= 0 && py >= 0 && sx > 0.0 && sy > 0.0 && k == MinR(px as real / sx, py as real / sy) then
      ScaledSideWithin(px, sx, k);
      ScaledSideWithin(py, sy, k);
      Point(Trunc(sx * k), Trunc(sy * k))
    else Point(Trunc(sx * k), Trunc(sy * k))
  }

  /**
   * A side `s` scaled by at most `p / s` and truncated stays within `p`, and
   * reaches it exactly at that scale.
   */
  lemma ScaledSideWithin(p: int, s: real, k: real)
    requires p >= 0 && s > 0.0 && 0.0 <= k <= p as real / s
    ensures 0 <= Trunc(s * k) <= p
    ensures k == p as real / s ==> Trunc(s * k) == p
  {
    assert s * (p as real / s) == p as real;
    MulLeqLeft(s, k, p as real / s);
  }

  lemma MulLeqLeft(c: real, a: real, b: real)
    requires c >= 0.0 && a <= b
    ensures c * a <= c * b
  {
  }

  /**
   * The patch area for a view placed at `view` inside a parent of size
   * `parent`: the part of the view on screen, relative to the view's top
   * left; nothing when the view is wholly off screen.
   */
  function PatchArea(parent: Point, view: IntRect): (area: Option<IntRect>)
    ensures area.None? ==> forall x, y :: !(view.ContainsPixel(x, y) && 0 <= x < parent.x && 0 <= y < parent.y)
    ensures area.Some? ==> forall x, y ::
      area.value.ContainsPixel(x, y) <==>
        view.ContainsPixel(x + view.left, y + view.top) && 0 <= x + view.left < parent.x && 0 <= y + view.top < parent.y
  {
    var screen := IntRect(0, 0, parent.x, parent.y);
    match Intersect(screen, view)
    case None => None
    case Some(r) =>
      var shifted := IntRect(r.left - view.left, r.top - view.top, r.right - view.left, r.bottom - view.top);
      assert forall x, y :: shifted.ContainsPixel(x, y) <==> r.ContainsPixel(x + view.left, y + view.top);
      Some(shifted)
  }

  /** What `updateHq` decides. */
  datatype HqOutcome =
    | DropPatch                                                   // the view is at minimum zoom: the patch is cleared
    | NoChange                                                    // off screen, or the same patch again without an update
    | Render(completeRedraw: bool, viewSize: Point, area: IntRect) // a `drawPage` (complete) or `updatePage` job

  /**
   * `updateHq(update)` for a view at `view` whose minimum-zoom size is
   * `size`, with the stored patch area and patch view size. The patch is
   * dropped exactly at minimum zoom; it is rendered only for a zoomed view
   * on screen, for the view's current size and the on-screen area; a render
   * is a partial update exactly when that area and size are the stored ones
   * and an update was asked for, and without an update it happens only when
   * they differ from the stored ones. Conversely, a zoomed view on screen is
   * rendered whenever its area or size changed or an update was asked for.
   */
  function HqDecision(parent: Point, size: Point, view: IntRect, patchArea: Option<IntRect>,
                      patchViewSize: Option<Point>, update: bool): (d: HqOutcome)
    ensures d.DropPatch? <==> view.Width() == size.x || view.Height() == size.y
    ensures d.Render? ==>
      PatchArea(parent, view) == Some(d.area) && d.viewSize == Point(view.Width(), view.Height()) &&
      (!d.completeRedraw <==> update && patchArea == Some(d.area) && patchViewSize == Some(d.viewSize)) &&
      (!update ==> patchArea != Some(d.area) || patchViewSize != Some(d.viewSize))
    ensures !(view.Width() == size.x || view.Height() == size.y) && PatchArea(parent, view).Some? &&
            (update || patchArea != PatchArea(parent, view) || patchViewSize != Some(Point(view.Width(), view.Height()))) ==>
              d.Render?
  {
    if view.Width() == size.x || view.Height() == size.y then DropPatch
    else
      var viewSize := Point(view.Width(), view.Height());
      match PatchArea(parent, view)
      case None => NoChange
      case Some(area) =>
        var same := Some(area) == patchArea && Some(viewSize) == patchViewSize;
        if same && !update then NoChange
        else Render(!(same && update), viewSize, area)
  }

  /**
   * Once a render has completed and stored its area and view size, asking
   * again for the same view without an update does nothing, and with an
   * update renders the same area as a partial update.
   */
  lemma {:induction false} HqSettles(parent: Point, size: Point, view: IntRect, patchArea: Option<IntRect>,
                                     patchViewSize: Option<Point>, update: bool)
    requires HqDecision(parent, size, view, patchArea, patchViewSize, update).Render?
    ensures var d := HqDecision(parent, size, view, patchArea, patchViewSize, update);
      HqDecision(parent, size, view, Some(d.area), Some(d.viewSize), false) == NoChange &&
      HqDecision(parent, size, view, Some(d.area), Some(d.viewSize), true) == Render(false, d.viewSize, d.area)
  {
    var d := HqDecision(parent, size, view, patchArea, patchViewSize, update);
    assert PatchArea(parent, view) == Some(d.area);
  }

  class PageView {
    /** `mParentSize`. */
    const parentSize: Point
    var page: int
    /** `mSize`: the page size at minimum zoom. */
    var size: Option<Point>
    /** `mSourceScale`. */
    var sourceScale: real
    /** `mEntireBm`. */
    var entireBm: Bitmap?
    /** `mPatchBm`: the adapter's shared high-quality bitmap. */
    var patchBm: Bitmap?
    var patchViewSize: Option<Point>
    var patchArea: Option<IntRect>
    var searchBoxes: Option<seq<seq<Quad>>>
    var links: Option<seq<Link>>
    var isBlank: bool
    /** Whether the entire image view shows `mEntireBm`. */
    var entireShown: bool
    /** Whether the patch image view exists (`mPatch != null`). */
    var hasPatchView: bool
    /** Whether the patch image view shows `mPatchBm`. */
    var patchShown: bool

    /**
     * `PageView(context, core, parentSize, sharedHqBm)`: the entire bitmap
     * has the parent's size, the patch bitmap is the shared one. Creating
     * the entire bitmap needs a parent with positive sides.
     */
    constructor (parentSize: Point, sharedHqBm: Bitmap?)
      requires parentSize.x > 0 && parentSize.y > 0
      ensures this.parentSize == parentSize && page == 0 && size == None && sourceScale == 0.0
      ensures entireBm != null && fresh(entireBm) && entireBm.width == parentSize.x && entireBm.height == parentSize.y
      ensures patchBm == sharedHqBm
      ensures patchViewSize == None && patchArea == None && searchBoxes == None && links == None
      ensures !isBlank && !entireShown && !hasPatchView && !patchShown
    {
      this.parentSize := parentSize;
      page := 0;
      size := None;
      sourceScale := 0.0;
      entireBm := new Bitmap(parentSize.x, parentSize.y);
      patchBm := sharedHqBm;
      patchViewSize := None;
      patchArea := None;
      searchBoxes := None;
      links := None;
      isBlank := false;
      entireShown := false;
      hasPatchView := false;
      patchShown := false;
    }

    /**
     * `reinit`: the view goes blank on page 0, keeps its minimum-zoom size
     * (the parent's size when it has none yet), shows no image, and forgets
     * its patch, search boxes and links.
     */
    method Reinit()
      modifies this
      ensures isBlank && page == 0
      ensures size == (if old(size).None? then Some(parentSize) else old(size))
      ensures !entireShown && !patchShown
      ensures patchViewSize == None && patchArea == None && searchBoxes == None && links == None
      ensures sourceScale == old(sourceScale) && entireBm == old(entireBm) && patchBm == old(patchBm)
      ensures hasPatchView == old(hasPatchView)
    {
      isBlank := true;
      page := 0;
      if size == None {
        size := Some(parentSize);
      }
      entireShown := false;
      patchShown := false;
      patchViewSize := None;
      patchArea := None;
      searchBoxes := None;
      links := None;
    }

    /** `blank(page)`: reinitialised, and showing `page`. */
    method Blank(page: int)
      modifies this
      ensures isBlank && this.page == page
      ensures size == (if old(size).None? then Some(parentSize) else old(size))
      ensures !entireShown && !patchShown
      ensures patchViewSize == None && patchArea == None && searchBoxes == None && links == None
      ensures sourceScale == old(sourceScale) && entireBm == old(entireBm) && patchBm == old(patchBm)
      ensures hasPatchView == old(hasPatchView)
    {
      Reinit();
      this.page := page;
    }

    /**
     * `releaseBitmaps`: reinitialised, and both bitmaps recycled and
     * dropped; the patch bitmap is the shared one, so the adapter's copy is
     * recycled with it.
     */
    method ReleaseBitmaps()
      modifies this, entireBm, patchBm
      ensures isBlank && page == 0 && entireBm == null && patchBm == null
      ensures old(entireBm) != null ==> old(entireBm).recycled
      ensures old(patchBm) != null ==> old(patchBm).recycled
      ensures patchViewSize == None && patchArea == None && links == None
    {
      var entire := entireBm;
      var patch := patchBm;
      Reinit();
      if entire != null {
        entire.Recycle();
      }
      entireBm := null;
      if patch != null {
        patch.Recycle();
      }
      patchBm := null;
    }

    /**
     * `setPage(page, size)` up to the launch of the render: the view is no
     * longer blank, shows `page`, takes the source scale of the page and the
     * page's minimum-zoom size, and clears its image until the render of
     * the whole page (returned as that size) completes.
     */
    method SetPage(page: int, pageSize: Offset) returns (render: Point)
      requires pageSize.x > 0.0 && pageSize.y > 0.0
      modifies this`isBlank, this`page, this`sourceScale, this`size, this`entireShown
      ensures !isBlank && this.page == page
      ensures sourceScale == SourceScale(parentSize, pageSize)
      ensures size == Some(FittedSize(parentSize, pageSize)) && render == size.value
      ensures !entireShown
    {
      isBlank := false;
      this.page := page;
      sourceScale := SourceScale(parentSize, pageSize);
      var newSize := FittedSize(parentSize, pageSize);
      size := Some(newSize);
      entireShown := false;
      render := newSize;
    }

    /** The completion of the whole-page render: the entire image view shows the entire bitmap. */
    method EntireRendered()
      modifies this`entireShown
      ensures entireShown
    {
      entireShown := true;
    }

    /**
     * The patch part of `onLayout(changed, left, top, right, bottom)`: a
     * patch made for another view size is forgotten and no longer shown.
     */
    method OnLayout(w: int, h: int)
      modifies this`patchViewSize, this`patchArea, this`patchShown
      ensures old(patchViewSize).Some? && old(patchViewSize) != Some(Point(w, h)) ==>
        patchViewSize == None && patchArea == None && !patchShown
      ensures old(patchViewSize).None? || old(patchViewSize) == Some(Point(w, h)) ==>
        patchViewSize == old(patchViewSize) && patchArea == old(patchArea) && patchShown == old(patchShown)
    {
      if patchViewSize.Some? {
        if patchViewSize.value != Point(w, h) {
          patchViewSize := None;
          patchArea := None;
          patchShown := false;
        }
      }
    }

    /**
     * `updateHq(update)` for a view laid out at `view`, up to the launch of
     * the render: it throws while the view has no minimum-zoom size (`mSize!!`),
     * clears the patch at minimum zoom, and otherwise creates the patch view
     * if needed and returns what `HqDecision` decides.
     */
    method UpdateHq(view: IntRect, update: bool) returns (r: Result<HqOutcome>)
      modifies this`patchShown, this`hasPatchView
      ensures size.None? ==> r == Err(NullPointer) && unchanged(this)
      ensures size.Some? ==> r == Ok(HqDecision(parentSize, size.value, view, patchArea, patchViewSize, update))
      ensures r == Ok(DropPatch) ==> !patchShown && hasPatchView == old(hasPatchView)
      ensures r == Ok(NoChange) ==> patchShown == old(patchShown) && hasPatchView == old(hasPatchView)
      ensures r.Ok? && r.value.Render? ==> hasPatchView && patchShown == old(patchShown)
    {
      if size.None? {
        return Err(NullPointer);
      }
      var mSize := size.value;
      if view.Width() == mSize.x || view.Height() == mSize.y {
        patchShown := false;
        return Ok(DropPatch);
      }
      var patchViewSizeNew := Point(view.Width(), view.Height());
      var area := PatchArea(parentSize, view);
      if area.None? {
        return Ok(NoChange);
      }
      var areaUnchanged := Some(area.value) == patchArea && Some(patchViewSizeNew) == patchViewSize;
      if areaUnchanged && !update {
        return Ok(NoChange);
      }
      var completeRedraw := !(areaUnchanged && update);
      hasPatchView := true;
      return Ok(Render(completeRedraw, patchViewSizeNew, area.value));
    }

    /** The completion of a patch render: its view size and area are stored and the patch is shown. */
    method HqRendered(viewSize: Point, area: IntRect)
      modifies this`patchViewSize, this`patchArea, this`patchShown
      ensures patchViewSize == Some(viewSize) && patchArea == Some(area) && patchShown
    {
      patchViewSize := Some(viewSize);
      patchArea := Some(area);
      patchShown := true;
    }

    /** `updateLinks(links)`: the links are replaced. */
    method UpdateLinks(links: Option<seq<Link>>)
      modifies this`links
      ensures this.links == links
    {
      this.links := links;
    }

    /** `removeHq`: the patch's view size and area are forgotten and the patch is no longer shown. */
    method RemoveHq()
      modifies this`patchViewSize, this`patchArea, this`patchShown
      ensures patchViewSize == None && patchArea == None
      ensures !patchShown
    {
      patchViewSize := None;
      patchArea := None;
      patchShown := false;
    }
  }
}
