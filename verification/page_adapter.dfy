// viewer/src/main/java/com/viewer/old/PageAdapter.kt: the legacy pager's adapter.
// It caches page sizes and links by position, shares one high-quality bitmap
// of the parent's size among its page views, and fills a view from the caches
// or launches a fetch whose result is stored and shown only if the view still
// shows that page.
//
// `mCore.countPages`, `getPageSize` and `getPageLinks` are parameters: the page
// count of the constructor and the results the fetch completions receive.

module PageAdapterModel {
  import opened Common
  import opened Geometry
  import PageViewModel

  /** What a links fetch stores: a page MuPDF reports no links for gets an empty array. */
  function FetchedLinks(fetched: Option<seq<Link>>): (links: seq<Link>)
    ensures fetched.Some? ==> links == fetched.value
    ensures fetched.None? ==> links == []
  {
    match fetched
    case Some(l) => l
    case None => []
  }

  class PageAdapter {
    /** `mPageSizes`. */
    var pageSizes: map<int, Offset>
    /** `mLinks`: a stored entry may be null (`setLinks(null, position)`). */
    var links: map<int, Option<seq<Link>>>
    /** `mSharedHqBm`. */
    var sharedHqBm: Bitmap?
    var size: int

    predicate Valid()
      reads this, sharedHqBm
    {
      (sharedHqBm != null ==> sharedHqBm.width > 0 && sharedHqBm.height > 0) &&
      (forall position :: position in pageSizes ==> pageSizes[position].x > 0.0 && pageSizes[position].y > 0.0)
    }

    /** `PageAdapter(context, core)`: the count is the document's page count, nothing is cached. */
    constructor (pageCount: int)
      ensures Valid() && size == pageCount && pageSizes == map[] && links == map[] && sharedHqBm == null
    {
      pageSizes := map[];
      links := map[];
      sharedHqBm := null;
      size := pageCount;
    }

    /** `getCount`. */
    method GetCount() returns (n: int)
      ensures n == size
    {
      n := size;
    }

    /** `releaseBitmaps`: the shared bitmap is recycled and dropped. */
    method ReleaseBitmaps()
      modifies this`sharedHqBm, sharedHqBm
      ensures sharedHqBm == null
      ensures old(sharedHqBm) != null ==> old(sharedHqBm).recycled
    {
      if sharedHqBm != null {
        sharedHqBm.Recycle();
      }
      sharedHqBm := null;
    }

    /** `reset`: the page sizes are forgotten and the count drops to 0; the links stay cached. */
    method Reset()
      modifies this`pageSizes, this`size
      ensures pageSizes == map[] && size == 0
    {
      pageSizes := map[];
      size := 0;
    }

    /** `removePageSize(position)`. */
    method RemovePageSize(position: int)
      requires Valid()
      modifies this`pageSizes
      ensures Valid() && pageSizes == old(pageSizes) - {position}
    {
      pageSizes := pageSizes - {position};
    }

    /** `setLinks(links, position)`. */
    method SetLinks(links: Option<seq<Link>>, position: int)
      modifies this`links
      ensures this.links == old(this.links)[position := links]
    {
      this.links := this.links[position := links];
    }

    /**
     * `getView(position, convertView, parent)`. Without a view to reuse, the
     * shared bitmap is reallocated unless it already has the parent's size,
     * and a new view over it is made; creating the bitmap throws for a
     * parent with a side that is not positive. The view is then set up from
     * the cached page size (or blanked), and takes the cached links; for each
     * cache miss a fetch is launched, reported in `sizeFetch` and `linksFetch`.
     */
    method GetView(position: int, convertView: PageViewModel.PageView?, parentWidth: int, parentHeight: int)
      returns (r: Result<PageViewModel.PageView>, sizeFetch: bool, linksFetch: bool)
      requires Valid()
      modifies this`sharedHqBm, convertView
      ensures Valid()
      ensures r.Err? <==> convertView == null && !(parentWidth > 0 && parentHeight > 0)
      ensures r.Err? ==> r.error == IllegalArgument && sharedHqBm == old(sharedHqBm)
      ensures r.Ok? && convertView != null ==> r.value == convertView && sharedHqBm == old(sharedHqBm)
      ensures r.Ok? && convertView == null ==>
        fresh(r.value) && r.value.parentSize == Point(parentWidth, parentHeight) &&
        sharedHqBm != null && r.value.patchBm == sharedHqBm &&
        sharedHqBm.width == parentWidth && sharedHqBm.height == parentHeight &&
        (old(sharedHqBm) != null && old(sharedHqBm.width) == parentWidth && old(sharedHqBm.height) == parentHeight ==>
          sharedHqBm == old(sharedHqBm))
      ensures r.Ok? ==>
        var view := r.value;
        view.page == position &&
        (position in pageSizes ==>
          !view.isBlank && view.size == Some(PageViewModel.FittedSize(view.parentSize, pageSizes[position]))) &&
        (position !in pageSizes ==> view.isBlank) &&
        (position in links ==> view.links == links[position]) &&
        (sizeFetch <==> position !in pageSizes) && (linksFetch <==> position !in links)
    {
      var view: PageViewModel.PageView;
      if convertView == null {
        if sharedHqBm == null || sharedHqBm.width != parentWidth || sharedHqBm.height != parentHeight {
          var bitmap := CreateBitmap(parentWidth, parentHeight);
          if bitmap.Err? {
            return Err(bitmap.error), false, false;
          }
          sharedHqBm := bitmap.value;
        }
        view := new PageViewModel.PageView(Point(parentWidth, parentHeight), sharedHqBm);
      } else {
        view := convertView;
      }
      sizeFetch := position !in pageSizes;
      if position in pageSizes {
        var _ := view.SetPage(position, pageSizes[position]);
      } else {
        view.Blank(position);
      }
      linksFetch := position !in links;
      if position in links {
        view.UpdateLinks(links[position]);
      }
      r := Ok(view);
    }

    /**
     * The completion of a page-size fetch: the size is cached, and the view
     * is set up with it only if it still shows that page.
     */
    method PageSizeFetched(view: PageViewModel.PageView, position: int, result: Offset)
      requires Valid() && result.x > 0.0 && result.y > 0.0
      modifies this`pageSizes, view
      ensures Valid() && pageSizes == old(pageSizes)[position := result]
      ensures old(view.page) == position ==>
        !view.isBlank && view.page == position && view.size == Some(PageViewModel.FittedSize(view.parentSize, result))
      ensures old(view.page) != position ==> unchanged(view)
    {
      pageSizes := pageSizes[position := result];
      if view.page == position {
        var _ := view.SetPage(position, result);
      }
    }

    /**
     * The completion of a links fetch: the links (none when MuPDF reports
     * null) are cached, and handed to the view only if it still shows that
     * page.
     */
    method LinksFetched(view: PageViewModel.PageView, position: int, fetched: Option<seq<Link>>)
      modifies this`links, view
      ensures links == old(links)[position := Some(FetchedLinks(fetched))]
      ensures old(view.page) == position ==> view.links == Some(FetchedLinks(fetched))
      ensures old(view.page) != position ==> unchanged(view)
    {
      var result := FetchedLinks(fetched);
      links := links[position := Some(result)];
      if view.page == position {
        view.UpdateLinks(Some(result));
      }
    }
  }
}
