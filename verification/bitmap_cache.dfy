// The one-slot zoomed-bitmap cache that both PdfSinglePageState revisions keep
// in their `lastZoomedBitmap` field
// (viewer/src/main/java/com/viewer/pdf/single/PdfSinglePageState.kt and
// viewer/src/main/java/com/viewer/pdf/page/single/PdfSinglePageState.kt carry
// the same `getZoomedBitmap`).

module ZoomedBitmapCache {
  import opened Common
  import opened Geometry

  class BitmapCache {
    /** `lastZoomedBitmap`. */
    var last: Bitmap?

    constructor ()
      ensures last == null
    {
      last := null;
    }

    /** Whether the cached bitmap can serve a request of this size. */
    predicate Hit(width: int, height: int)
      reads this
    {
      last != null && last.width == width && last.height == height
    }

    /**
     * `getZoomedBitmap(width, height)`: on a hit the cached bitmap itself is
     * handed out and nothing changes. On a miss the cache is emptied, the old
     * bitmap recycled, and a bitmap of the requested size is created and
     * cached; creating it throws when a side is not positive, leaving the
     * cache empty. Whatever is returned has exactly the requested size.
     */
    method GetZoomedBitmap(width: int, height: int) returns (r: Result<Bitmap>)
      modifies this`last, last
      ensures r.Ok? ==> r.value.width == width && r.value.height == height
      ensures old(Hit(width, height)) ==>
        r.Ok? && r.value == old(last) && last == old(last) && last.recycled == old(last.recycled)
      ensures !old(Hit(width, height)) ==>
        (old(last) != null ==> old(last).recycled) &&
        if width > 0 && height > 0 then
          r.Ok? && fresh(r.value) && !r.value.recycled && last == r.value
        else
          r == Err(IllegalArgument) && last == null
    {
      var current := last;
      if current != null && current.width == width && current.height == height {
        return Ok(current);
      }
      last := null;
      if current != null {
        current.Recycle();
      }
      r := CreateBitmap(width, height);
      if r.Ok? {
        last := r.value;
      }
    }
  }
}
