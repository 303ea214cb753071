// viewer/src/main/java/com/viewer/pdf/page/PdfPageState.kt: the state every
// page of the later pager shares: the entire bitmap, the page links and the
// zoomed bitmap, with the zoom state that drives them. The Kotlin subclasses
// extend this class; in the model they hold one and act on its fields.

module PageState {
  import opened Common
  import opened Geometry
  import PageLinks
  import ZoomStateV1

  /** One call of `onClick(position, uri)`. */
  datatype Click = Click(position: Offset, uri: Option<string>)

  /** The uri of the link a tap at content point `p` selects, if any. */
  function UriAt(links: seq<Link>, p: Offset): (uri: Option<string>)
    ensures uri.None? <==> forall i :: 0 <= i < |links| ==> !links[i].bounds.Contains(p)
    ensures uri.Some? ==> exists i :: 0 <= i < |links| && links[i].bounds.Contains(p) && links[i].uri == uri.value
  {
    match PageLinks.LinkAt(links, p)
    case None => None
    case Some(l) => Some(l.uri)
  }

  class PdfPageState {
    const zoomState: ZoomStateV1.ZoomState
    var entireBitmap: Bitmap?
    var links: PageLinks.PdfPageLinks?
    var zoomedBitmap: Bitmap?

    /** A page state over `zoomState` with nothing loaded. */
    constructor (zoomState: ZoomStateV1.ZoomState)
      ensures this.zoomState == zoomState
      ensures entireBitmap == null && links == null && zoomedBitmap == null
    {
      this.zoomState := zoomState;
      entireBitmap := null;
      links := null;
      zoomedBitmap := null;
    }

    /**
     * `clearZoomedContent`: the zoomed bitmap is dropped and the links go
     * back to their base scale; the base links stay as they are.
     */
    method ClearZoomedContent()
      modifies this`zoomedBitmap, links
      ensures zoomedBitmap == null
      ensures links != null ==> links.scaledLinks == None && links.baseLinks == old(links.baseLinks)
    {
      zoomedBitmap := null;
      if links != null {
        links.ResetScale();
      }
    }

    /**
     * `handleClick(position)`: exactly one `onClick` call, for the tapped
     * position, carrying the uri of the first link under the tap in content
     * coordinates, or none when there are no links or no link is hit.
     */
    method HandleClick(position: Offset) returns (click: Click)
      ensures click.position == position
      ensures links == null ==> click.uri == None
      ensures links != null ==> click.uri == UriAt(links.Active(), zoomState.GetOffsetInContent(position))
    {
      var contentOffset := zoomState.GetOffsetInContent(position);
      var link: Option<Link> := None;
      if links != null {
        link := links.FindLink(contentOffset);
      }
      click := Click(position, if link.Some? then Some(link.value.uri) else None);
    }

    /** `dispose`: both bitmaps are dropped (not recycled); the links are kept. */
    method Dispose()
      modifies this`entireBitmap, this`zoomedBitmap
      ensures entireBitmap == null && zoomedBitmap == null
    {
      entireBitmap := null;
      zoomedBitmap := null;
    }
  }
}
