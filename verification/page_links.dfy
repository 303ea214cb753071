// viewer/src/main/java/com/viewer/pdf/PdfPageLinks.kt: the links of one page,
// a base list plus an optional zoom-scaled copy, and hit-testing over them.

module PageLinks {
  import opened Common
  import opened Geometry
  import UnitConversions

  /**
   * The private `List<PdfPageLink>.scale`: every link keeps its place and its
   * uri, only its bounds are scaled (and rounded outward).
   */
  function ScaleLinks(links: seq<Link>, s: real): (r: seq<Link>)
    ensures |r| == |links|
    ensures forall i :: 0 <= i < |links| ==>
      r[i].uri == links[i].uri && r[i].bounds == UnitConversions.Scale(links[i].bounds, s)
  {
    if links == [] then []
    else [Link(UnitConversions.Scale(links[0].bounds, s), links[0].uri)] + ScaleLinks(links[1..], s)
  }

  /** Index of the first link whose bounds contain `p`, if any. */
  function FirstContaining(links: seq<Link>, p: Offset): (r: Option<nat>)
    ensures r.Some? ==> r.value < |links| && links[r.value].bounds.Contains(p)
    ensures r.Some? ==> forall j :: 0 <= j < r.value ==> !links[j].bounds.Contains(p)
    ensures r.None? ==> forall j :: 0 <= j < |links| ==> !links[j].bounds.Contains(p)
  {
    if links == [] then None
    else if links[0].bounds.Contains(p) then Some(0)
    else
      match FirstContaining(links[1..], p)
      case None => None
      case Some(i) => Some(i + 1)
  }

  /** The link a hit at `p` selects: the first containing one. */
  function LinkAt(links: seq<Link>, p: Offset): (link: Option<Link>)
    ensures link.None? <==> forall j :: 0 <= j < |links| ==> !links[j].bounds.Contains(p)
    ensures link.Some? ==> exists i :: 0 <= i < |links| && links[i] == link.value && links[i].bounds.Contains(p) &&
                                       (forall j :: 0 <= j < i ==> !links[j].bounds.Contains(p))
  {
    match FirstContaining(links, p)
    case None => None
    case Some(i) => Some(links[i])
  }

  /**
   * Scaling by `a` and then by `b` (two `setBaseScale` calls) encloses every
   * link's bounds exactly scaled by `a * b`, and keeps every uri.
   */
  lemma {:induction false} ScaleLinksTwice(links: seq<Link>, a: real, b: real)
    requires a >= 0.0 && b >= 0.0
    ensures |ScaleLinks(ScaleLinks(links, a), b)| == |links|
    ensures forall i :: 0 <= i < |links| ==>
      var l := ScaleLinks(ScaleLinks(links, a), b)[i];
      l.uri == links[i].uri &&
      UnitConversions.Encloses(l.bounds, UnitConversions.Scaled(links[i].bounds, a * b))
  {
    forall i | 0 <= i < |links|
      ensures UnitConversions.Encloses(ScaleLinks(ScaleLinks(links, a), b)[i].bounds,
                                       UnitConversions.Scaled(links[i].bounds, a * b))
    {
      UnitConversions.ScaleTwiceEncloses(links[i].bounds, a, b);
    }
  }

  class PdfPageLinks {
    var baseLinks: seq<Link>
    var scaledLinks: Option<seq<Link>>

    constructor (links: seq<Link>)
      ensures baseLinks == links && scaledLinks == None
    {
      baseLinks := links;
      scaledLinks := None;
    }

    /** The list hit-testing searches: the scaled copy when there is one. */
    function Active(): seq<Link>
      reads this
    {
      if scaledLinks.Some? then scaledLinks.value else baseLinks
    }

    /** `setBaseScale`: the base list is replaced by its scaled copy; the zoom copy is dropped. */
    method SetBaseScale(s: real)
      modifies this
      ensures baseLinks == ScaleLinks(old(baseLinks), s)
      ensures scaledLinks == None
    {
      baseLinks := ScaleLinks(baseLinks, s);
      scaledLinks := None;
    }

    /**
     * `scale`: the zoom copy becomes the base list scaled by `s`. The base list
     * is untouched, so the result does not depend on earlier `scale` calls.
     */
    method Scale(s: real)
      modifies this
      ensures scaledLinks == Some(ScaleLinks(baseLinks, s))
      ensures baseLinks == old(baseLinks)
    {
      scaledLinks := Some(ScaleLinks(baseLinks, s));
    }

    /** `resetScale`: only the zoom copy is dropped. */
    method ResetScale()
      modifies this
      ensures scaledLinks == None
      ensures baseLinks == old(baseLinks)
    {
      scaledLinks := None;
    }

    /**
     * `findLink`: walks the active list in order and returns the first link
     * containing `position`, or nothing.
     */
    method FindLink(position: Offset) returns (link: Option<Link>)
      ensures link == LinkAt(Active(), position)
      ensures link.Some? ==> link.value in Active() && link.value.bounds.Contains(position)
    {
      var links := if scaledLinks.Some? then scaledLinks.value else baseLinks;
      var i := 0;
      while i < |links|
        invariant 0 <= i <= |links|
        invariant forall j :: 0 <= j < i ==> !links[j].bounds.Contains(position)
      {
        if links[i].bounds.Contains(position) {
          return Some(links[i]);
        }
        i := i + 1;
      }
      return None;
    }
  }
}
