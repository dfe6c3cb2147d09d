/**
 * Boundary links: the links whose two end nodes lie on opposite sides of
 * the region, found once per network and region before any trip is seen.
 */
module BoundaryLinks {
  import opened FreightNetwork

  /** Exactly one end node of `l` is inside the region. */
  predicate IsBoundary(contains: Coord -> bool, l: Link): (b: bool)
    ensures b <==> (contains(l.fromNode.coord) && !contains(l.toNode.coord)) ||
                   (!contains(l.fromNode.coord) && contains(l.toNode.coord))
  {
    contains(l.fromNode.coord) != contains(l.toNode.coord)
  }

  /** The ids of the boundary links of `links`, in iteration order. */
  function BoundaryIds(contains: Coord -> bool, links: seq<Link>): (ids: seq<LinkId>)
    ensures |ids| <= |links|
  {
    if links == [] then []
    else
      var last := links[|links| - 1];
      BoundaryIds(contains, links[..|links| - 1]) + if IsBoundary(contains, last) then [last.id] else []
  }

  /** Scans the network once and lists the id of every boundary link. */
  method ComputeBoundaryLinks(net: Network, contains: Coord -> bool) returns (linksOnTheBoundary: seq<LinkId>)
    ensures linksOnTheBoundary == BoundaryIds(contains, net.links)
    ensures forall id :: id in linksOnTheBoundary <==>
              exists i :: 0 <= i < |net.links| && net.links[i].id == id && IsBoundary(contains, net.links[i])
  {
    linksOnTheBoundary := [];
    var i := 0;
    while i < |net.links|
      invariant 0 <= i <= |net.links|
      invariant linksOnTheBoundary == BoundaryIds(contains, net.links[..i])
    {
      var link := net.links[i];
      assert net.links[..i + 1][..i] == net.links[..i];
      if contains(link.fromNode.coord) != contains(link.toNode.coord) {
        linksOnTheBoundary := linksOnTheBoundary + [link.id];
      }
      i := i + 1;
    }
    assert net.links[..i] == net.links;
    forall id ensures id in linksOnTheBoundary <==>
        exists i :: 0 <= i < |net.links| && net.links[i].id == id && IsBoundary(contains, net.links[i])
    {
      BoundaryIdsIff(contains, net.links, id);
    }
  }

  /** An id is listed iff some link carrying it has exactly one end inside. */
  lemma {:induction false} BoundaryIdsIff(contains: Coord -> bool, links: seq<Link>, id: LinkId)
    ensures id in BoundaryIds(contains, links) <==>
              exists i :: 0 <= i < |links| && links[i].id == id && IsBoundary(contains, links[i])
    decreases |links|
  {
    if links != [] {
      var init := links[..|links| - 1];
      BoundaryIdsIff(contains, init, id);
      if exists i :: 0 <= i < |init| && init[i].id == id && IsBoundary(contains, init[i]) {
        var i :| 0 <= i < |init| && init[i].id == id && IsBoundary(contains, init[i]);
        assert links[i] == init[i];
      }
      if exists i :: 0 <= i < |links| && links[i].id == id && IsBoundary(contains, links[i]) {
        var i :| 0 <= i < |links| && links[i].id == id && IsBoundary(contains, links[i]);
        if i < |init| { assert init[i] == links[i]; }
      }
    }
  }

  /**
   * With distinct link ids, a link of the network is listed iff it is a
   * boundary link: links with both ends inside, or both outside, never are.
   */
  lemma BoundaryMembership(contains: Coord -> bool, links: seq<Link>, l: Link)
    requires DistinctIds(links)
    requires l in links
    ensures l.id in BoundaryIds(contains, links) <==> IsBoundary(contains, l)
  {
    BoundaryIdsIff(contains, links, l.id);
    var k :| 0 <= k < |links| && links[k] == l;
    if l.id in BoundaryIds(contains, links) {
      var i :| 0 <= i < |links| && links[i].id == l.id && IsBoundary(contains, links[i]);
      assert i == k;
    }
  }
}
