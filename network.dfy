/**
 * The road network as the extractor sees it: nodes with coordinates and
 * directed links that carry their end nodes, a representative coordinate,
 * a length and a free-flow speed.
 */
module FreightNetwork {
  import opened Optional

  /** A planar coordinate in the network's coordinate reference system. */
  datatype Coord = Coord(x: real, y: real)

  type NodeId = string
  type LinkId = string

  datatype Node = Node(id: NodeId, coord: Coord)

  /** Link lengths are never negative (metres). */
  type Length = r: real | r >= 0.0

  /** Free-flow speeds are strictly positive (metres per second). */
  type Speed = r: real | r > 0.0 witness 1.0

  /**
   * A directed link. `coord` is the link's own representative point, the
   * one the extractor uses as a clipped trip end; it is neither end node.
   */
  datatype Link = Link(id: LinkId, fromNode: Node, toNode: Node, coord: Coord,
                       length: Length, freespeed: Speed)

  /** The network's links in the order the link collection iterates them. */
  datatype Network = Network(links: seq<Link>)

  /** Link ids are keys of the network's link map: no two links share one. */
  ghost predicate DistinctIds(links: seq<Link>) {
    forall i, j :: 0 <= i < j < |links| ==> links[i].id != links[j].id
  }

  /** The link stored under `id`, if any (the network's link-map lookup). */
  function LinkById(links: seq<Link>, id: LinkId): (r: Option<Link>)
    ensures r.Some? ==> r.value in links && r.value.id == id
    ensures r.None? ==> forall i :: 0 <= i < |links| ==> links[i].id != id
  {
    if links == [] then None
    else if links[0].id == id then Some(links[0])
    else LinkById(links[1..], id)
  }

  /** With distinct ids, the lookup returns the one link that carries the id. */
  lemma LinkByIdUnique(links: seq<Link>, id: LinkId)
    ensures DistinctIds(links) ==> forall l :: l in links && l.id == id ==> LinkById(links, id) == Some(l)
  {
  }

  /**
   * Seconds to traverse a link at free-flow speed, rounded down to whole
   * seconds and then increased by one.
   */
  function TraversalTime(l: Link): (t: int)
    ensures t >= 1
    ensures (t - 1) as real <= l.length / l.freespeed < t as real
  {
    var ratio := l.length / l.freespeed;
    assert ratio >= 0.0 by { assert ratio * l.freespeed == l.length; }
    ratio.Floor + 1
  }

  /** Total traversal time of a sequence of links, in seconds. */
  function TravelTime(path: seq<Link>): (t: int)
    ensures t >= |path|
  {
    if path == [] then 0
    else TravelTime(path[..|path| - 1]) + TraversalTime(path[|path| - 1])
  }

  /** Travel time is additive over a path that is extended by one link. */
  lemma TravelTimeAppend(path: seq<Link>, l: Link)
    ensures TravelTime(path + [l]) == TravelTime(path) + TraversalTime(l)
  {
    assert (path + [l])[..|path|] == path;
  }

  /** Travel time is additive over concatenated paths. */
  lemma {:induction false} TravelTimeConcat(p: seq<Link>, q: seq<Link>)
    ensures TravelTime(p + q) == TravelTime(p) + TravelTime(q)
    decreases |q|
  {
    if q == [] {
      assert p + q == p;
    } else {
      var q' := q[..|q| - 1];
      var l := q[|q| - 1];
      assert q == q' + [l];
      assert p + q == (p + q') + [l];
      TravelTimeAppend(p + q', l);
      TravelTimeConcat(p, q');
      TravelTimeAppend(q', l);
    }
  }
}
