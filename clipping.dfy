/**
 * Classifying one freight trip against the region and clipping it to the
 * part that lies inside: the four cases (interior, outgoing, incoming,
 * through) and the scan of the routed path for boundary links.
 */
module TripClipping {
  import opened Optional
  import opened FreightNetwork
  import opened BoundaryLinks

  /** An activity of an input plan: where it happens and when it ends, if set. */
  datatype PlannedActivity = PlannedActivity(linkId: LinkId, coord: Coord, endTime: Option<real>)

  /** A freight plan: a start activity, one leg, an end activity (the leg carries nothing used here). */
  datatype TripPlan = TripPlan(startActivity: PlannedActivity, endActivity: PlannedActivity)

  /** An activity of a clipped trip; coordinate and end time stay unset until a setter runs. */
  datatype FreightActivity = FreightActivity(actType: string, coord: Option<Coord>, endTime: Option<real>)

  /** What one input trip becomes: skipped (no output, not counted), or a start and an end activity. */
  datatype Clipping = Skipped | Clipped(act0: FreightActivity, act1: FreightActivity)

  /** The four mutually exclusive cases, chosen by where origin and destination lie. */
  datatype TripCase = Interior | Outgoing | Incoming | Through

  const StartType: string := "freight_start"
  const EndType: string := "freight_end"

  /** A freshly created start or end activity: nothing set. */
  const UnsetStart: FreightActivity := FreightActivity(StartType, None, None)
  const UnsetEnd: FreightActivity := FreightActivity(EndType, None, None)

  function CaseOf(originIsInside: bool, destinationIsInside: bool): (c: TripCase)
    ensures c == Interior <==> originIsInside && destinationIsInside
    ensures c == Outgoing <==> originIsInside && !destinationIsInside
    ensures c == Incoming <==> !originIsInside && destinationIsInside
    ensures c == Through <==> !originIsInside && !destinationIsInside
  {
    if originIsInside && destinationIsInside then Interior
    else if originIsInside then Outgoing
    else if destinationIsInside then Incoming
    else Through
  }

  function TripCaseOf(contains: Coord -> bool, plan: TripPlan): TripCase {
    CaseOf(contains(plan.startActivity.coord), contains(plan.endActivity.coord))
  }

  /** The departure time: the start activity's end time, 0 when it has none. */
  function DepartureTime(plan: TripPlan): (t: real)
    ensures plan.startActivity.endTime.Some? ==> t == plan.startActivity.endTime.value
    ensures plan.startActivity.endTime.None? ==> t == 0.0
  {
    plan.startActivity.endTime.GetOr(0.0)
  }

  /** Both links of the plan are in the network. */
  predicate LinksKnown(net: Network, plan: TripPlan) {
    LinkById(net.links, plan.startActivity.linkId).Some? && LinkById(net.links, plan.endActivity.linkId).Some?
  }

  /**
   * What the extractor needs of a trip: every case but the interior one
   * looks both links up in the network.
   */
  predicate Routable(net: Network, contains: Coord -> bool, plan: TripPlan) {
    TripCaseOf(contains, plan) == Interior || LinksKnown(net, plan)
  }

  /** The routed path: from the to-node of the start link to the to-node of the end link. */
  function Route(net: Network, router: (Node, Node) -> seq<Link>, plan: TripPlan): seq<Link>
    requires LinksKnown(net, plan)
  {
    router(LinkById(net.links, plan.startActivity.linkId).value.toNode,
           LinkById(net.links, plan.endActivity.linkId).value.toNode)
  }

  /**
   * In a network with distinct link ids, every trip is routed from the
   * to-node of the network link that carries its start link id to the
   * to-node of the one that carries its end link id.
   */
  lemma RouteEndpoints(net: Network, router: (Node, Node) -> seq<Link>, plan: TripPlan, s: Link, e: Link)
    requires DistinctIds(net.links)
    requires s in net.links && s.id == plan.startActivity.linkId
    requires e in net.links && e.id == plan.endActivity.linkId
    ensures LinksKnown(net, plan) && Route(net, router, plan) == router(s.toNode, e.toNode)
  {
  }

  /** The index of the first link of `route[from..]` whose id is listed in `boundary`. */
  function FirstBoundaryFrom(route: seq<Link>, boundary: seq<LinkId>, from: nat): (k: Option<nat>)
    requires from <= |route|
    ensures k.Some? ==> from <= k.value < |route| && route[k.value].id in boundary
    ensures k.Some? ==> forall j :: from <= j < k.value ==> route[j].id !in boundary
    ensures k.None? ==> forall j :: from <= j < |route| ==> route[j].id !in boundary
    decreases |route| - from
  {
    if from == |route| then None
    else if route[from].id in boundary then Some(from)
    else FirstBoundaryFrom(route, boundary, from + 1)
  }

  /** The representative point of the link at index `k`, or unset when there is none. */
  function CoordAt(route: seq<Link>, k: Option<nat>): Option<Coord>
    requires k.Some? ==> k.value < |route|
  {
    if k.Some? then Some(route[k.value].coord) else None
  }

  /**
   * The start activity of an incoming or through trip: placed on the first
   * boundary link, ending at the departure time plus the traversal times of
   * the links before it; unset when the route crosses no boundary link.
   */
  function EntryActivity(route: seq<Link>, boundary: seq<LinkId>, departureTime: real): (a: FreightActivity)
    ensures a.actType == StartType
    ensures a.endTime.Some? <==> exists j :: 0 <= j < |route| && route[j].id in boundary
    ensures a.coord.Some? <==> a.endTime.Some?
    ensures a.endTime.Some? ==> departureTime <= a.endTime.value
  {
    var k := FirstBoundaryFrom(route, boundary, 0);
    if k.Some? then
      FreightActivity(StartType, Some(route[k.value].coord),
                      Some(departureTime + TravelTime(route[..k.value]) as real))
    else UnsetStart
  }

  /** A through trip: skipped without a crossing, else clipped between its first two crossings. */
  function ThroughClip(route: seq<Link>, boundary: seq<LinkId>, departureTime: real): (r: Clipping)
    ensures r.Skipped? <==> forall j :: 0 <= j < |route| ==> route[j].id !in boundary
    ensures r.Clipped? ==> r.act0.coord.Some? && r.act0.endTime.Some? && departureTime <= r.act0.endTime.value
    ensures r.Clipped? ==> r.act1.actType == EndType && r.act1.endTime.None?
  {
    var entry := FirstBoundaryFrom(route, boundary, 0);
    if entry.None? then Skipped
    else
      Clipped(EntryActivity(route, boundary, departureTime),
              FreightActivity(EndType, CoordAt(route, FirstBoundaryFrom(route, boundary, entry.value + 1)), None))
  }

  /** Reference definition of the clipped trip, case by case. */
  function Clip(net: Network, contains: Coord -> bool, router: (Node, Node) -> seq<Link>,
                boundary: seq<LinkId>, plan: TripPlan): (r: Clipping)
    requires Routable(net, contains, plan)
    ensures r.Skipped? ==> TripCaseOf(contains, plan) == Through
    ensures r.Clipped? ==> r.act0.actType == StartType && r.act1.actType == EndType && r.act1.endTime.None?
    ensures TripCaseOf(contains, plan) != Incoming && r.Clipped? ==> r.act0.endTime.Some?
    ensures contains(plan.endActivity.coord) ==> r.Clipped? && r.act1.coord == Some(plan.endActivity.coord)
    ensures contains(plan.startActivity.coord) ==>
              r.Clipped? && r.act0 == FreightActivity(StartType, Some(plan.startActivity.coord), Some(DepartureTime(plan)))
  {
    var origin := Some(plan.startActivity.coord);
    var destination := Some(plan.endActivity.coord);
    var departure := Some(DepartureTime(plan));
    match TripCaseOf(contains, plan)
    case Interior =>
      Clipped(FreightActivity(StartType, origin, departure), FreightActivity(EndType, destination, None))
    case Outgoing =>
      var route := Route(net, router, plan);
      Clipped(FreightActivity(StartType, origin, departure),
              FreightActivity(EndType, CoordAt(route, FirstBoundaryFrom(route, boundary, 0)), None))
    case Incoming =>
      var route := Route(net, router, plan);
      Clipped(EntryActivity(route, boundary, DepartureTime(plan)), FreightActivity(EndType, destination, None))
    case Through =>
      ThroughClip(Route(net, router, plan), boundary, DepartureTime(plan))
  }

  /**
   * Outgoing scan: walks the route and stops at the first listed link; the
   * end activity moves to that link's representative point.
   */
  method ScanOutgoing(route: seq<Link>, linksOnTheBoundary: seq<LinkId>) returns (act1: FreightActivity)
    ensures act1 == FreightActivity(EndType, CoordAt(route, FirstBoundaryFrom(route, linksOnTheBoundary, 0)), None)
  {
    act1 := UnsetEnd;
    ghost var exit := FirstBoundaryFrom(route, linksOnTheBoundary, 0);
    var i := 0;
    while i < |route|
      invariant 0 <= i <= |route|
      invariant FirstBoundaryFrom(route, linksOnTheBoundary, i) == exit
      invariant act1 == UnsetEnd
    {
      if route[i].id in linksOnTheBoundary {
        act1 := act1.(coord := Some(route[i].coord));
        break;
      }
      i := i + 1;
    }
  }

  /**
   * Incoming scan: accumulates traversal time link by link and, at the first
   * listed link, places the start activity there with the time spent so far.
   */
  method ScanIncoming(route: seq<Link>, linksOnTheBoundary: seq<LinkId>, departureTime: real)
    returns (act0: FreightActivity)
    ensures act0 == EntryActivity(route, linksOnTheBoundary, departureTime)
  {
    act0 := UnsetStart;
    ghost var entry := FirstBoundaryFrom(route, linksOnTheBoundary, 0);
    var timeSpent: int := 0;
    var i := 0;
    while i < |route|
      invariant 0 <= i <= |route|
      invariant FirstBoundaryFrom(route, linksOnTheBoundary, i) == entry
      invariant timeSpent == TravelTime(route[..i])
      invariant act0 == UnsetStart
    {
      if route[i].id in linksOnTheBoundary {
        act0 := act0.(coord := Some(route[i].coord));
        var newEndTime := departureTime + timeSpent as real;
        act0 := act0.(endTime := Some(newEndTime));
        break;
      }
      assert TravelTime(route[..i + 1]) == timeSpent + TraversalTime(route[i]) by {
        assert route[..i + 1] == route[..i] + [route[i]];
        TravelTimeAppend(route[..i], route[i]);
      }
      timeSpent := timeSpent + TraversalTime(route[i]);
      i := i + 1;
    }
  }

  /**
   * Through scan: the first listed link sets the start activity as in the
   * incoming scan, the next one sets the end activity and stops the scan.
   * `tripIsRelevant` reports whether any listed link was met.
   */
  method ScanThrough(route: seq<Link>, linksOnTheBoundary: seq<LinkId>, departureTime: real)
    returns (tripIsRelevant: bool, act0: FreightActivity, act1: FreightActivity)
    ensures tripIsRelevant <==> FirstBoundaryFrom(route, linksOnTheBoundary, 0).Some?
    ensures act0 == EntryActivity(route, linksOnTheBoundary, departureTime)
    ensures act1 == if tripIsRelevant
                    then FreightActivity(EndType, CoordAt(route, FirstBoundaryFrom(route, linksOnTheBoundary,
                                                                                   FirstBoundaryFrom(route, linksOnTheBoundary, 0).value + 1)), None)
                    else UnsetEnd
  {
    act0, act1 := UnsetStart, UnsetEnd;
    tripIsRelevant := false;
    var timeSpent: int := 0;
    var vehicleIsInside := false;
    ghost var entry := FirstBoundaryFrom(route, linksOnTheBoundary, 0);
    var i := 0;
    while i < |route|
      invariant 0 <= i <= |route|
      invariant timeSpent == TravelTime(route[..i])
      invariant tripIsRelevant == vehicleIsInside
      invariant !vehicleIsInside ==> FirstBoundaryFrom(route, linksOnTheBoundary, i) == entry && act0 == UnsetStart
      invariant vehicleIsInside ==>
                  entry.Some? && entry.value < i &&
                  act0 == EntryActivity(route, linksOnTheBoundary, departureTime) &&
                  FirstBoundaryFrom(route, linksOnTheBoundary, entry.value + 1) ==
                  FirstBoundaryFrom(route, linksOnTheBoundary, i)
      invariant act1 == UnsetEnd
    {
      if route[i].id in linksOnTheBoundary {
        tripIsRelevant := true;
        if !vehicleIsInside {
          act0 := act0.(coord := Some(route[i].coord));
          var newEndTime := departureTime + timeSpent as real;
          act0 := act0.(endTime := Some(newEndTime));
          vehicleIsInside := true;
        } else {
          act1 := act1.(coord := Some(route[i].coord));
          break;
        }
      }
      assert TravelTime(route[..i + 1]) == timeSpent + TraversalTime(route[i]) by {
        assert route[..i + 1] == route[..i] + [route[i]];
        TravelTimeAppend(route[..i], route[i]);
      }
      timeSpent := timeSpent + TraversalTime(route[i]);
      i := i + 1;
    }
  }

  /**
   * The per-person body of the extractor: classify the trip, then set the
   * start and end activities as its case requires. The four tests are
   * independent `if`s, exactly one of which holds.
   */
  method ClipTrip(net: Network, contains: Coord -> bool, router: (Node, Node) -> seq<Link>,
                  linksOnTheBoundary: seq<LinkId>, plan: TripPlan) returns (c: Clipping)
    requires Routable(net, contains, plan)
    ensures c == Clip(net, contains, router, linksOnTheBoundary, plan)
  {
    var startCoord := plan.startActivity.coord;
    var endCoord := plan.endActivity.coord;
    var departureTime := plan.startActivity.endTime.GetOr(0.0);

    var originIsInside := contains(startCoord);
    var destinationIsInside := contains(endCoord);

    var act0 := UnsetStart;
    var act1 := UnsetEnd;

    // interior: both ends inside, copied unchanged, no routing
    if originIsInside && destinationIsInside {
      act0 := act0.(coord := Some(startCoord), endTime := Some(departureTime));
      act1 := act1.(coord := Some(endCoord));
    }

    // outgoing: the end moves to the first boundary link, if any
    if originIsInside && !destinationIsInside {
      act0 := act0.(coord := Some(startCoord), endTime := Some(departureTime));
      var route := router(LinkById(net.links, plan.startActivity.linkId).value.toNode,
                          LinkById(net.links, plan.endActivity.linkId).value.toNode);
      act1 := ScanOutgoing(route, linksOnTheBoundary);
    }

    // incoming: the start moves to the first boundary link, with the time spent before it
    if !originIsInside && destinationIsInside {
      var route := router(LinkById(net.links, plan.startActivity.linkId).value.toNode,
                          LinkById(net.links, plan.endActivity.linkId).value.toNode);
      act0 := ScanIncoming(route, linksOnTheBoundary, departureTime);
      act1 := act1.(coord := Some(endCoord));
    }

    // through: entry at the first boundary link, exit at the next one
    if !originIsInside && !destinationIsInside {
      var route := router(LinkById(net.links, plan.startActivity.linkId).value.toNode,
                          LinkById(net.links, plan.endActivity.linkId).value.toNode);
      var tripIsRelevant;
      tripIsRelevant, act0, act1 := ScanThrough(route, linksOnTheBoundary, departureTime);
      if !tripIsRelevant {
        c := Skipped;
        return;
      }
    }

    c := Clipped(act0, act1);
  }

  /** The route's links are links of the network, whose ids are distinct. */
  ghost predicate OnNetwork(net: Network, route: seq<Link>) {
    DistinctIds(net.links) && forall i :: 0 <= i < |route| ==> route[i] in net.links
  }

  /**
   * Geometric definition of a crossing: the index of the first link of
   * `route[from..]` with exactly one end node inside the region.
   */
  function FirstCrossing(contains: Coord -> bool, route: seq<Link>, from: nat): (k: Option<nat>)
    requires from <= |route|
    ensures k.Some? ==> from <= k.value < |route| && IsBoundary(contains, route[k.value])
    ensures k.Some? ==> forall j :: from <= j < k.value ==> !IsBoundary(contains, route[j])
    ensures k.None? ==> forall j :: from <= j < |route| ==> !IsBoundary(contains, route[j])
    decreases |route| - from
  {
    if from == |route| then None
    else if IsBoundary(contains, route[from]) then Some(from)
    else FirstCrossing(contains, route, from + 1)
  }

  /**
   * On a route through the network, looking links up in the precomputed
   * boundary list finds exactly the first geometric crossing.
   */
  lemma {:induction false} ListedIsCrossing(net: Network, contains: Coord -> bool, route: seq<Link>, from: nat)
    requires OnNetwork(net, route)
    requires from <= |route|
    ensures FirstBoundaryFrom(route, BoundaryIds(contains, net.links), from) == FirstCrossing(contains, route, from)
    decreases |route| - from
  {
    if from < |route| {
      BoundaryMembership(contains, net.links, route[from]);
      ListedIsCrossing(net, contains, route, from + 1);
    }
  }

  /** Only through trips are ever skipped; all other trips reach the horizon filter. */
  lemma SkippedOnlyThrough(net: Network, contains: Coord -> bool, router: (Node, Node) -> seq<Link>,
                           boundary: seq<LinkId>, plan: TripPlan)
    requires Routable(net, contains, plan)
    ensures Clip(net, contains, router, boundary, plan).Skipped? ==> TripCaseOf(contains, plan) == Through
  {
  }

  /**
   * Interior trips keep their original start coordinate, departure time and
   * end coordinate, and do not depend on the network, the router or the
   * boundary list: no route is computed.
   */
  lemma InteriorTripCopied(net: Network, net': Network, contains: Coord -> bool,
                           router: (Node, Node) -> seq<Link>, router': (Node, Node) -> seq<Link>,
                           boundary: seq<LinkId>, boundary': seq<LinkId>, plan: TripPlan)
    requires TripCaseOf(contains, plan) == Interior
    ensures Clip(net, contains, router, boundary, plan) == Clip(net', contains, router', boundary', plan)
    ensures Clip(net, contains, router, boundary, plan) ==
            Clipped(FreightActivity(StartType, Some(plan.startActivity.coord), Some(DepartureTime(plan))),
                    FreightActivity(EndType, Some(plan.endActivity.coord), None))
  {
  }

  /**
   * Outgoing trips keep their start; their end moves to the representative
   * point of the first crossing link. A route with no crossing leaves the
   * end coordinate unset, and the trip is still not skipped.
   */
  lemma OutgoingTrip(net: Network, contains: Coord -> bool, router: (Node, Node) -> seq<Link>, plan: TripPlan)
    requires TripCaseOf(contains, plan) == Outgoing
    requires LinksKnown(net, plan)
    requires OnNetwork(net, Route(net, router, plan))
    ensures var c := Clip(net, contains, router, BoundaryIds(contains, net.links), plan);
            var route := Route(net, router, plan);
            && c.Clipped?
            && c.act0 == FreightActivity(StartType, Some(plan.startActivity.coord), Some(DepartureTime(plan)))
            && c.act1 == FreightActivity(EndType, CoordAt(route, FirstCrossing(contains, route, 0)), None)
            && (c.act1.coord.None? <==> forall j :: 0 <= j < |route| ==> !IsBoundary(contains, route[j]))
  {
    ListedIsCrossing(net, contains, Route(net, router, plan), 0);
  }

  /**
   * Incoming trips keep their destination; with a crossing at index k the
   * start moves to that link with end time departure + the traversal times
   * of route[..k]; with no crossing the start's end time stays unset.
   */
  lemma IncomingTrip(net: Network, contains: Coord -> bool, router: (Node, Node) -> seq<Link>, plan: TripPlan)
    requires TripCaseOf(contains, plan) == Incoming
    requires LinksKnown(net, plan)
    requires OnNetwork(net, Route(net, router, plan))
    ensures var c := Clip(net, contains, router, BoundaryIds(contains, net.links), plan);
            var route := Route(net, router, plan);
            var k := FirstCrossing(contains, route, 0);
            && c.Clipped?
            && c.act1 == FreightActivity(EndType, Some(plan.endActivity.coord), None)
            && (k.Some? ==> c.act0 == FreightActivity(StartType, Some(route[k.value].coord),
                                                     Some(DepartureTime(plan) + TravelTime(route[..k.value]) as real)))
            && (k.None? ==> c.act0 == UnsetStart)
  {
    ListedIsCrossing(net, contains, Route(net, router, plan), 0);
  }

  /** A through trip is skipped iff no link of its route has exactly one end inside. */
  lemma ThroughTripSkipped(net: Network, contains: Coord -> bool, route: seq<Link>, departureTime: real)
    requires OnNetwork(net, route)
    ensures ThroughClip(route, BoundaryIds(contains, net.links), departureTime).Skipped? <==>
            forall j :: 0 <= j < |route| ==> !IsBoundary(contains, route[j])
  {
    ListedIsCrossing(net, contains, route, 0);
  }

  /**
   * A through trip that crosses is clipped between its first crossing, which
   * sets the start as for incoming trips, and the next crossing after it,
   * which sets the end coordinate (left unset when there is no second one).
   */
  lemma ThroughTripClipped(net: Network, contains: Coord -> bool, route: seq<Link>, departureTime: real)
    requires OnNetwork(net, route)
    requires FirstCrossing(contains, route, 0).Some?
    ensures var k := FirstCrossing(contains, route, 0).value;
            ThroughClip(route, BoundaryIds(contains, net.links), departureTime) ==
            Clipped(FreightActivity(StartType, Some(route[k].coord),
                                    Some(departureTime + TravelTime(route[..k]) as real)),
                    FreightActivity(EndType, CoordAt(route, FirstCrossing(contains, route, k + 1)), None))
  {
    var k := FirstCrossing(contains, route, 0).value;
    ListedIsCrossing(net, contains, route, 0);
    ListedIsCrossing(net, contains, route, k + 1);
  }

  /**
   * The clipped start time counts every link before the crossing link, one
   * second at least each, and not the crossing link itself: it lies at
   * least that link's traversal time before the end of the whole route.
   */
  lemma EntryTimeBounds(route: seq<Link>, boundary: seq<LinkId>, departureTime: real)
    requires FirstBoundaryFrom(route, boundary, 0).Some?
    ensures var k := FirstBoundaryFrom(route, boundary, 0).value;
            var t := EntryActivity(route, boundary, departureTime).endTime;
            && t.Some?
            && departureTime + k as real <= t.value
            && t.value + TraversalTime(route[k]) as real <= departureTime + TravelTime(route) as real
  {
    var k := FirstBoundaryFrom(route, boundary, 0).value;
    assert route == route[..k] + [route[k]] + route[k + 1..];
    TravelTimeConcat(route[..k] + [route[k]], route[k + 1..]);
    TravelTimeAppend(route[..k], route[k]);
  }
}
