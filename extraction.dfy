/**
 * The extractor's main loop: compute the boundary links once, clip every
 * input trip, keep the clipped trips that start before the end of the day,
 * number them with a running counter, and count the trips processed.
 */
module FreightExtraction {
  import opened Optional
  import opened FreightNetwork
  import opened BoundaryLinks
  import opened TripClipping
  import opened PersonIds

  /** One day in seconds: start activities ending at or after it are dropped. */
  const Horizon: real := 86400.0

  const FreightMode: string := "freight"

  datatype Leg = Leg(mode: string)

  /** The plan of an output person: start activity, freight leg, end activity. */
  datatype FreightPlan = FreightPlan(act0: FreightActivity, leg: Leg, act1: FreightActivity)

  datatype FreightPerson = FreightPerson(id: string, plan: FreightPlan)

  /** The start activity's end time, 86400 when unset, lies strictly before 86400. */
  predicate WithinHorizon(act0: FreightActivity): (b: bool)
    ensures b <==> act0.endTime.Some? && act0.endTime.value < 86400.0
  {
    act0.endTime.GetOr(Horizon) < Horizon
  }

  /** A clipping is written out: it was not skipped and it starts within the horizon. */
  predicate Emitted(c: Clipping): (b: bool)
    ensures b ==> c.Clipped? && c.act0.endTime.Some? && c.act0.endTime.value < 86400.0
  {
    c.Clipped? && WithinHorizon(c.act0)
  }

  ghost predicate AllRoutable(net: Network, contains: Coord -> bool, persons: seq<TripPlan>) {
    forall i :: 0 <= i < |persons| ==> Routable(net, contains, persons[i])
  }

  /** The plans written out for `persons`, in processing order. */
  function EmittedPlans(net: Network, contains: Coord -> bool, router: (Node, Node) -> seq<Link>,
                        boundary: seq<LinkId>, persons: seq<TripPlan>): (plans: seq<FreightPlan>)
    requires AllRoutable(net, contains, persons)
    ensures |plans| <= |persons|
    ensures forall j :: 0 <= j < |plans| ==>
              plans[j].leg == Leg(FreightMode) && plans[j].act0.actType == StartType && plans[j].act1.actType == EndType
  {
    if persons == [] then []
    else
      var c := Clip(net, contains, router, boundary, persons[|persons| - 1]);
      EmittedPlans(net, contains, router, boundary, persons[..|persons| - 1]) +
        if Emitted(c) then [FreightPlan(c.act0, Leg(FreightMode), c.act1)] else []
  }

  /** The number of `persons` whose trip was not skipped. */
  function ProcessedCount(net: Network, contains: Coord -> bool, router: (Node, Node) -> seq<Link>,
                          boundary: seq<LinkId>, persons: seq<TripPlan>): (n: nat)
    requires AllRoutable(net, contains, persons)
    ensures n <= |persons|
  {
    if persons == [] then 0
    else
      var c := Clip(net, contains, router, boundary, persons[|persons| - 1]);
      ProcessedCount(net, contains, router, boundary, persons[..|persons| - 1]) + if c.Skipped? then 0 else 1
  }

  /**
   * The whole extraction. The output persons carry the emitted plans in
   * processing order with ids "0", "1", "2", ...; `generated` counts them
   * and `processed` counts the trips that were not skipped.
   */
  method Extract(net: Network, contains: Coord -> bool, router: (Node, Node) -> seq<Link>,
                 persons: seq<TripPlan>)
    returns (outputPlans: seq<FreightPerson>, generated: nat, processed: nat)
    requires AllRoutable(net, contains, persons)
    ensures var plans := EmittedPlans(net, contains, router, BoundaryIds(contains, net.links), persons);
            && |outputPlans| == |plans| == generated
            && forall j :: 0 <= j < |outputPlans| ==> outputPlans[j] == FreightPerson(NatToString(j), plans[j])
    ensures processed == ProcessedCount(net, contains, router, BoundaryIds(contains, net.links), persons)
    ensures generated <= processed <= |persons|
  {
    var linksOnTheBoundary := ComputeBoundaryLinks(net, contains);
    outputPlans, generated, processed := [], 0, 0;
    ghost var emitted: seq<FreightPlan> := [];
    for i := 0 to |persons|
      invariant emitted == EmittedPlans(net, contains, router, linksOnTheBoundary, persons[..i])
      invariant generated == |outputPlans| == |emitted|
      invariant forall j :: 0 <= j < |outputPlans| ==> outputPlans[j] == FreightPerson(NatToString(j), emitted[j])
      invariant processed == ProcessedCount(net, contains, router, linksOnTheBoundary, persons[..i])
      invariant generated <= processed <= i
    {
      var c := ClipTrip(net, contains, router, linksOnTheBoundary, persons[i]);
      assert EmittedPlans(net, contains, router, linksOnTheBoundary, persons[..i + 1]) ==
               emitted + (if Emitted(c) then [FreightPlan(c.act0, Leg(FreightMode), c.act1)] else []) &&
             ProcessedCount(net, contains, router, linksOnTheBoundary, persons[..i + 1]) ==
               processed + (if c.Skipped? then 0 else 1) by {
        assert persons[..i + 1] == persons[..i] + [persons[i]];
        AppendTrip(net, contains, router, linksOnTheBoundary, persons[..i], persons[i]);
      }
      if c.Skipped? {
        continue;
      }
      if c.act0.endTime.GetOr(Horizon) < Horizon {
        var freightPerson := FreightPerson(NatToString(generated), FreightPlan(c.act0, Leg(FreightMode), c.act1));
        ghost var before, emittedBefore := outputPlans, emitted;
        outputPlans := outputPlans + [freightPerson];
        generated := generated + 1;
        emitted := emitted + [freightPerson.plan];
        forall j | 0 <= j < |outputPlans| ensures outputPlans[j] == FreightPerson(NatToString(j), emitted[j]) {
          if j < |before| {
            assert outputPlans[j] == before[j] && emitted[j] == emittedBefore[j];
          }
        }
      }
      processed := processed + 1;
    }
    assert persons[..|persons|] == persons;
  }

  /** Every emitted plan's start activity has an end time, and it is before 86400. */
  lemma {:induction false} EmittedWithinHorizon(net: Network, contains: Coord -> bool, router: (Node, Node) -> seq<Link>,
                                                boundary: seq<LinkId>, persons: seq<TripPlan>)
    requires AllRoutable(net, contains, persons)
    ensures forall j :: 0 <= j < |EmittedPlans(net, contains, router, boundary, persons)| ==>
              var t := EmittedPlans(net, contains, router, boundary, persons)[j].act0.endTime;
              t.Some? && t.value < Horizon
    decreases |persons|
  {
    if persons != [] {
      EmittedWithinHorizon(net, contains, router, boundary, persons[..|persons| - 1]);
    }
  }

  /** Output person ids are pairwise distinct. */
  lemma OutputIdsDistinct(outputPlans: seq<FreightPerson>, plans: seq<FreightPlan>)
    requires |outputPlans| == |plans|
    requires forall j :: 0 <= j < |outputPlans| ==> outputPlans[j] == FreightPerson(NatToString(j), plans[j])
    ensures forall i, j :: 0 <= i < j < |outputPlans| ==> outputPlans[i].id != outputPlans[j].id
  {
    forall i, j | 0 <= i < j < |outputPlans| ensures outputPlans[i].id != outputPlans[j].id {
      NatToStringInjective(i, j);
    }
  }

  /**
   * Adding one trip: the emitted plans grow by its plan iff it was clipped
   * and starts within the horizon, the processed count grows by one iff it
   * was not skipped.
   */
  lemma AppendTrip(net: Network, contains: Coord -> bool, router: (Node, Node) -> seq<Link>,
                   boundary: seq<LinkId>, persons: seq<TripPlan>, plan: TripPlan)
    requires AllRoutable(net, contains, persons)
    requires Routable(net, contains, plan)
    ensures var c := Clip(net, contains, router, boundary, plan);
            && EmittedPlans(net, contains, router, boundary, persons + [plan]) ==
               EmittedPlans(net, contains, router, boundary, persons) +
                 (if Emitted(c) then [FreightPlan(c.act0, Leg(FreightMode), c.act1)] else [])
            && ProcessedCount(net, contains, router, boundary, persons + [plan]) ==
               ProcessedCount(net, contains, router, boundary, persons) + (if c.Skipped? then 0 else 1)
  {
    assert (persons + [plan])[..|persons|] == persons;
  }

  /**
   * An incoming trip whose route never crosses the boundary is processed but
   * never emitted: its start time is never set and the default 86400 fails
   * the horizon test.
   */
  lemma IncomingWithoutCrossingDropped(net: Network, contains: Coord -> bool, router: (Node, Node) -> seq<Link>,
                                       persons: seq<TripPlan>, plan: TripPlan)
    requires AllRoutable(net, contains, persons)
    requires TripCaseOf(contains, plan) == Incoming
    requires LinksKnown(net, plan)
    requires OnNetwork(net, Route(net, router, plan))
    requires forall j :: 0 <= j < |Route(net, router, plan)| ==> !IsBoundary(contains, Route(net, router, plan)[j])
    ensures var boundary := BoundaryIds(contains, net.links);
            && EmittedPlans(net, contains, router, boundary, persons + [plan]) ==
               EmittedPlans(net, contains, router, boundary, persons)
            && ProcessedCount(net, contains, router, boundary, persons + [plan]) ==
               ProcessedCount(net, contains, router, boundary, persons) + 1
  {
    IncomingTrip(net, contains, router, plan);
    AppendTrip(net, contains, router, BoundaryIds(contains, net.links), persons, plan);
  }

  /**
   * An outgoing trip that departs before 86400 is always emitted, with its
   * end coordinate unset when its route never crosses the boundary.
   */
  lemma OutgoingAlwaysEmitted(net: Network, contains: Coord -> bool, router: (Node, Node) -> seq<Link>,
                              persons: seq<TripPlan>, plan: TripPlan)
    requires AllRoutable(net, contains, persons)
    requires TripCaseOf(contains, plan) == Outgoing
    requires LinksKnown(net, plan)
    requires OnNetwork(net, Route(net, router, plan))
    requires DepartureTime(plan) < Horizon
    ensures var boundary := BoundaryIds(contains, net.links);
            var emitted := EmittedPlans(net, contains, router, boundary, persons + [plan]);
            var route := Route(net, router, plan);
            && |emitted| == |EmittedPlans(net, contains, router, boundary, persons)| + 1
            && emitted[|emitted| - 1].act1.coord == CoordAt(route, FirstCrossing(contains, route, 0))
  {
    OutgoingTrip(net, contains, router, plan);
    AppendTrip(net, contains, router, BoundaryIds(contains, net.links), persons, plan);
  }

  /** A through trip whose route never crosses the boundary leaves both counters unchanged. */
  lemma ThroughWithoutCrossingIgnored(net: Network, contains: Coord -> bool, router: (Node, Node) -> seq<Link>,
                                      persons: seq<TripPlan>, plan: TripPlan)
    requires AllRoutable(net, contains, persons)
    requires TripCaseOf(contains, plan) == Through
    requires LinksKnown(net, plan)
    requires OnNetwork(net, Route(net, router, plan))
    requires forall j :: 0 <= j < |Route(net, router, plan)| ==> !IsBoundary(contains, Route(net, router, plan)[j])
    ensures var boundary := BoundaryIds(contains, net.links);
            && EmittedPlans(net, contains, router, boundary, persons + [plan]) ==
               EmittedPlans(net, contains, router, boundary, persons)
            && ProcessedCount(net, contains, router, boundary, persons + [plan]) ==
               ProcessedCount(net, contains, router, boundary, persons)
  {
    ThroughTripSkipped(net, contains, Route(net, router, plan), DepartureTime(plan));
    AppendTrip(net, contains, router, BoundaryIds(contains, net.links), persons, plan);
  }

  /** At most the processed trips are emitted, and at most every trip is processed. */
  lemma {:induction false} EmittedAtMostProcessed(net: Network, contains: Coord -> bool, router: (Node, Node) -> seq<Link>,
                                                  boundary: seq<LinkId>, persons: seq<TripPlan>)
    requires AllRoutable(net, contains, persons)
    ensures |EmittedPlans(net, contains, router, boundary, persons)| <=
            ProcessedCount(net, contains, router, boundary, persons) <= |persons|
    decreases |persons|
  {
    if persons != [] {
      EmittedAtMostProcessed(net, contains, router, boundary, persons[..|persons| - 1]);
    }
  }
}
