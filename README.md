# Freight trip extraction for a region, in Dafny

This project models the core of `ExtractRelevantFreightTrips` from the
Düsseldorf MATSim scenario. The extractor takes Germany-wide freight demand
(one start activity, one leg and one end activity per person) and keeps the
part of each trip that concerns a study region:

1. **Boundary links.** Once per network and region it lists every link whose
   from-node and to-node lie on opposite sides of the region (an XOR of two
   containment tests).
2. **Classify and clip.** Each trip is interior, outgoing, incoming or through,
   depending on whether its origin and destination lie inside. Outgoing,
   incoming and through trips are routed from the to-node of the start link to
   the to-node of the end link. The route is then scanned link by link:
   - each link before the first listed boundary link adds
     `floor(length / freespeed) + 1` seconds;
   - the first boundary link becomes the new start (incoming, through) or the
     new end (outgoing);
   - for through trips, the next boundary link becomes the new end.
3. **Filter and number.** A clipped trip is written only if its start
   activity's end time is below 86400 s. An unset end time counts as 86400.
   Written persons get the ids "0", "1", "2", … from a running counter
   (`generated`). A second counter (`processed`) counts every trip that was
   not skipped.

Modules:

- `Optional` (optional.dfy): the option type used for unset coordinates and
  times.
- `FreightNetwork` (network.dfy): coordinates, nodes, links, link lookup by id,
  and per-link and per-path traversal time.
- `BoundaryLinks` (boundary.dfy): the XOR test, the boundary list as a
  function, and the loop that builds it.
- `TripClipping` (clipping.dfy):
  - the four cases and the reference definition `Clip` of a clipped trip;
  - the three scan loops and the per-person method `ClipTrip`, proved equal to
    `Clip`;
  - lemmas that restate every case in terms of the geometric crossing (the
    first route link with exactly one end inside).
- `PersonIds` (person_ids.dfy): decimal ids. Reading an id back gives its
  counter value, so the ids are distinct.
- `FreightExtraction` (extraction.dfy): the main loop `Extract` with its two
  counters, proved equal to the specification functions `EmittedPlans` and
  `ProcessedCount`, plus lemmas about the horizon filter and the counters.
- `ClippingExamples` (examples.dfy): a four-node line network worked by hand.
  It contains one outgoing trip and the reverse incoming trip.

External collaborators are parameters:
- region containment is `contains: Coord -> bool`;
- the least-cost router is `router: (Node, Node) -> seq<Link>`, which returns
  the links of the routed path.

Times are exact `real`s. A link's traversal time is `(length / freespeed).Floor + 1`.
Lengths are non-negative and free speeds positive, by type.

### Outgoing trips that never cross

A through trip whose route meets no boundary link is dropped by the
`continue` at line 181. One might expect the same of an outgoing trip whose
route meets no boundary link, but the outgoing branch (lines 127-139) has no
such test:
- the end activity's coordinate stays unset;
- the start time is the original departure, so the trip reaches the horizon
  filter at line 186 and is written whenever it departs before 86400.

The model follows the code (`TripClipping.OutgoingTrip`,
`FreightExtraction.OutgoingAlwaysEmitted`).

In the same way, the incoming and through start time excludes the traversal
time of the boundary link itself. The scan assigns the start before it adds
that link's time (`TripClipping.EntryTimeBounds`).

## Model

| member | source | states |
|---|---|---|
| `FreightNetwork.LinkById` | src/main/java/org/matsim/freight/ExtractRelevantFreightTrips.java:130-131 | the link-map lookup returns a network link carrying the requested id, or none exactly when no link has it |
| `FreightNetwork.TraversalTime` | src/main/java/org/matsim/freight/ExtractRelevantFreightTrips.java:152 | a link's time is at least 1 s and is the least integer strictly above length/freespeed (floor plus one) |
| `FreightNetwork.TravelTime` | src/main/java/org/matsim/freight/ExtractRelevantFreightTrips.java:144-153 | the accumulated time over a path is at least one second per link |
| `FreightNetwork.LinkByIdUnique` | src/main/java/org/matsim/freight/ExtractRelevantFreightTrips.java:130-131 | when link ids are distinct, looking up the id of any network link returns that very link |
| `BoundaryLinks.IsBoundary` | src/main/java/org/matsim/freight/ExtractRelevantFreightTrips.java:89-90 | a link is a boundary link iff its from-node is inside and its to-node outside, or the other way round |
| `BoundaryLinks.BoundaryIds` | src/main/java/org/matsim/freight/ExtractRelevantFreightTrips.java:85-93 | the boundary list holds at most one id per network link; which ids it holds is stated by `BoundaryIdsIff` |
| `BoundaryLinks.ComputeBoundaryLinks` | src/main/java/org/matsim/freight/ExtractRelevantFreightTrips.java:85-93 | the loop lists exactly the boundary ids in network order; an id is listed iff some link with that id has exactly one end inside the region |
| `BoundaryLinks.BoundaryIdsIff` | src/main/java/org/matsim/freight/ExtractRelevantFreightTrips.java:86-93 | an id is in the boundary list iff a link carrying it has contains(from) XOR contains(to) |
| `BoundaryLinks.BoundaryMembership` | src/main/java/org/matsim/freight/ExtractRelevantFreightTrips.java:86-93 | with distinct link ids, a network link is listed iff it is a boundary link; links with both ends inside or both outside are never listed |
| `PersonIds.NatToString` | src/main/java/org/matsim/freight/ExtractRelevantFreightTrips.java:187-188 | a person id is a non-empty string of decimal digits with no leading zero unless it is "0" |
| `PersonIds.DecimalValueOfNatToString` | src/main/java/org/matsim/freight/ExtractRelevantFreightTrips.java:187-188 | reading an id back as a decimal number gives the counter value it was made from |
| `PersonIds.NatToStringInjective` | src/main/java/org/matsim/freight/ExtractRelevantFreightTrips.java:187-188 | different counter values give different person ids |
| `TripClipping.CaseOf` | src/main/java/org/matsim/freight/ExtractRelevantFreightTrips.java:112-158 | each case holds exactly when its condition on origin and destination holds (interior: both inside; outgoing: origin only; incoming: destination only; through: neither); `TripCaseOf` applies it to the plan's two coordinates |
| `TripClipping.DepartureTime` | src/main/java/org/matsim/freight/ExtractRelevantFreightTrips.java:110 | the departure time is the start activity's end time when set, and 0 otherwise |
| `TripClipping.RouteEndpoints` | src/main/java/org/matsim/freight/ExtractRelevantFreightTrips.java:130-131 | with distinct link ids, the routed path is the router's path from the to-node of the network link carrying the start link id to the to-node of the one carrying the end link id |
| `TripClipping.FirstBoundaryFrom` | src/main/java/org/matsim/freight/ExtractRelevantFreightTrips.java:132-137 | the index found is the least index at or after the starting point whose link id is in the boundary list, or none when no later link is listed |
| `TripClipping.EntryActivity` | src/main/java/org/matsim/freight/ExtractRelevantFreightTrips.java:144-153 | the incoming start activity is a freight_start; its coordinate and end time are set iff some route link is listed, and a set end time is never before the departure |
| `TripClipping.ThroughClip` | src/main/java/org/matsim/freight/ExtractRelevantFreightTrips.java:158-183 | a through trip is skipped iff no route link is listed; otherwise its start has a coordinate and an end time no earlier than the departure, and its end is a freight_end with no end time |
| `TripClipping.Clip` | src/main/java/org/matsim/freight/ExtractRelevantFreightTrips.java:119-183 | the reference clipping: only a through trip is skipped; a clipped trip is freight_start then freight_end with no end time on the end; outside the incoming case the start has an end time; an inside destination is kept as the end coordinate; an inside origin keeps the start coordinate and departure time |
| `TripClipping.ScanOutgoing` | src/main/java/org/matsim/freight/ExtractRelevantFreightTrips.java:132-137 | the scan that breaks at the first listed link sets the end coordinate to that link's point, and leaves it unset when no link is listed |
| `TripClipping.ScanIncoming` | src/main/java/org/matsim/freight/ExtractRelevantFreightTrips.java:144-153 | the scan places the start on the first listed link, with end time = departure + the traversal times of the links strictly before it; with no listed link the start stays unset |
| `TripClipping.ScanThrough` | src/main/java/org/matsim/freight/ExtractRelevantFreightTrips.java:159-178 | the trip is relevant iff some link is listed; the start is set as in the incoming scan; the end is the point of the next listed link after the entry, unset if there is none |
| `TripClipping.ClipTrip` | src/main/java/org/matsim/freight/ExtractRelevantFreightTrips.java:104-183 | the per-person body, with its four independent ifs, produces exactly the reference clipping `Clip` for every trip whose links it looks up exist |
| `TripClipping.FirstCrossing` | src/main/java/org/matsim/freight/ExtractRelevantFreightTrips.java:89-90 | the index found is the least route index at or after the starting point whose link has exactly one end inside the region |
| `TripClipping.ListedIsCrossing` | src/main/java/org/matsim/freight/ExtractRelevantFreightTrips.java:85-93 | on a route of network links, searching the precomputed boundary list finds exactly the first geometric crossing |
| `TripClipping.SkippedOnlyThrough` | src/main/java/org/matsim/freight/ExtractRelevantFreightTrips.java:119-183 | only a through trip is ever skipped before the horizon filter |
| `TripClipping.InteriorTripCopied` | src/main/java/org/matsim/freight/ExtractRelevantFreightTrips.java:119-124 | an interior trip keeps its start coordinate, departure time (default 0) and end coordinate, and the result does not depend on network, router or boundary list (no routing) |
| `TripClipping.OutgoingTrip` | src/main/java/org/matsim/freight/ExtractRelevantFreightTrips.java:126-139 | an outgoing trip is never skipped; its start is the original; its end is the point of the first crossing link, and is unset iff no route link crosses |
| `TripClipping.IncomingTrip` | src/main/java/org/matsim/freight/ExtractRelevantFreightTrips.java:140-155 | an incoming trip keeps its destination; with a crossing at k it starts at link k's point at departure + TravelTime(route[..k]); with none its start coordinate and time stay unset |
| `TripClipping.ThroughTripSkipped` | src/main/java/org/matsim/freight/ExtractRelevantFreightTrips.java:158-182 | a through trip is skipped iff no link of its route has exactly one end inside |
| `TripClipping.ThroughTripClipped` | src/main/java/org/matsim/freight/ExtractRelevantFreightTrips.java:158-178 | a crossing through trip starts at the first crossing (time as for incoming) and ends at the next crossing after it, or unset when there is only one |
| `TripClipping.EntryTimeBounds` | src/main/java/org/matsim/freight/ExtractRelevantFreightTrips.java:144-153 | the clipped start time is at least departure + k for a crossing at index k, and lies at least the crossing link's own traversal time before the end of the whole route |
| `FreightExtraction.Extract` | src/main/java/org/matsim/freight/ExtractRelevantFreightTrips.java:84-201 | the output persons are the emitted plans in processing order with ids "0", "1", …; generated = number written; processed = number of trips not skipped; generated <= processed <= number of trips |
| `FreightExtraction.WithinHorizon` | src/main/java/org/matsim/freight/ExtractRelevantFreightTrips.java:186 | the filter passes iff the start activity's end time is set and strictly below 86400 (an unset time counts as 86400) |
| `FreightExtraction.Emitted` | src/main/java/org/matsim/freight/ExtractRelevantFreightTrips.java:186 | a trip is written only if it was clipped and its start activity has an end time strictly below 86400 |
| `FreightExtraction.EmittedPlans` | src/main/java/org/matsim/freight/ExtractRelevantFreightTrips.java:185-197 | the written plans, in input order: at most one per trip, each with a freight leg between a freight_start and a freight_end activity |
| `FreightExtraction.ProcessedCount` | src/main/java/org/matsim/freight/ExtractRelevantFreightTrips.java:180-197 | the number of trips not skipped, never more than the number of trips |
| `FreightExtraction.EmittedWithinHorizon` | src/main/java/org/matsim/freight/ExtractRelevantFreightTrips.java:186 | every written plan's start activity has an end time, and it is strictly below 86400 |
| `FreightExtraction.OutputIdsDistinct` | src/main/java/org/matsim/freight/ExtractRelevantFreightTrips.java:187-188 | output person ids are pairwise distinct |
| `FreightExtraction.AppendTrip` | src/main/java/org/matsim/freight/ExtractRelevantFreightTrips.java:185-197 | the one-step unfolding of `EmittedPlans` and `ProcessedCount` at persons + [plan]: one more trip adds its plan to the output iff it was clipped and starts within the horizon, and adds one to processed iff it was not skipped |
| `FreightExtraction.EmittedAtMostProcessed` | src/main/java/org/matsim/freight/ExtractRelevantFreightTrips.java:186-197 | after any prefix of the input, generated <= processed <= number of trips seen |
| `FreightExtraction.IncomingWithoutCrossingDropped` | src/main/java/org/matsim/freight/ExtractRelevantFreightTrips.java:141-197 | an incoming trip whose route never crosses is processed but never written: its start time is unset and the default 86400 fails the filter |
| `FreightExtraction.OutgoingAlwaysEmitted` | src/main/java/org/matsim/freight/ExtractRelevantFreightTrips.java:127-196 | an outgoing trip departing before 86400 is always written; its end coordinate is the first crossing's point, or unset without one |
| `FreightExtraction.ThroughWithoutCrossingIgnored` | src/main/java/org/matsim/freight/ExtractRelevantFreightTrips.java:158-197 | a through trip that never crosses changes neither the output nor either counter (the `continue`) |
| `ClippingExamples.ExampleBoundary` | src/main/java/org/matsim/freight/ExtractRelevantFreightTrips.java:85-93 | on the four-node line with region x in [0,10], only the two links between N2 and N3 are boundary links |
| `ClippingExamples.ExampleOutgoing` | src/main/java/org/matsim/freight/ExtractRelevantFreightTrips.java:126-139 | the outgoing trip from (0,0) departing at 1000 keeps its start and ends at the boundary link's point (10,0) |
| `ClippingExamples.ExampleIncoming` | src/main/java/org/matsim/freight/ExtractRelevantFreightTrips.java:140-155 | the reverse incoming trip starts at (10,0) at 1000: the boundary link's own 3 s are not added |

## Left out

- Scenario and configuration loading, reading the shapefile, writing the
  output population, and logging (lines 57-68, 80-82, 98-99, 198-208). These
  are I/O.
- The least-cost router (lines 70-77, the A* landmarks search with a
  randomising travel disutility) is foreign code. It is the `router`
  parameter, and any route it returns is accepted. A deterministic function
  is faithful because line 63 sets the routing randomness to 0, which makes
  the randomising disutility deterministic. The lemmas that speak in
  terms of geometry additionally assume that the route's links belong to the
  network (`OnNetwork`).
- Region containment is foreign geometry code. It is the `contains`
  parameter.
- A link's representative point (`Link.getCoord`) is a field of `Link`. How
  the host framework derives it from the end nodes is not part of this model.
- Floating point: times and the length/freespeed ratio are exact reals, so
  double rounding is not modelled. Links with non-positive free speed (for
  which Java yields an infinite or NaN time) are excluded by the `Speed` type.
- The 32-bit `int` counters `generated` and `processed` are unbounded `nat`s.
  Overflow is not modelled.
- The plan-shape casts at lines 104-105 are not modelled. A trip is given
  directly as its start and end activity. A plan of another shape, which makes
  the source throw, is not modelled.
- A start or end link id missing from the network makes the source throw a
  `NullPointerException` in the three routed cases. The model does not
  represent this failure: it requires the links of every non-interior trip to
  exist (`Routable`).
- When no path exists between the two nodes the router returns `null`, and
  `route.links` at lines 132, 145 and 164 throws a `NullPointerException`
  that aborts the whole run. The total `router` function cannot represent
  this failure: every call returns a (possibly empty) list of links.
- `act0` and `act1` are modelled as values reassigned by each setter, not as
  shared mutable objects. Object identity and aliasing are not captured.
- The output population is returned as a sequence of persons, not appended to
  a population object. The source creates that population empty, so the
  contents are the same.
- RunDuesseldorfScenario, ModifyDuesseldorfNetwork, LimitedAccessBridge and
  CreateTransitSchedule are configuration and file plumbing and are not part
  of this model.
