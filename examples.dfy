/**
 * A worked scenario: nodes N1 (0,0), N2 (5,0), N3 (15,0), N4 (25,0) on a
 * line, the region is the strip 0 <= x <= 10, so N1 and N2 are inside.
 * Links of length 5 and 10 at 5 m/s take 2 and 3 seconds.
 */
module ClippingExamples {
  import opened Optional
  import opened FreightNetwork
  import opened BoundaryLinks
  import opened TripClipping

  const N1 := Node("1", Coord(0.0, 0.0))
  const N2 := Node("2", Coord(5.0, 0.0))
  const N3 := Node("3", Coord(15.0, 0.0))
  const N4 := Node("4", Coord(25.0, 0.0))

  const L12 := Link("12", N1, N2, Coord(2.5, 0.0), 5.0, 5.0)
  const L23 := Link("23", N2, N3, Coord(10.0, 0.0), 10.0, 5.0)
  const L34 := Link("34", N3, N4, Coord(20.0, 0.0), 10.0, 5.0)
  const L43 := Link("43", N4, N3, Coord(20.0, 0.0), 10.0, 5.0)
  const L32 := Link("32", N3, N2, Coord(10.0, 0.0), 10.0, 5.0)
  const L21 := Link("21", N2, N1, Coord(2.5, 0.0), 5.0, 5.0)

  const Line := Network([L12, L23, L34, L43, L32, L21])

  const OutgoingPlan := TripPlan(PlannedActivity("12", Coord(0.0, 0.0), Some(1000.0)),
                                 PlannedActivity("34", Coord(25.0, 0.0), None))

  const IncomingPlan := TripPlan(PlannedActivity("43", Coord(25.0, 0.0), Some(1000.0)),
                                 PlannedActivity("21", Coord(0.0, 0.0), None))

  function InStrip(c: Coord): bool {
    0.0 <= c.x <= 10.0
  }

  /** A router that drives along the line in the direction of the target. */
  function LineRouter(from: Node, to: Node): seq<Link> {
    if from == N2 && to == N4 then [L23, L34]
    else if from == N3 && to == N1 then [L32, L21]
    else []
  }

  /** Only the two links between N2 and N3 are boundary links. */
  lemma ExampleBoundary()
    ensures BoundaryIds(InStrip, Line.links) == ["23", "32"]
  {
    assert [L12][..0] == [];
    assert BoundaryIds(InStrip, [L12]) == [];
    assert [L12, L23][..1] == [L12];
    assert BoundaryIds(InStrip, [L12, L23]) == ["23"];
    assert [L12, L23, L34][..2] == [L12, L23];
    assert BoundaryIds(InStrip, [L12, L23, L34]) == ["23"];
    assert [L12, L23, L34, L43][..3] == [L12, L23, L34];
    assert BoundaryIds(InStrip, [L12, L23, L34, L43]) == ["23"];
    assert [L12, L23, L34, L43, L32][..4] == [L12, L23, L34, L43];
    assert BoundaryIds(InStrip, [L12, L23, L34, L43, L32]) == ["23", "32"];
    assert Line.links[..5] == [L12, L23, L34, L43, L32];
  }

  /** Looking the scenario's links up by id. */
  lemma ExampleLookups()
    ensures LinkById(Line.links, "12") == Some(L12)
    ensures LinkById(Line.links, "34") == Some(L34)
    ensures LinkById(Line.links, "43") == Some(L43)
    ensures LinkById(Line.links, "21") == Some(L21)
  {
    var ls := Line.links;
    assert ls[1..] == [L23, L34, L43, L32, L21];
    assert ls[1..][1..] == [L34, L43, L32, L21];
    assert ls[1..][1..][1..] == [L43, L32, L21];
    assert ls[1..][1..][1..][1..] == [L32, L21];
    assert ls[1..][1..][1..][1..][1..] == [L21];
    assert LinkById([L34, L43, L32, L21], "34") == Some(L34);
    assert "12"[0] != "34"[0] && "23"[0] != "34"[0];
    assert LinkById([L23, L34, L43, L32, L21], "34") == Some(L34);
    assert LinkById([L43, L32, L21], "43") == Some(L43);
    assert "34"[0] != "43"[0];
    assert LinkById([L34, L43, L32, L21], "43") == Some(L43);
    assert "23"[0] != "43"[0];
    assert LinkById([L23, L34, L43, L32, L21], "43") == Some(L43);
    assert "12"[0] != "43"[0];
    assert LinkById([L21], "21") == Some(L21);
    assert "32"[0] != "21"[0];
    assert LinkById([L32, L21], "21") == Some(L21);
    assert "43"[0] != "21"[0];
    assert LinkById([L43, L32, L21], "21") == Some(L21);
    assert "34"[0] != "21"[0];
    assert LinkById([L34, L43, L32, L21], "21") == Some(L21);
    assert "23"[1] != "21"[1];
    assert LinkById([L23, L34, L43, L32, L21], "21") == Some(L21);
    assert "12"[1] != "21"[1];
  }

  /**
   * Outgoing trip from the link into N2 (origin (0,0), departure 1000) to
   * the link into N4: it keeps its start and ends at link 23's point (10,0).
   */
  lemma ExampleOutgoing()
    ensures Routable(Line, InStrip, OutgoingPlan) &&
            Clip(Line, InStrip, LineRouter, ["23", "32"], OutgoingPlan) ==
            Clipped(FreightActivity(StartType, Some(Coord(0.0, 0.0)), Some(1000.0)),
                    FreightActivity(EndType, Some(Coord(10.0, 0.0)), None))
  {
    ExampleLookups();
    assert FirstBoundaryFrom([L23, L34], ["23", "32"], 0) == Some(0);
  }

  /** The incoming trip below is routed along 32, 21 and clipped at its first boundary link. */
  lemma IncomingPlanRouted()
    ensures Routable(Line, InStrip, IncomingPlan)
    ensures Clip(Line, InStrip, LineRouter, ["23", "32"], IncomingPlan) ==
            Clipped(EntryActivity([L32, L21], ["23", "32"], 1000.0),
                    FreightActivity(EndType, Some(Coord(0.0, 0.0)), None))
  {
    assert !InStrip(IncomingPlan.startActivity.coord) && InStrip(IncomingPlan.endActivity.coord);
    assert TripCaseOf(InStrip, IncomingPlan) == Incoming;
    assert Route(Line, LineRouter, IncomingPlan) == [L32, L21] by {
      ExampleLookups();
    }
  }

  /**
   * The reverse, incoming trip from the link into N3 to the link into N1:
   * its route is 32, 21 and it starts on link 32 at 1000, since the
   * boundary link's own 3 seconds are not counted.
   */
  lemma ExampleIncoming()
    ensures Routable(Line, InStrip, IncomingPlan) &&
            Clip(Line, InStrip, LineRouter, ["23", "32"], IncomingPlan) ==
            Clipped(FreightActivity(StartType, Some(Coord(10.0, 0.0)), Some(1000.0)),
                    FreightActivity(EndType, Some(Coord(0.0, 0.0)), None))
  {
    IncomingPlanRouted();
    assert FirstBoundaryFrom([L32, L21], ["23", "32"], 0) == Some(0);
    assert TravelTime([L32, L21][..0]) == 0;
  }
}
