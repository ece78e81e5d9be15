/**
 * The topology builder of the entry script (main.py). It builds the same six
 * switches as the topology module, but names the two upper transit positions
 * `transit_up_left` and `transit_up_right`.
 */
module MainTopology {
  import opened Switches
  import Topology

  const MainPositions: set<string> :=
    {"ingress_switch", "transit_up_left", "transit_up_right",
     "egress_switch", "transit_bottom_right", "transit_bottom_left"}

  /** The switches of the test network, by position. */
  function SpecifySwitchTopology(p4Dataplane: string, bmv2Json: string): (t: map<string, P4Switch>)
    ensures t.Keys == MainPositions
    ensures forall k :: k in t ==> t[k].p4Info == p4Dataplane && t[k].bmv2Json == bmv2Json
    ensures forall k :: k in t ==>
      && (t[k].role == Ingress <==> k == "ingress_switch")
      && (t[k].role == Egress <==> k == "egress_switch")
  {
    var t := map[
      "ingress_switch" := P4Switch(0, "s1", Ingress, "localhost:50051", p4Dataplane, bmv2Json),
      "transit_up_left" := P4Switch(1, "s2", Transit, "localhost:50052", p4Dataplane, bmv2Json),
      "transit_up_right" := P4Switch(2, "s3", Transit, "localhost:50053", p4Dataplane, bmv2Json),
      "egress_switch" := P4Switch(3, "s4", Egress, "localhost:50054", p4Dataplane, bmv2Json),
      "transit_bottom_right" := P4Switch(4, "s5", Transit, "localhost:50055", p4Dataplane, bmv2Json),
      "transit_bottom_left" := P4Switch(5, "s6", Transit, "localhost:50056", p4Dataplane, bmv2Json)
    ];
    t
  }

  /** The positions in device-id order. */
  const MainPositionsById: seq<string> :=
    ["ingress_switch", "transit_up_left", "transit_up_right",
     "egress_switch", "transit_bottom_right", "transit_bottom_left"]

  /** Position by position, this builder and the topology module's agree:
      the switch at the i-th position of either is the same switch. */
  lemma SameSwitchesAsTopology(p4Dataplane: string, bmv2Json: string)
    ensures var t := SpecifySwitchTopology(p4Dataplane, bmv2Json);
      var u := Topology.SpecifySwitchTopology(p4Dataplane, bmv2Json);
      forall i :: 0 <= i < 6 ==>
        && MainPositionsById[i] in t && Topology.PositionsById[i] in u
        && t[MainPositionsById[i]] == u[Topology.PositionsById[i]]
  {
  }

  /** Ids and names are each pairwise distinct, ids are 0..5, each switch is
      named after its id and addressed after its name. */
  lemma MainTopologyNumbering(p4Dataplane: string, bmv2Json: string)
    ensures SixSwitchNumbering(SpecifySwitchTopology(p4Dataplane, bmv2Json))
  {
    var t := SpecifySwitchTopology(p4Dataplane, bmv2Json);
    var u := Topology.SpecifySwitchTopology(p4Dataplane, bmv2Json);
    SameSwitchesAsTopology(p4Dataplane, bmv2Json);
    Topology.TopologyIdsByPosition(p4Dataplane, bmv2Json);
    Topology.TopologyNamesByPosition(p4Dataplane, bmv2Json);
    assert forall k :: k in t <==> k in MainPositionsById;
    NumberingByPosition(t, MainPositionsById);
  }

  /** The transit switches are exactly the four positions off the two ends. */
  lemma MainTopologyTransitPositions(p4Dataplane: string, bmv2Json: string)
    ensures PositionsWithRole(SpecifySwitchTopology(p4Dataplane, bmv2Json), Transit) == {"transit_up_left", "transit_up_right", "transit_bottom_right", "transit_bottom_left"}
  {
    var t := SpecifySwitchTopology(p4Dataplane, bmv2Json);
    var transit := {"transit_up_left", "transit_up_right", "transit_bottom_right", "transit_bottom_left"};
    assert MainPositions == {"ingress_switch", "egress_switch"} + transit;
    forall k | k in t
      ensures t[k].role == Transit <==> k in transit
    {
      match t[k].role
      case Ingress =>
      case Egress =>
      case Transit =>
    }
  }

  /** One ingress switch, one egress switch, four transit switches. */
  lemma MainTopologyRoleCounts(p4Dataplane: string, bmv2Json: string)
    ensures var t := SpecifySwitchTopology(p4Dataplane, bmv2Json);
      && |t| == 6
      && PositionsWithRole(t, Ingress) == {"ingress_switch"}
      && PositionsWithRole(t, Egress) == {"egress_switch"}
      && |PositionsWithRole(t, Transit)| == 4
  {
    MainTopologyTransitPositions(p4Dataplane, bmv2Json);
  }
}
