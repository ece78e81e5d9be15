/**
 * The six-switch topology and its per-role configurators
 * (controller/topology.py).
 *
 * The topology builder is a constant map from position name to switch. Each
 * configurator is a fixed sequence of writes through one switch connection;
 * it is specified by the plan whose writes it appends (`...Plan()`), and the lemmas
 * below state what those logs guarantee: the clone session comes before the
 * protection entry that names it, the protection flags, the transit shape,
 * and that each switch hands frames to a MAC address its neighbour accepts on the arriving port.
 *
 * The entry factory object the source passes around is stateless; its
 * constructors are the functions of `ForwardingTables`.
 */
module Topology {
  import opened Optional
  import opened ForwardingTables
  import opened Transport
  import opened Switches
  import opened Plans

  const TopologyPositions: set<string> :=
    {"ingress_switch", "transit_top_left", "transit_top_right",
     "egress_switch", "transit_bottom_right", "transit_bottom_left"}

  /** The switches of the test network, by position. */
  function SpecifySwitchTopology(p4DataplanePath: string, bmv2JsonPath: string): (t: map<string, P4Switch>)
    ensures t.Keys == TopologyPositions
    ensures forall k :: k in t ==> t[k].p4Info == p4DataplanePath && t[k].bmv2Json == bmv2JsonPath
    ensures forall k :: k in t ==>
      && (t[k].role == Ingress <==> k == "ingress_switch")
      && (t[k].role == Egress <==> k == "egress_switch")
  {
    var t := map[
      "ingress_switch" := P4Switch(0, "s1", Ingress, "localhost:50051", p4DataplanePath, bmv2JsonPath),
      "transit_top_left" := P4Switch(1, "s2", Transit, "localhost:50052", p4DataplanePath, bmv2JsonPath),
      "transit_top_right" := P4Switch(2, "s3", Transit, "localhost:50053", p4DataplanePath, bmv2JsonPath),
      "egress_switch" := P4Switch(3, "s4", Egress, "localhost:50054", p4DataplanePath, bmv2JsonPath),
      "transit_bottom_right" := P4Switch(4, "s5", Transit, "localhost:50055", p4DataplanePath, bmv2JsonPath),
      "transit_bottom_left" := P4Switch(5, "s6", Transit, "localhost:50056", p4DataplanePath, bmv2JsonPath)
    ];
    t
  }

  /** The positions in device-id order. */
  const PositionsById: seq<string> :=
    ["ingress_switch", "transit_top_left", "transit_top_right",
     "egress_switch", "transit_bottom_right", "transit_bottom_left"]

  lemma TopologyIdsByPosition(p4DataplanePath: string, bmv2JsonPath: string)
    ensures var t := SpecifySwitchTopology(p4DataplanePath, bmv2JsonPath);
      && (forall k :: k in t <==> k in PositionsById)
      && (forall i :: 0 <= i < 6 ==> PositionsById[i] in t && t[PositionsById[i]].id == i)
  {
  }

  lemma TopologyNamesByPosition(p4DataplanePath: string, bmv2JsonPath: string)
    ensures var t := SpecifySwitchTopology(p4DataplanePath, bmv2JsonPath);
      forall i :: 0 <= i < 6 ==>
        && PositionsById[i] in t
        && t[PositionsById[i]].name == SwitchName(i)
        && t[PositionsById[i]].uri == SwitchAddress(SwitchName(i))
  {
  }

  /** Ids and names are each pairwise distinct, ids are 0..5, switch k+1 is
      named s(k+1) after id k and addressed at port 5005(k+1) after its name. */
  lemma TopologyNumbering(p4DataplanePath: string, bmv2JsonPath: string)
    ensures SixSwitchNumbering(SpecifySwitchTopology(p4DataplanePath, bmv2JsonPath))
  {
    TopologyIdsByPosition(p4DataplanePath, bmv2JsonPath);
    TopologyNamesByPosition(p4DataplanePath, bmv2JsonPath);
    NumberingByPosition(SpecifySwitchTopology(p4DataplanePath, bmv2JsonPath), PositionsById);
  }

  /** The transit switches are exactly the four positions off the two ends. */
  lemma TopologyTransitPositions(p4DataplanePath: string, bmv2JsonPath: string)
    ensures PositionsWithRole(SpecifySwitchTopology(p4DataplanePath, bmv2JsonPath), Transit) == {"transit_top_left", "transit_top_right", "transit_bottom_right", "transit_bottom_left"}
  {
    var t := SpecifySwitchTopology(p4DataplanePath, bmv2JsonPath);
    var transit := {"transit_top_left", "transit_top_right", "transit_bottom_right", "transit_bottom_left"};
    assert TopologyPositions == {"ingress_switch", "egress_switch"} + transit;
    forall k | k in t
      ensures t[k].role == Transit <==> k in transit
    {
      match t[k].role
      case Ingress =>
      case Egress =>
      case Transit =>
    }
  }

  /** One ingress switch, one egress switch, four transit switches. */
  lemma TopologyRoleCounts(p4DataplanePath: string, bmv2JsonPath: string)
    ensures var t := SpecifySwitchTopology(p4DataplanePath, bmv2JsonPath);
      && |t| == 6
      && PositionsWithRole(t, Ingress) == {"ingress_switch"}
      && PositionsWithRole(t, Egress) == {"egress_switch"}
      && |PositionsWithRole(t, Transit)| == 4
  {
    TopologyTransitPositions(p4DataplanePath, bmv2JsonPath);
  }

  // ----- Write plans of the configurators -----

  /** The destination network every configurator routes towards. */
  const DstNetwork := "10.0.2.0"
  const DstPrefixLen := 24

  /** The clone session the ingress and egress configurators install. */
  const ProtectedSession := CloneSession(1, 1, 500)

  function IngressSwitchPlan(): seq<Step>
  {
    var s := ProtectedSession;
    [ TableStep(MacAccept("08:00:00:00:01:00", 1)),
      CloneStep(s),
      TableStep(Protect("10.0.1.100", "10.0.2.100", s.cloneInstanceId, true, false, s.cloneSessionId)),
      TableStep(Routing(DstNetwork, DstPrefixLen, 3)),
      TableStep(Rewrite(DstNetwork, DstPrefixLen, 3, "00:00:00:00:01:03", "00:00:00:00:06:03")),
      TableStep(Rewrite(DstNetwork, DstPrefixLen, 2, "00:00:00:00:06:02", "00:00:00:00:02:02")) ]
  }

  function EgressSwitchPlan(): seq<Step>
  {
    var s := ProtectedSession;
    [ TableStep(MacAccept("00:00:00:00:04:02", 2)),
      TableStep(MacAccept("00:00:00:00:04:03", 3)),
      CloneStep(s),
      TableStep(Protect("10.0.1.100", "10.0.2.100", s.cloneInstanceId, false, true, s.cloneSessionId)),
      TableStep(Routing(DstNetwork, DstPrefixLen, 1)),
      TableStep(Rewrite(DstNetwork, DstPrefixLen, 1, "08:00:00:00:02:01", "08:00:00:00:02:22")) ]
  }

  /** The plan of every transit configurator: accept frames for `mac` on
      `ingressPort`, route the destination network out of `egressPort`, and
      rewrite MACs on that port. */
  function TransitPlan(mac: string, ingressPort: int, egressPort: int,
                       srcMac: string, nextHopMac: string): seq<Step>
  {
    [ TableStep(MacAccept(mac, ingressPort)),
      TableStep(Routing(DstNetwork, DstPrefixLen, egressPort)),
      TableStep(Rewrite(DstNetwork, DstPrefixLen, egressPort, srcMac, nextHopMac)) ]
  }

  function TransitTopLeftPlan(): seq<Step>
  {
    TransitPlan("00:00:00:00:02:02", 2, 3, "00:00:00:00:02:03", "00:00:00:00:03:03")
  }

  /** As written: the rewrite reuses the top-left switch's MAC pair. */
  function TransitTopRightPlan(): seq<Step>
  {
    TransitPlan("00:00:00:00:03:03", 3, 2, "00:00:00:00:02:03", "00:00:00:00:03:03")
  }

  /** The top-right plan with the rewrite it evidently intends: its own port-2
      MAC as source, the egress switch's port-2 MAC as next hop. */
  function TransitTopRightPlanCorrected(): seq<Step>
  {
    TransitPlan("00:00:00:00:03:03", 3, 2, "00:00:00:00:03:02", "00:00:00:00:04:02")
  }

  function TransitBottomLeftPlan(): seq<Step>
  {
    TransitPlan("00:00:00:00:06:03", 3, 2, "00:00:00:00:06:02", "00:00:00:00:05:02")
  }

  function TransitBottomRightPlan(): seq<Step>
  {
    TransitPlan("00:00:00:00:05:02", 2, 3, "00:00:00:00:05:03", "00:00:00:00:04:03")
  }

  // ----- What the plans guarantee -----

  /** The ingress plan installs clone session 500 (one replica on port 1,
      instance 1) before the protection entry that names it; that entry
      carries the session's instance id as connection id and sets the ingress
      flag only. The MAC accept comes first, then after the protection entry
      the route via port 3 and rewrites for ports 3 and 2. */
  lemma IngressSwitchPlanOrder()
    ensures var p := IngressSwitchPlan();
      && |p| == 6 && SessionRefsResolved(p)
      && p[0].TableStep? && p[0].kind == MacAccept("08:00:00:00:01:00", 1)
      && p[1] == CloneStep(CloneSession(1, 1, 500))
      && IsProtect(p[2]) && p[2].kind.cloneSessionId == p[1].session.cloneSessionId
      && p[2].kind.connectionId == p[1].session.cloneInstanceId
      && p[2].kind.isPhIngress && !p[2].kind.isPhEgress
      && p[3].TableStep? && p[3].kind == Routing(DstNetwork, DstPrefixLen, 3)
      && IsRewrite(p[4]) && p[4].kind.egressPort == 3
      && IsRewrite(p[5]) && p[5].kind.egressPort == 2
  {
    var p := IngressSwitchPlan();
    assert p[1].session.cloneSessionId == 500;
  }

  /** The egress plan accepts frames from both legs (ports 2 and 3) before
      any other write, and installs its clone session before the protection
      entry (egress flag only) that names it. */
  lemma EgressSwitchPlanOrder()
    ensures var p := EgressSwitchPlan();
      && |p| == 6 && SessionRefsResolved(p)
      && p[0].TableStep? && p[0].kind == MacAccept("00:00:00:00:04:02", 2)
      && p[1].TableStep? && p[1].kind == MacAccept("00:00:00:00:04:03", 3)
      && p[2] == CloneStep(CloneSession(1, 1, 500))
      && IsProtect(p[3]) && p[3].kind.cloneSessionId == 500
      && !p[3].kind.isPhIngress && p[3].kind.isPhEgress
  {
    var p := EgressSwitchPlan();
    assert p[2].session.cloneSessionId == 500;
  }

  /** Whatever its ports and MACs, a transit plan is MAC accept, route,
      rewrite on the route's port, with no clone session and no protection
      entry. */
  lemma TransitPlanShaped(mac: string, ingressPort: int, egressPort: int,
                          srcMac: string, nextHopMac: string)
    ensures var p := TransitPlan(mac, ingressPort, egressPort, srcMac, nextHopMac);
      && TransitShaped(p)
      && p[1].kind.egressPort == egressPort
      && !HasFlaggedProtect(p, true) && !HasFlaggedProtect(p, false)
  {
  }

  /** Only the ingress plan flags protection ingress, only the egress plan
      flags protection egress, and no plan sets both flags. */
  lemma ProtectionFlagsByRole()
    ensures HasFlaggedProtect(IngressSwitchPlan(), true) && !HasFlaggedProtect(IngressSwitchPlan(), false)
    ensures HasFlaggedProtect(EgressSwitchPlan(), false) && !HasFlaggedProtect(EgressSwitchPlan(), true)
    ensures NeverBothFlags(IngressSwitchPlan()) && NeverBothFlags(EgressSwitchPlan())
  {
    assert IsProtect(IngressSwitchPlan()[2]);
    assert IsProtect(EgressSwitchPlan()[3]);
  }

  /** As written, the top-right switch rewrites the next hop to a MAC it
      accepts itself, and the egress switch accepts that MAC on no port. */
  lemma TopRightAddressesItself()
    ensures !NotSelfAddressed(TransitTopRightPlan())
    ensures !Accepts(EgressSwitchPlan(), TransitTopRightPlan()[2].kind.nextHopMac)
    ensures !HandsOffTo(TransitTopRightPlan(), 2, EgressSwitchPlan(), 2)
  {
    var p := TransitTopRightPlan();
    assert IsRewrite(p[2]) && p[2].kind.nextHopMac == "00:00:00:00:03:03";
    assert Accepts(p, "00:00:00:00:03:03") by {
      assert p[0].kind.macAddr == "00:00:00:00:03:03";
    }
  }

  /** Along the upper path (ingress, top-left, corrected top-right, egress)
      every rewrite addresses frames to a MAC the next switch accepts on the
      port the link arrives on. */
  lemma UpperPathHandsOff()
    ensures HandsOffTo(IngressSwitchPlan(), 2, TransitTopLeftPlan(), 2)
    ensures HandsOffTo(TransitTopLeftPlan(), 3, TransitTopRightPlanCorrected(), 3)
    ensures HandsOffTo(TransitTopRightPlanCorrected(), 2, EgressSwitchPlan(), 2)
  {
    assert TransitTopLeftPlan()[0].kind.macAddr == "00:00:00:00:02:02";
    assert TransitTopRightPlanCorrected()[0].kind.macAddr == "00:00:00:00:03:03";
    assert EgressSwitchPlan()[0].kind.macAddr == "00:00:00:00:04:02";
  }

  /** Along the lower path (ingress, bottom-left, bottom-right, egress) every
      rewrite addresses frames to a MAC the next switch accepts on the port the
      link arrives on. */
  lemma LowerPathHandsOff()
    ensures HandsOffTo(IngressSwitchPlan(), 3, TransitBottomLeftPlan(), 3)
    ensures HandsOffTo(TransitBottomLeftPlan(), 2, TransitBottomRightPlan(), 2)
    ensures HandsOffTo(TransitBottomRightPlan(), 3, EgressSwitchPlan(), 3)
  {
    assert TransitBottomLeftPlan()[0].kind.macAddr == "00:00:00:00:06:03";
    assert TransitBottomRightPlan()[0].kind.macAddr == "00:00:00:00:05:02";
    assert EgressSwitchPlan()[1].kind.macAddr == "00:00:00:00:04:03";
  }

  /** With the corrected top-right plan, along both paths every rewrite
      addresses frames to a MAC the next switch accepts on the arriving port,
      and no switch addresses frames to itself. */
  lemma PathsHandOff()
    ensures HandsOffTo(IngressSwitchPlan(), 2, TransitTopLeftPlan(), 2)
    ensures HandsOffTo(TransitTopLeftPlan(), 3, TransitTopRightPlanCorrected(), 3)
    ensures HandsOffTo(TransitTopRightPlanCorrected(), 2, EgressSwitchPlan(), 2)
    ensures HandsOffTo(IngressSwitchPlan(), 3, TransitBottomLeftPlan(), 3)
    ensures HandsOffTo(TransitBottomLeftPlan(), 2, TransitBottomRightPlan(), 2)
    ensures HandsOffTo(TransitBottomRightPlan(), 3, EgressSwitchPlan(), 3)
    ensures NotSelfAddressed(IngressSwitchPlan()) && NotSelfAddressed(EgressSwitchPlan())
    ensures NotSelfAddressed(TransitTopLeftPlan()) && NotSelfAddressed(TransitTopRightPlanCorrected())
    ensures NotSelfAddressed(TransitBottomLeftPlan()) && NotSelfAddressed(TransitBottomRightPlan())
  {
    UpperPathHandsOff();
    LowerPathHandsOff();
  }

  // ----- The configurators -----

  method ConfigureIngressSwitch(conn: P4SwitchConnection)
    modifies conn.connection
    ensures conn.connection.requests == old(conn.connection.requests) + Sends(Materialize(IngressSwitchPlan()))
  {
    var intToHostEntry := IngressMacEntry("08:00:00:00:01:00", 1);
    conn.WriteTableEntry(intToHostEntry);

    var protectedSession := CloneSession(1, 1, 500);
    conn.SetCloneSession(protectedSession);
    var protectionHeaderEntry := TrafficProtectEntry(
      "10.0.1.100", "10.0.2.100", protectedSession.cloneInstanceId,
      true, false, protectedSession.cloneSessionId);
    conn.WriteTableEntry(protectionHeaderEntry);

    var workingRoute := RoutingEntry("10.0.2.0", 24, 3);
    var port2RouteRewrite := RouteByEgressEntry("10.0.2.0", 24, 3, "00:00:00:00:01:03", "00:00:00:00:06:03");
    var port3RouteRewrite := RouteByEgressEntry("10.0.2.0", 24, 2, "00:00:00:00:06:02", "00:00:00:00:02:02");
    conn.WriteTableEntry(workingRoute);
    conn.WriteTableEntry(port2RouteRewrite);
    conn.WriteTableEntry(port3RouteRewrite);
  }

  method ConfigureEgressSwitch(conn: P4SwitchConnection)
    modifies conn.connection
    ensures conn.connection.requests == old(conn.connection.requests) + Sends(Materialize(EgressSwitchPlan()))
  {
    var macToPrimary := IngressMacEntry("00:00:00:00:04:02", 2);
    var macToBackup := IngressMacEntry("00:00:00:00:04:03", 3);
    conn.WriteTableEntry(macToPrimary);
    conn.WriteTableEntry(macToBackup);

    var protectedSession := CloneSession(1, 1, 500);
    conn.SetCloneSession(protectedSession);
    var protectionHeaderEntry := TrafficProtectEntry(
      "10.0.1.100", "10.0.2.100", protectedSession.cloneInstanceId,
      false, true, protectedSession.cloneSessionId);
    conn.WriteTableEntry(protectionHeaderEntry);

    var destinationRoute := RoutingEntry("10.0.2.0", 24, 1);
    var forwardDestinationEntry := RouteByEgressEntry("10.0.2.0", 24, 1, "08:00:00:00:02:01", "08:00:00:00:02:22");
    conn.WriteTableEntry(destinationRoute);
    conn.WriteTableEntry(forwardDestinationEntry);
  }

  method ConfigureTransitTopLeftSwitch(conn: P4SwitchConnection)
    modifies conn.connection
    ensures conn.connection.requests == old(conn.connection.requests) + Sends(Materialize(TransitTopLeftPlan()))
  {
    var intToIngressSw := IngressMacEntry("00:00:00:00:02:02", 2);
    var routeToDestination := RoutingEntry("10.0.2.0", 24, 3);
    var port2RouteRewrite := RouteByEgressEntry("10.0.2.0", 24, 3, "00:00:00:00:02:03", "00:00:00:00:03:03");
    conn.WriteTableEntry(intToIngressSw);
    conn.WriteTableEntry(routeToDestination);
    conn.WriteTableEntry(port2RouteRewrite);
  }

  method ConfigureTransitTopRightSwitch(conn: P4SwitchConnection)
    modifies conn.connection
    ensures conn.connection.requests == old(conn.connection.requests) + Sends(Materialize(TransitTopRightPlan()))
  {
    var intToPreviousSwitch := IngressMacEntry("00:00:00:00:03:03", 3);
    var routeToDestination := RoutingEntry("10.0.2.0", 24, 2);
    var port2RouteRewrite := RouteByEgressEntry("10.0.2.0", 24, 2, "00:00:00:00:02:03", "00:00:00:00:03:03");
    conn.WriteTableEntry(intToPreviousSwitch);
    conn.WriteTableEntry(routeToDestination);
    conn.WriteTableEntry(port2RouteRewrite);
  }

  method ConfigureTransitBottomLeftSwitch(conn: P4SwitchConnection)
    modifies conn.connection
    ensures conn.connection.requests == old(conn.connection.requests) + Sends(Materialize(TransitBottomLeftPlan()))
  {
    var intToIngressSwitch := IngressMacEntry("00:00:00:00:06:03", 3);
    var routeToDestination := RoutingEntry("10.0.2.0", 24, 2);
    var port2RouteRewrite := RouteByEgressEntry("10.0.2.0", 24, 2, "00:00:00:00:06:02", "00:00:00:00:05:02");
    conn.WriteTableEntry(intToIngressSwitch);
    conn.WriteTableEntry(routeToDestination);
    conn.WriteTableEntry(port2RouteRewrite);
  }

  method ConfigureTransitBottomRightSwitch(conn: P4SwitchConnection)
    modifies conn.connection
    ensures conn.connection.requests == old(conn.connection.requests) + Sends(Materialize(TransitBottomRightPlan()))
  {
    var intToPreviousSwitch := IngressMacEntry("00:00:00:00:05:02", 2);
    var routeToDestination := RoutingEntry("10.0.2.0", 24, 3);
    var port2RouteRewrite := RouteByEgressEntry("10.0.2.0", 24, 3, "00:00:00:00:05:03", "00:00:00:00:04:03");
    conn.WriteTableEntry(intToPreviousSwitch);
    conn.WriteTableEntry(routeToDestination);
    conn.WriteTableEntry(port2RouteRewrite);
  }
}
