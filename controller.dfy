/**
 * The standalone controller (controller.py): six switch sessions built by
 * name and device id, the write helpers that build entries inline and send
 * them, and the run that arbitrates and configures every switch, issues each
 * switch's writes, and finally shuts every session down.
 *
 * The helpers build their entries by hand rather than through the factory;
 * each helper's contract says the entry it sends is the one the matching
 * factory constructor builds. The per-switch writes of the run are given as
 * plans (`ControllerPlan`), and the lemmas below state what they guarantee.
 */
module Controller {
  import opened ForwardingTables
  import opened Transport
  import opened Switches
  import opened Plans
  import opened Topology

  /** A session to switch `name`, addressed at port 5005k for name sk. */
  method BuildSwitchConnection(name: string, id: int) returns (d: Device)
    requires |name| >= 2
    ensures fresh(d)
    ensures d.name == name && d.address == SwitchAddress(name) && d.deviceId == id
    ensures d.protoDumpFile == ProtoDumpFile(name) && d.requests == []
  {
    d := new Device(name, "localhost:5005" + [name[1]], id, "logs/" + name + "-p4runtime-requests.txt");
  }

  // ----- Write helpers -----

  method WriteIngressMacEntry(switch: Device, macAddr: string, ingressPort: int)
    modifies switch
    ensures switch.requests == old(switch.requests) + [Send(Table(IngressMacEntry(macAddr, ingressPort)))]
  {
    var tableEntry := TableEntry(
      "MyIngress.interface_mac_address",
      map["hdr.ethernet.dstAddr" := Str(macAddr), "standard_metadata.ingress_port" := Int(ingressPort)],
      "MyIngress.no_action",
      map[]);
    switch.WriteTableEntry(tableEntry);
  }

  method WriteWorkingRoutingPathEntry(switch: Device, dstNetwork: string, prefixLen: int, egressPort: int)
    modifies switch
    ensures switch.requests == old(switch.requests) + [Send(Table(RoutingEntry(dstNetwork, prefixLen, egressPort)))]
  {
    var tableEntry := TableEntry(
      "MyIngress.working_routing_path_table",
      map["hdr.ipv4.dstAddr" := Lpm(dstNetwork, prefixLen)],
      "MyIngress.forward",
      map["port" := Int(egressPort)]);
    switch.WriteTableEntry(tableEntry);
  }

  /** The flags are sent as `int(bool)`, and the session id defaults to 0. */
  method WriteProtectedTrafficEntry(switch: Device, sourceIp: string, destinationIp: string,
                                    connectionId: int, isPhIngress: bool, isPhEgress: bool,
                                    cloneSessionId: int := 0)
    modifies switch
    ensures switch.requests == old(switch.requests) +
      [Send(Table(TrafficProtectEntry(sourceIp, destinationIp, connectionId, isPhIngress, isPhEgress, cloneSessionId)))]
  {
    var tableEntry := TableEntry(
      "MyIngress.protected_connections",
      map["hdr.ipv4.srcAddr" := Str(sourceIp), "hdr.ipv4.dstAddr" := Str(destinationIp)],
      "MyIngress.associate_protected_details",
      map["connection" := Int(connectionId),
          "isPHIngressFlag" := Int(if isPhIngress then 1 else 0),
          "isPHEgressFlag" := Int(if isPhEgress then 1 else 0),
          "sessionID" := Int(cloneSessionId)]);
    switch.WriteTableEntry(tableEntry);
  }

  /** One replica on `clonePort` with instance 1, never truncated. */
  method WriteCloneSession(switch: Device, cloneSessionId: int, clonePort: int)
    modifies switch
    ensures switch.requests == old(switch.requests) + [Send(Clone(CloneSessionEntryOf(CloneSession(1, clonePort, cloneSessionId))))]
  {
    var replicas := [Replica(clonePort, 1)];
    var cloneEntry := CloneSessionEntry(cloneSessionId, replicas, 0);
    switch.WritePreEntry(cloneEntry);
  }

  method WriteRoutingByEgressEntry(switch: Device, dstNetwork: string, prefixLen: int, egressPort: int,
                                   srcMac: string, nextHopMac: string)
    modifies switch
    ensures switch.requests == old(switch.requests) +
      [Send(Table(RouteByEgressEntry(dstNetwork, prefixLen, egressPort, srcMac, nextHopMac)))]
  {
    var tableEntry := TableEntry(
      "MyEgress.next_hop_table",
      map["standard_metadata.egress_port" := Int(egressPort), "hdr.ipv4.dstAddr" := Lpm(dstNetwork, prefixLen)],
      "MyEgress.set_mac",
      map["srcAddr" := Str(srcMac), "dstAddr" := Str(nextHopMac)]);
    switch.WriteTableEntry(tableEntry);
  }

  const PortMacTable := "MyEgress.port_mac_table"
  const SetSmac := "MyEgress.set_smac"
  const MacParam := "mac"

  /** The entry that gives egress port `port` the source MAC `mac`. It belongs
      to a table the factory has no constructor for, so `Parse` rejects it. */
  function PortMacEntry(mac: string, port: int): (e: TableEntry)
    ensures e.tableName == PortMacTable && e.actionName == SetSmac
    ensures e.matchFields.Keys == {EgressPortField} && e.matchFields[EgressPortField] == Int(port)
    ensures e.actionParams.Keys == {MacParam} && e.actionParams[MacParam] == Str(mac)
    ensures Parse(e).None?
  {
    TableEntry(PortMacTable, map[EgressPortField := Int(port)], SetSmac, map[MacParam := Str(mac)])
  }

  method WritePortMacAddr(switch: Device, mac: string, port: int)
    modifies switch
    ensures switch.requests == old(switch.requests) + [Send(Table(PortMacEntry(mac, port)))]
  {
    var tableEntry := TableEntry(
      "MyEgress.port_mac_table",
      map["standard_metadata.egress_port" := Int(port)],
      "MyEgress.set_smac",
      map["mac" := Str(mac)]);
    switch.WriteTableEntry(tableEntry);
  }

  // ----- The per-switch writes of the run -----

  /** Writes to s1: MAC accept, clone session 500 on port 2, the protection
      entry naming it, the route via port 3 and rewrites for ports 3 and 2. */
  function IngressPlan(): seq<Step>
  {
    [ TableStep(MacAccept("08:00:00:00:01:00", 1)),
      CloneStep(CloneSession(1, 2, 500)),
      TableStep(Protect("10.0.1.100", "10.0.2.100", 1, true, false, 500)),
      TableStep(Routing(DstNetwork, DstPrefixLen, 3)),
      TableStep(Rewrite(DstNetwork, DstPrefixLen, 3, "00:00:00:00:01:03", "00:00:00:00:06:03")),
      TableStep(Rewrite(DstNetwork, DstPrefixLen, 2, "00:00:00:00:01:02", "00:00:00:00:02:02")) ]
  }

  /** Writes to s4: MAC accepts on ports 2 and 3, the route via port 1, host
      rewrites for 10.0.2.100 and 10.0.2.101, and last the protection entry
      with the default session id. */
  function EgressPlan(): seq<Step>
  {
    [ TableStep(MacAccept("00:00:00:00:04:02", 2)),
      TableStep(MacAccept("00:00:00:00:04:03", 3)),
      TableStep(Routing(DstNetwork, DstPrefixLen, 1)),
      TableStep(Rewrite("10.0.2.100", 32, 1, "08:00:00:00:02:00", "08:00:00:00:02:22")),
      TableStep(Rewrite("10.0.2.101", 32, 1, "08:00:00:00:02:00", "08:00:00:00:02:23")),
      TableStep(Protect("10.0.1.100", "10.0.2.100", 1, false, true, 0)) ]
  }

  const Switch2Plan := TransitPlan("00:00:00:00:02:02", 2, 3, "00:00:00:00:02:03", "00:00:00:00:03:03")
  const Switch3Plan := TransitPlan("00:00:00:00:03:03", 3, 2, "00:00:00:00:03:02", "00:00:00:00:04:02")
  const Switch5Plan := TransitPlan("00:00:00:00:05:02", 2, 3, "00:00:00:00:05:03", "00:00:00:00:04:03")
  const Switch6Plan := TransitPlan("00:00:00:00:06:03", 3, 2, "00:00:00:00:06:02", "00:00:00:00:05:02")

  /** The writes the run sends to the switch with device id `k` (switch s(k+1)). */
  function ControllerPlan(k: int): seq<Step>
    requires 0 <= k < 6
  {
    if k == 0 then IngressPlan()
    else if k == 1 then Switch2Plan
    else if k == 2 then Switch3Plan
    else if k == 3 then EgressPlan()
    else if k == 4 then Switch5Plan
    else Switch6Plan
  }

  method ConfigureIngressSwitch(ingressSwitch: Device)
    modifies ingressSwitch
    ensures ingressSwitch.requests == old(ingressSwitch.requests) + Sends(Materialize(IngressPlan()))
  {
    WriteIngressMacEntry(ingressSwitch, "08:00:00:00:01:00", 1);
    WriteCloneSession(ingressSwitch, 500, 2);
    WriteProtectedTrafficEntry(ingressSwitch, "10.0.1.100", "10.0.2.100", 1, true, false, 500);
    WriteWorkingRoutingPathEntry(ingressSwitch, "10.0.2.0", 24, 3);
    WriteRoutingByEgressEntry(ingressSwitch, "10.0.2.0", 24, 3, "00:00:00:00:01:03", "00:00:00:00:06:03");
    WriteRoutingByEgressEntry(ingressSwitch, "10.0.2.0", 24, 2, "00:00:00:00:01:02", "00:00:00:00:02:02");
  }

  /** The primary route: s6, then s5. */
  method ConfigurePrimaryRoute(switch6: Device, switch5: Device)
    requires switch6 != switch5
    modifies switch6, switch5
    ensures switch6.requests == old(switch6.requests) + Sends(Materialize(Switch6Plan))
    ensures switch5.requests == old(switch5.requests) + Sends(Materialize(Switch5Plan))
  {
    WriteIngressMacEntry(switch6, "00:00:00:00:06:03", 3);
    WriteWorkingRoutingPathEntry(switch6, "10.0.2.0", 24, 2);
    WriteRoutingByEgressEntry(switch6, "10.0.2.0", 24, 2, "00:00:00:00:06:02", "00:00:00:00:05:02");

    WriteIngressMacEntry(switch5, "00:00:00:00:05:02", 2);
    WriteWorkingRoutingPathEntry(switch5, "10.0.2.0", 24, 3);
    WriteRoutingByEgressEntry(switch5, "10.0.2.0", 24, 3, "00:00:00:00:05:03", "00:00:00:00:04:03");
  }

  /** The secondary route: s2, then s3. */
  method ConfigureSecondaryRoute(switch2: Device, switch3: Device)
    requires switch2 != switch3
    modifies switch2, switch3
    ensures switch2.requests == old(switch2.requests) + Sends(Materialize(Switch2Plan))
    ensures switch3.requests == old(switch3.requests) + Sends(Materialize(Switch3Plan))
  {
    WriteIngressMacEntry(switch2, "00:00:00:00:02:02", 2);
    WriteWorkingRoutingPathEntry(switch2, "10.0.2.0", 24, 3);
    WriteRoutingByEgressEntry(switch2, "10.0.2.0", 24, 3, "00:00:00:00:02:03", "00:00:00:00:03:03");

    WriteIngressMacEntry(switch3, "00:00:00:00:03:03", 3);
    WriteWorkingRoutingPathEntry(switch3, "10.0.2.0", 24, 2);
    WriteRoutingByEgressEntry(switch3, "10.0.2.0", 24, 2, "00:00:00:00:03:02", "00:00:00:00:04:02");
  }

  method ConfigureEgressSwitch(egressSwitch: Device)
    modifies egressSwitch
    ensures egressSwitch.requests == old(egressSwitch.requests) + Sends(Materialize(EgressPlan()))
  {
    WriteIngressMacEntry(egressSwitch, "00:00:00:00:04:02", 2);
    WriteIngressMacEntry(egressSwitch, "00:00:00:00:04:03", 3);
    WriteWorkingRoutingPathEntry(egressSwitch, "10.0.2.0", 24, 1);
    WriteRoutingByEgressEntry(egressSwitch, "10.0.2.100", 32, 1, "08:00:00:00:02:00", "08:00:00:00:02:22");
    WriteRoutingByEgressEntry(egressSwitch, "10.0.2.101", 32, 1, "08:00:00:00:02:00", "08:00:00:00:02:23");
    WriteProtectedTrafficEntry(egressSwitch, "10.0.1.100", "10.0.2.100", 1, false, true);
  }

  /** Sessions s1..s6 with device ids 0..5, none used yet. */
  method BuildSwitches() returns (sw: seq<Device>)
    ensures |sw| == 6
    ensures forall k :: 0 <= k < 6 ==> fresh(sw[k]) && sw[k].requests == []
    ensures forall k :: 0 <= k < 6 ==>
      sw[k].deviceId == k && sw[k].name == SwitchName(k) && sw[k].address == SwitchAddress(SwitchName(k))
    ensures forall j, k :: 0 <= j < k < 6 ==> sw[j] != sw[k]
  {
    sw := [];
    var s := BuildSwitchConnection("s1", 0);
    sw := sw + [s];
    s := BuildSwitchConnection("s2", 1);
    sw := sw + [s];
    s := BuildSwitchConnection("s3", 2);
    sw := sw + [s];
    s := BuildSwitchConnection("s4", 3);
    sw := sw + [s];
    s := BuildSwitchConnection("s5", 4);
    sw := sw + [s];
    s := BuildSwitchConnection("s6", 5);
    sw := sw + [s];
    assert forall k :: 0 <= k < 6 ==> sw[k].name == SwitchName(k);
  }

  /** The whole run: builds sessions s1..s6 with device ids 0..5, arbitrates
      and pushes the pipeline to every one of them before the first write,
      configures each switch, and shuts every session down. Each switch sees
      exactly one well-formed session carrying its own writes. */
  method RunController(p4Info: string, bmv2Json: string) returns (sw: seq<Device>)
    ensures |sw| == 6
    ensures forall k :: 0 <= k < 6 ==>
      sw[k].deviceId == k && sw[k].name == SwitchName(k) && sw[k].address == SwitchAddress(SwitchName(k))
    ensures forall j, k :: 0 <= j < k < 6 ==> sw[j] != sw[k]
    ensures forall k :: 0 <= k < 6 ==>
      sw[k].requests == SessionTrace(p4Info, bmv2Json, Materialize(ControllerPlan(k)))
  {
    sw := BuildSwitches();
    SetUpSwitches(sw, p4Info, bmv2Json);
    ghost var setUp: seq<Request> := [Arbitrate, PushPipeline(p4Info, bmv2Json)];
    ConfigureIngressSwitch(sw[0]);
    ConfigurePrimaryRoute(sw[5], sw[4]);
    ConfigureSecondaryRoute(sw[1], sw[2]);
    ConfigureEgressSwitch(sw[3]);
    ShutdownAllSwitchConnections(sw);
    forall k | 0 <= k < 6
      ensures sw[k].requests == SessionTrace(p4Info, bmv2Json, Materialize(ControllerPlan(k)))
    {
      if k == 0 {
        assert sw[k].requests == setUp + Sends(Materialize(IngressPlan())) + [Request.Shutdown];
      } else if k == 1 {
        assert sw[k].requests == setUp + Sends(Materialize(Switch2Plan)) + [Request.Shutdown];
      } else if k == 2 {
        assert sw[k].requests == setUp + Sends(Materialize(Switch3Plan)) + [Request.Shutdown];
      } else if k == 3 {
        assert sw[k].requests == setUp + Sends(Materialize(EgressPlan())) + [Request.Shutdown];
      } else if k == 4 {
        assert sw[k].requests == setUp + Sends(Materialize(Switch5Plan)) + [Request.Shutdown];
      } else {
        assert sw[k].requests == setUp + Sends(Materialize(Switch6Plan)) + [Request.Shutdown];
      }
    }
  }

  /** Arbitrates for mastership on every session and pushes the pipeline to
      it; when this returns, every switch is set up and none has been sent a
      write yet. */
  method SetUpSwitches(sw: seq<Device>, p4Info: string, bmv2Json: string)
    requires forall j, k :: 0 <= j < k < |sw| ==> sw[j] != sw[k]
    modifies set k | 0 <= k < |sw| :: sw[k]
    ensures forall k :: 0 <= k < |sw| ==>
      sw[k].requests == old(sw[k].requests) + [Arbitrate, PushPipeline(p4Info, bmv2Json)]
  {
    for i := 0 to |sw|
      invariant forall k :: 0 <= k < i ==>
        sw[k].requests == old(sw[k].requests) + [Arbitrate, PushPipeline(p4Info, bmv2Json)]
      invariant forall k :: i <= k < |sw| ==> sw[k].requests == old(sw[k].requests)
    {
      sw[i].MasterArbitrationUpdate();
      sw[i].SetForwardingPipelineConfig(p4Info, bmv2Json);
    }
  }

  /** Shuts down every session of `sw`, each exactly once. */
  method ShutdownAllSwitchConnections(sw: seq<Device>)
    requires forall j, k :: 0 <= j < k < |sw| ==> sw[j] != sw[k]
    modifies set k | 0 <= k < |sw| :: sw[k]
    ensures forall k :: 0 <= k < |sw| ==> sw[k].requests == old(sw[k].requests) + [Request.Shutdown]
  {
    for i := 0 to |sw|
      invariant forall k :: 0 <= k < i ==> sw[k].requests == old(sw[k].requests) + [Request.Shutdown]
      invariant forall k :: i <= k < |sw| ==> sw[k].requests == old(sw[k].requests)
    {
      sw[i].Shutdown();
    }
  }

  // ----- What the run guarantees -----

  /** On s1 the clone session (one replica on port 2, instance 1, session 500)
      is written before the protection entry that names session 500, and that
      entry flags protection ingress only. */
  lemma IngressCloneBeforeProtection()
    ensures var p := IngressPlan();
      && SessionRefsResolved(p)
      && p[1] == CloneStep(CloneSession(1, 2, 500))
      && IsProtect(p[2]) && p[2].kind.cloneSessionId == 500
      && p[2].kind.isPhIngress && !p[2].kind.isPhEgress
      && forall j :: 0 <= j < |p| && IsProtect(p[j]) ==> 1 < j
  {
    var p := IngressPlan();
    assert p[1].session.cloneSessionId == 500;
  }

  /** On s4 the protection entry is written last, flags protection egress
      only, keeps the default session id 0, and no clone session is written. */
  lemma EgressProtectionDefaults()
    ensures var p := EgressPlan();
      && IsProtect(p[|p| - 1])
      && !p[|p| - 1].kind.isPhIngress && p[|p| - 1].kind.isPhEgress
      && p[|p| - 1].kind.cloneSessionId == 0
      && NoClone(p) && SessionRefsResolved(p)
  {
  }

  /** Across the run exactly s1 receives an ingress-flagged protection entry,
      exactly s4 an egress-flagged one, and none sets both flags. */
  lemma FlagsOnExactlyOneSwitch()
    ensures forall k :: 0 <= k < 6 ==> (HasFlaggedProtect(ControllerPlan(k), true) <==> k == 0)
    ensures forall k :: 0 <= k < 6 ==> (HasFlaggedProtect(ControllerPlan(k), false) <==> k == 3)
    ensures forall k :: 0 <= k < 6 ==> NeverBothFlags(ControllerPlan(k))
  {
    assert IsProtect(IngressPlan()[2]);
    assert IsProtect(EgressPlan()[5]);
    forall k | 0 <= k < 6 && k != 0 && k != 3
      ensures !HasFlaggedProtect(ControllerPlan(k), true) && !HasFlaggedProtect(ControllerPlan(k), false)
    {
      if k == 1 {
        TransitPlanShaped("00:00:00:00:02:02", 2, 3, "00:00:00:00:02:03", "00:00:00:00:03:03");
      } else if k == 2 {
        TransitPlanShaped("00:00:00:00:03:03", 3, 2, "00:00:00:00:03:02", "00:00:00:00:04:02");
      } else if k == 4 {
        TransitPlanShaped("00:00:00:00:05:02", 2, 3, "00:00:00:00:05:03", "00:00:00:00:04:03");
      } else {
        TransitPlanShaped("00:00:00:00:06:03", 3, 2, "00:00:00:00:06:02", "00:00:00:00:05:02");
      }
    }
  }

  /** s2, s3, s5 and s6 each receive exactly MAC accept, route, rewrite, on
      one port; s3's plan is the corrected top-right plan, and the other
      three agree with the topology module's transit configurators. */
  lemma TransitSwitchesShaped()
    ensures forall k :: k in {1, 2, 4, 5} ==> TransitShaped(ControllerPlan(k))
    ensures ControllerPlan(1) == TransitTopLeftPlan()
    ensures ControllerPlan(2) == TransitTopRightPlanCorrected() && ControllerPlan(2) != TransitTopRightPlan()
    ensures ControllerPlan(4) == TransitBottomRightPlan()
    ensures ControllerPlan(5) == TransitBottomLeftPlan()
  {
    TransitPlanShaped("00:00:00:00:02:02", 2, 3, "00:00:00:00:02:03", "00:00:00:00:03:03");
    TransitPlanShaped("00:00:00:00:03:03", 3, 2, "00:00:00:00:03:02", "00:00:00:00:04:02");
    TransitPlanShaped("00:00:00:00:05:02", 2, 3, "00:00:00:00:05:03", "00:00:00:00:04:03");
    TransitPlanShaped("00:00:00:00:06:03", 3, 2, "00:00:00:00:06:02", "00:00:00:00:05:02");
    assert TransitTopRightPlan()[2] != TransitTopRightPlanCorrected()[2];
  }

  /** Along s1, s6, s5, s4 and along s1, s2, s3, s4 every rewrite addresses
      frames to a MAC the next switch accepts on the port the link arrives on,
      and no switch addresses frames to itself. */
  lemma ControllerPathsHandOff()
    ensures HandsOffTo(ControllerPlan(0), 3, ControllerPlan(5), 3)
    ensures HandsOffTo(ControllerPlan(5), 2, ControllerPlan(4), 2)
    ensures HandsOffTo(ControllerPlan(4), 3, ControllerPlan(3), 3)
    ensures HandsOffTo(ControllerPlan(0), 2, ControllerPlan(1), 2)
    ensures HandsOffTo(ControllerPlan(1), 3, ControllerPlan(2), 3)
    ensures HandsOffTo(ControllerPlan(2), 2, ControllerPlan(3), 2)
    ensures forall k :: 0 <= k < 6 ==> NotSelfAddressed(ControllerPlan(k))
  {
    assert ControllerPlan(5)[0].kind.macAddr == "00:00:00:00:06:03";
    assert ControllerPlan(4)[0].kind.macAddr == "00:00:00:00:05:02";
    assert ControllerPlan(3)[1].kind.macAddr == "00:00:00:00:04:03";
    assert ControllerPlan(1)[0].kind.macAddr == "00:00:00:00:02:02";
    assert ControllerPlan(2)[0].kind.macAddr == "00:00:00:00:03:03";
    assert ControllerPlan(3)[0].kind.macAddr == "00:00:00:00:04:02";
  }
}
