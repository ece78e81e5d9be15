# p4-protection-header control plane, modelled in Dafny

This project models the control plane of a protection-header network. Six
BMv2 switches, s1 to s6, form two paths from an ingress switch to an egress
switch:
- the upper path runs s1, s2, s3, s4;
- the lower path runs s1, s6, s5, s4.

A Python controller decides which forwarding state each switch gets. It
writes two kinds of state:
- table entries, built by an entry factory;
- clone sessions, which duplicate protected traffic to a given port (port 2
  on controller.py's s1, port 1 in controller/topology.py).

The model covers four parts of that controller:
- **The entry factory** (module `ForwardingTables`). Four constructors build
  the table entries: MAC accept, LPM routing, protected connection, and
  egress MAC rewrite. `Parse` is the recogniser that inverts them.
- **Switch connections** (modules `Transport`, `Switches`). A `Device` stands
  for one runtime session and records the requests it receives, in order:
  arbitration, pipeline push, writes, shutdown.
  - `P4SwitchConnection` is the context manager around a `Device`.
  - `P4Switch` and `SwitchRole` are plain data.
- **Topology builders** (modules `Topology`, `MainTopology`). Each maps a
  position name to a switch. The map from controller/topology.py and the one
  from main.py differ only in two position names.
- **Configurators**. Each is a fixed, ordered sequence of writes to one
  switch.
  - The six `configure_*` functions of controller/topology.py are in module
    `Topology`.
  - The write helpers and the per-switch sequence of controller.py's `main`
    are in module `Controller`.
  - Each sequence is also given as a *plan* (module `Plans`): a list of steps,
    each naming the factory call or clone session behind one write.
  - `Materialize` turns a plan into its writes, and `ReadBack` proves the
    plan can be recovered from those writes. So a property proved of a plan
    is a property of what the switch receives.
  - Each configurator method is proved to append exactly its plan's writes.
  - Lemmas state what the plans guarantee: the ordering of clone session and
    protection entry, the protection flags per role, the shape of a transit
    switch, and that each switch rewrites frames to a MAC address the next
    switch on the path accepts on the port the link arrives on.

## Model

| member | source | states |
|---|---|---|
| ForwardingTables.IngressMacEntry | controller/p4forwardingtables.py:16-30 | table `MyIngress.interface_mac_address`, action `MyIngress.no_action`, no action params; the match keys are exactly the Ethernet destination and the ingress port, carrying the two arguments unchanged |
| ForwardingTables.RoutingEntry | controller/p4forwardingtables.py:32-49 | table `MyIngress.working_routing_path_table`, action `MyIngress.forward`; the only match key is the IPv4 destination, holding the unchanged (network, prefix length) pair; the only param is `port`, equal to the egress port |
| ForwardingTables.TrafficProtectEntry | controller/p4forwardingtables.py:51-75 | table `MyIngress.protected_connections`; match keys are exactly source and destination IPv4; params are exactly `connection`, the two flags and `sessionID`; each flag is 0 or 1, and 1 exactly when its boolean is true; `sessionID` is the clone session id |
| ForwardingTables.RouteByEgressEntry | controller/p4forwardingtables.py:77-99 | table `MyEgress.next_hop_table`, action `MyEgress.set_mac`; match keys are exactly the egress port and the (network, prefix length) pair; params are exactly `srcAddr` and `dstAddr`, equal to the two MAC arguments |
| ForwardingTables.FlagValue | controller/p4forwardingtables.py:65-66 | a boolean is lowered to 0 or 1, and to 1 exactly when it is true |
| ForwardingTables.FlagOf | controller/p4forwardingtables.py:65-66 | a flag value is read back exactly when it is 0 or 1 |
| ForwardingTables.FlagRoundTrip | controller/p4forwardingtables.py:65-66 | reading back a lowered flag gives the original boolean |
| ForwardingTables.ParseBuild | controller/p4forwardingtables.py:14-99 | every entry any constructor builds is recognised as exactly the arguments it was built from |
| ForwardingTables.BuildParse | controller/p4forwardingtables.py:14-99 | an entry the recogniser accepts is exactly the one the factory builds from the recovered arguments, so no extra key, parameter or value encoding can pass |
| ForwardingTables.BuildInjective | controller/p4forwardingtables.py:14-99 | different constructor arguments never give the same entry |
| ForwardingTables.ProtectDefaultSession | controller/p4forwardingtables.py:57-67 | when the clone session id is omitted, the protection entry's `sessionID` is 0 |
| Transport.Device.constructor | controller/p4switch.py:24-28 | a new session keeps the name, address, device id and dump file, and has received no request |
| Transport.Device.MasterArbitrationUpdate | controller/p4switch.py:31 | appends one arbitration request and nothing else |
| Transport.Device.SetForwardingPipelineConfig | controller/p4switch.py:32-35 | appends one pipeline push carrying the P4Info and BMv2 JSON |
| Transport.Device.WriteTableEntry | controller/p4switch.py:50 | appends one table write carrying the entry unchanged |
| Transport.Device.WritePreEntry | controller/p4switch.py:64 | appends one clone-session write carrying the entry unchanged |
| Transport.Device.Shutdown | controller/p4switch.py:40 | appends one shutdown request |
| Transport.SessionLifecycle | controller/p4switch.py:30-41 | a session's trace arbitrates exactly once and first, pushes the pipeline second, shuts down exactly once and last, and sends only writes in between; reading the writes back gives exactly the writes sent |
| Plans.ReadBack | controller/p4forwardingtables.py:14-99 | every write a plan produces is recognised as the factory call or clone session of its step, so plans and write logs determine each other |
| Plans.MaterializeInjective | controller/p4forwardingtables.py:14-99 | two different plans never put the same writes on the wire |
| Switches.RoleOfValue | controller/p4switch.py:68-71 | a role is found exactly for the strings `ingress`, `transit` and `egress`, and the role found has that string as its value |
| Switches.RolesEnumerated | controller/p4switch.py:68-71 | there are exactly three roles, their string values are pairwise distinct, and each role is read back from its value |
| Switches.CloneSessionEntryOf | controller/p4switch.py:53-63 | the replication entry has the session's id, packet length 0 (never truncate), and exactly one replica, whose port and instance are the session's clone port and instance id |
| Switches.CloneSessionOf | controller/p4switch.py:53-63 | a replication entry is read back as a clone session exactly when it has one replica and packet length 0 |
| Switches.CloneSessionRoundTrip | controller/p4switch.py:53-63 | building the replication entry and reading it back are inverse, in both directions |
| Switches.SwitchName | controller.py:114-119 | switch `k` is named `s(k+1)`: two characters, `s` then the digit `1 + k`, so different ids give different names |
| Switches.SwitchAddress | controller.py:18 | the address is `localhost:5005` followed by the second character of the name |
| Switches.P4SwitchConnection.constructor | controller/p4switch.py:18-28 | the new connection is bound to the switch; its fresh session has the switch's name, uri and id and dump file `logs/<name>-p4runtime-requests.txt`, and has received no request |
| Switches.P4SwitchConnection.Enter | controller/p4switch.py:30-36 | arbitrates, then pushes the switch's pipeline config, and returns the connection itself |
| Switches.P4SwitchConnection.Exit | controller/p4switch.py:38-41 | shuts the session down whether or not the block raised, and does not suppress the exception |
| Switches.P4SwitchConnection.WriteTableEntry | controller/p4switch.py:43-51 | sends exactly one table write, with the entry's four fields unchanged |
| Switches.P4SwitchConnection.SetCloneSession | controller/p4switch.py:53-65 | sends exactly one clone-session write: the session id, one replica (clone port, instance id), packet length 0 |
| Switches.Connect | controller/p4switch.py:91-92 | returns a new connection bound to this switch, with the switch's id and uri, that has received no request |
| Topology.SpecifySwitchTopology | controller/topology.py:5-62 | exactly the six positions `ingress_switch`, `transit_top_left`, `transit_top_right`, `egress_switch`, `transit_bottom_right`, `transit_bottom_left`; every switch carries the two artifact paths; the role is Ingress exactly at `ingress_switch` and Egress exactly at `egress_switch` |
| Topology.TopologyIdsByPosition | controller/topology.py:9-58 | the i-th position in id order holds the switch with id i |
| Topology.TopologyNamesByPosition | controller/topology.py:9-58 | the switch with id i is named `s(i+1)` and addressed at `localhost:5005(i+1)` |
| Topology.TopologyNumbering | controller/topology.py:9-58 | ids are 0..5, pairwise distinct, and cover 0..5; names are pairwise distinct; each name follows from the id and each uri from the name |
| Topology.TopologyTransitPositions | controller/topology.py:12-56 | the transit switches are exactly those at the four `transit_*` positions |
| Topology.TopologyRoleCounts | controller/topology.py:12-56 | six switches: exactly one ingress (`ingress_switch`), exactly one egress (`egress_switch`) and four transit switches |
| Topology.IngressSwitchPlanOrder | controller/topology.py:68-104 | the log is MAC accept, clone session 500, protection, routing via port 3, rewrite on port 3, rewrite on port 2; the clone session precedes the protection entry naming it; that entry's connection is the clone's instance id; its flags are (ingress, not egress) |
| Topology.EgressSwitchPlanOrder | controller/topology.py:107-140 | MAC accepts for ports 2 and 3 come before any other write; the clone session precedes the protection entry naming it; that entry's flags are (not ingress, egress) |
| Topology.TransitPlanShaped | controller/topology.py:143-216 | for any MACs and ports, a transit log is exactly MAC accept, routing, rewrite; it writes no clone session and no protection entry; routing and rewrite use the same egress port |
| Topology.ProtectionFlagsByRole | controller/topology.py:68-140 | only the ingress configurator flags protection ingress, only the egress configurator flags protection egress, and neither sets both flags |
| Topology.TopRightAddressesItself | controller/topology.py:162-178 | as written, the top-right switch rewrites frames to a MAC address it accepts itself, and the egress switch accepts that MAC on no port |
| Topology.UpperPathHandsOff | controller/topology.py:68-178 | along ingress, top-left, corrected top-right, egress, every rewrite addresses frames to a MAC the next switch accepts on the port the link arrives on |
| Topology.LowerPathHandsOff | controller/topology.py:68-216 | along ingress, bottom-left, bottom-right, egress, every rewrite addresses frames to a MAC the next switch accepts on the port the link arrives on |
| Topology.PathsHandOff | controller/topology.py:68-216 | with the corrected top-right rewrite, along both paths every rewrite addresses frames to a MAC the next switch accepts on the port the link arrives on, and no switch addresses frames to itself |
| Topology.ConfigureIngressSwitch | controller/topology.py:68-104 | appends exactly the writes of the ingress plan, in order |
| Topology.ConfigureEgressSwitch | controller/topology.py:107-140 | appends exactly the writes of the egress plan, in order |
| Topology.ConfigureTransitTopLeftSwitch | controller/topology.py:143-159 | appends exactly the top-left transit plan's three writes |
| Topology.ConfigureTransitTopRightSwitch | controller/topology.py:162-178 | appends exactly the top-right transit plan's three writes, as written |
| Topology.ConfigureTransitBottomLeftSwitch | controller/topology.py:181-197 | appends exactly the bottom-left transit plan's three writes |
| Topology.ConfigureTransitBottomRightSwitch | controller/topology.py:200-216 | appends exactly the bottom-right transit plan's three writes |
| Controller.BuildSwitchConnection | controller.py:14-20 | a new session with the given name and device id, address `localhost:5005` plus the name's second character, dump file `logs/<name>-p4runtime-requests.txt`, and no request yet |
| Controller.WriteIngressMacEntry | controller.py:23-33 | the entry built inline and sent is exactly the factory's MAC-accept entry |
| Controller.WriteWorkingRoutingPathEntry | controller.py:36-47 | the entry built inline and sent is exactly the factory's routing entry |
| Controller.WriteProtectedTrafficEntry | controller.py:49-72 | the entry built inline, flags as `int(bool)` and session id defaulting to 0, is exactly the factory's protection entry |
| Controller.WriteCloneSession | controller.py:74-78 | sends one replication entry: one replica on the clone port with instance 1, packet length 0 |
| Controller.WriteRoutingByEgressEntry | controller.py:80-93 | the entry built inline and sent is exactly the factory's egress-rewrite entry |
| Controller.PortMacEntry | controller.py:95-104 | table `MyEgress.port_mac_table`, action `MyEgress.set_smac`; the only match key is the egress port and the only param is `mac`; no factory constructor builds it |
| Controller.WritePortMacAddr | controller.py:95-106 | sends exactly the port-MAC entry |
| Controller.ConfigureIngressSwitch | controller.py:127-141 | s1 receives exactly the ingress plan's writes, in order |
| Controller.ConfigurePrimaryRoute | controller.py:144-155 | s6 and then s5 each receive exactly their transit plan's writes |
| Controller.ConfigureSecondaryRoute | controller.py:157-168 | s2 and then s3 each receive exactly their transit plan's writes |
| Controller.ConfigureEgressSwitch | controller.py:170-182 | s4 receives exactly the egress plan's writes, protection entry last |
| Controller.BuildSwitches | controller.py:113-119 | six distinct new sessions, device ids 0..5, named s1..s6 and addressed after their names, none used yet |
| Controller.SetUpSwitches | controller.py:121-124 | every session is arbitrated and then sent the pipeline, so all six are set up before the first write |
| Controller.ShutdownAllSwitchConnections | controller.py:188 | every session is shut down exactly once |
| Controller.RunController | controller.py:108-188 | each of the six switches sees exactly one well-formed session (arbitrate, push, its own writes in order, shutdown); ids, names and addresses are as built and the sessions are distinct |
| Controller.IngressCloneBeforeProtection | controller.py:128-138 | on s1 the clone session (session 500, one replica on port 2, instance 1) is written before any protection entry; the protection entry names session 500 and flags ingress only |
| Controller.EgressProtectionDefaults | controller.py:170-182 | on s4 the last write is the protection entry, with flags (not ingress, egress) and the default session id 0; s4 gets no clone session |
| Controller.FlagsOnExactlyOneSwitch | controller.py:127-182 | a switch receives an ingress-flagged protection entry exactly when it is s1, and an egress-flagged one exactly when it is s4; no entry sets both flags |
| Controller.TransitSwitchesShaped | controller.py:144-168 | s2, s3, s5 and s6 each receive exactly MAC accept, routing, rewrite, with the routing port equal to the rewrite port; s2, s5 and s6 match the topology module's transit configurators, and s3 matches its corrected top-right plan rather than the as-written one |
| Controller.ControllerPathsHandOff | controller.py:127-182 | along s1, s6, s5, s4 and s1, s2, s3, s4, every rewrite addresses frames to a MAC the next switch accepts on the port the link arrives on, and no switch addresses frames to itself |
| MainTopology.SpecifySwitchTopology | main.py:12-69 | exactly the six positions `ingress_switch`, `transit_up_left`, `transit_up_right`, `egress_switch`, `transit_bottom_right`, `transit_bottom_left`; every switch carries the two artifact paths; Ingress exactly at `ingress_switch` and Egress exactly at `egress_switch` |
| MainTopology.SameSwitchesAsTopology | main.py:16-67 | taken position by position in id order, main.py's map holds the same switches as controller/topology.py's |
| MainTopology.MainTopologyNumbering | main.py:16-67 | ids are 0..5 and pairwise distinct, names are s1..s6 after the ids and pairwise distinct, and each uri is `localhost:5005k` for name `sk` |
| MainTopology.MainTopologyTransitPositions | main.py:19-63 | the transit switches are exactly those at the four `transit_*` positions |
| MainTopology.MainTopologyRoleCounts | main.py:19-63 | exactly one ingress, one egress and four transit switches |

## Left out

- The runtime transport is represented only by the requests a `Device` records: the gRPC channel, the P4Runtime messages and the BMv2 switch itself. Every request is acknowledged, so `grpc.RpcError` never happens in the model.
- `KeyboardInterrupt` and the two `except` clauses of controller.py's `main` (lines 183-186) are not modelled. Their bodies only print, but they let a run that stopped part-way still reach `ShutdownAllSwitchConnections()` (line 188); that partial-run-then-shutdown path is not modelled, and `RunController` covers only the run that completes.
- P4Info parsing: `P4InfoHelper` is not part of this model. A switch keeps its P4Info path, and the pipeline push carries that path in place of the parsed P4Info.
- The `buildTableEntry` and `buildCloneSessionEntry` helpers pass their arguments into the request unchanged here. Any encoding or validation they do is not modelled.
- Argument parsing, the file-existence checks, and all `print` and logging calls are left out. So are the unused constants `SWITCH_TO_HOST_PORT` and `SWITCH_TO_SWITCH_PORT` (controller.py:10-11).
- main.py's `main()` is left out. It calls `conn.write_entry()`, which `P4SwitchConnection` does not define.
- controller/p4clonesession.py is not part of this model. The fields of `CloneSession` (instance id, clone port, session id) are taken from their uses in controller/topology.py.
- The factory object carries no state, so its constructors are module functions and do not take it as an argument.
- Dictionary insertion order of match fields and action params is not modelled. Both are maps.
- The prefix length is an unbounded integer with no range check, as in the source.
- Switches.P4SwitchConnection.Exit: the source guards the shutdown with `connection is not None`. The constructor always sets the connection, so that guard is always true and the model shuts down unconditionally.
- Controller.RunController: an interleaving of requests across different switches is not recorded. Each switch's own trace is exact. `SetUpSwitches` returning before the first configurator runs is what orders set-up before any write.

## Findings

| source | as written | input that shows it | evidently intended | confidence | as-written member | corrected member |
|---|---|---|---|---|---|---|
| controller/topology.py:168-174 | the top-right transit switch (s3) rewrites frames leaving port 2 with source `00:00:00:00:02:03` and next hop `00:00:00:00:03:03`; these are the top-left switch's MAC pair | a frame routed by s3 out of port 2 is addressed to `00:00:00:00:03:03`, the MAC s3 itself accepts on port 3 (line 164); the egress switch accepts only `00:00:00:00:04:02` and `00:00:00:00:04:03`, so it never accepts the frame | source `00:00:00:00:03:02`, next hop `00:00:00:00:04:02`, as controller.py:168 writes for s3 | not executed; read from the literals | Topology.TopRightAddressesItself | Topology.UpperPathHandsOff |
