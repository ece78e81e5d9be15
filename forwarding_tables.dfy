/**
 * The forwarding-table entry factory (controller/p4forwardingtables.py).
 *
 * A table entry is a table name, a map of match fields, an action name and a
 * map of action parameters. The factory has four constructors, one per table
 * the controller programs. Each returns fixed schema strings and passes its
 * arguments through unchanged; booleans are lowered to 0/1.
 *
 * Every constructor is paired with `Parse`, a recogniser that reads an entry
 * back into the arguments that built it. `Parse(Build(k)) == Some(k)` and
 * `Parse(e) == Some(k) ==> Build(k) == e` together say that each constructor
 * produces exactly the documented entry and nothing else.
 */
module ForwardingTables {
  import opened Optional

  /** A match-field or action-parameter value: an exact string (MAC or IPv4
      text), an exact integer, or a (network, prefix length) pair for a
      longest-prefix-match field. The prefix length is never range checked. */
  datatype Value = Str(s: string) | Int(i: int) | Lpm(network: string, prefixLen: int)

  datatype TableEntry = TableEntry(
    tableName: string,
    matchFields: map<string, Value>,
    actionName: string,
    actionParams: map<string, Value>)

  // Schema identifiers of the dataplane program.
  const InterfaceMacTable := "MyIngress.interface_mac_address"
  const NoAction := "MyIngress.no_action"
  const RoutingTable := "MyIngress.working_routing_path_table"
  const Forward := "MyIngress.forward"
  const ProtectedTable := "MyIngress.protected_connections"
  const AssociateProtected := "MyIngress.associate_protected_details"
  const NextHopTable := "MyEgress.next_hop_table"
  const SetMac := "MyEgress.set_mac"

  const EthDstAddr := "hdr.ethernet.dstAddr"
  const IngressPortField := "standard_metadata.ingress_port"
  const EgressPortField := "standard_metadata.egress_port"
  const Ipv4SrcAddr := "hdr.ipv4.srcAddr"
  const Ipv4DstAddr := "hdr.ipv4.dstAddr"

  const PortParam := "port"
  const ConnectionParam := "connection"
  const IngressFlagParam := "isPHIngressFlag"
  const EgressFlagParam := "isPHEgressFlag"
  const SessionParam := "sessionID"
  const SrcAddrParam := "srcAddr"
  const DstAddrParam := "dstAddr"

  /** The arguments of each factory constructor. */
  datatype EntryKind =
    | MacAccept(macAddr: string, ingressPort: int)
    | Routing(dstNetwork: string, prefixLen: int, egressPort: int)
    | Protect(sourceIp: string, destinationIp: string, connectionId: int,
              isPhIngress: bool, isPhEgress: bool, cloneSessionId: int)
    | Rewrite(dstNetwork: string, prefixLen: int, egressPort: int, srcMac: string, nextHopMac: string)

  /** A boolean lowered to the integer the dataplane expects. */
  function FlagValue(b: bool): (i: int)
    ensures i == 0 || i == 1
    ensures i == 1 <==> b
  {
    if b then 1 else 0
  }

  /** Reads a flag parameter back; only 0 and 1 are flags. */
  function FlagOf(v: Value): (b: Option<bool>)
    ensures b.Some? <==> v == Int(0) || v == Int(1)
  {
    if v == Int(1) then Some(true)
    else if v == Int(0) then Some(false)
    else None
  }

  lemma FlagRoundTrip(b: bool)
    ensures FlagOf(Int(FlagValue(b))) == Some(b)
  {
  }

  /** Accept frames addressed to `macAddr` that arrive on `ingressPort`. */
  function IngressMacEntry(macAddr: string, ingressPort: int): (e: TableEntry)
    ensures e.tableName == InterfaceMacTable && e.actionName == NoAction
    ensures e.matchFields.Keys == {EthDstAddr, IngressPortField} && e.actionParams == map[]
    ensures e.matchFields[EthDstAddr] == Str(macAddr) && e.matchFields[IngressPortField] == Int(ingressPort)
  {
    TableEntry(
      InterfaceMacTable,
      map[EthDstAddr := Str(macAddr), IngressPortField := Int(ingressPort)],
      NoAction,
      map[])
  }

  /** Forward traffic for `dstNetwork/prefixLen` out of `egressPort`. */
  function RoutingEntry(dstNetwork: string, prefixLen: int, egressPort: int): (e: TableEntry)
    ensures e.tableName == RoutingTable && e.actionName == Forward
    ensures e.matchFields.Keys == {Ipv4DstAddr} && e.actionParams.Keys == {PortParam}
    ensures e.matchFields[Ipv4DstAddr] == Lpm(dstNetwork, prefixLen)
    ensures e.actionParams[PortParam] == Int(egressPort)
  {
    TableEntry(
      RoutingTable,
      map[Ipv4DstAddr := Lpm(dstNetwork, prefixLen)],
      Forward,
      map[PortParam := Int(egressPort)])
  }

  /** Mark the (source, destination) flow as protected connection `connectionId`.
      The clone session id defaults to 0, meaning "this device clones nothing". */
  function TrafficProtectEntry(sourceIp: string, destinationIp: string, connectionId: int,
                               isPhIngress: bool, isPhEgress: bool,
                               cloneSessionId: int := 0): (e: TableEntry)
    ensures e.tableName == ProtectedTable && e.actionName == AssociateProtected
    ensures e.matchFields.Keys == {Ipv4SrcAddr, Ipv4DstAddr}
    ensures e.actionParams.Keys == {ConnectionParam, IngressFlagParam, EgressFlagParam, SessionParam}
    ensures e.matchFields[Ipv4SrcAddr] == Str(sourceIp) && e.matchFields[Ipv4DstAddr] == Str(destinationIp)
    ensures e.actionParams[ConnectionParam] == Int(connectionId)
    ensures e.actionParams[IngressFlagParam] in {Int(0), Int(1)}
    ensures e.actionParams[IngressFlagParam] == Int(1) <==> isPhIngress
    ensures e.actionParams[EgressFlagParam] in {Int(0), Int(1)}
    ensures e.actionParams[EgressFlagParam] == Int(1) <==> isPhEgress
    ensures e.actionParams[SessionParam] == Int(cloneSessionId)
  {
    TableEntry(
      ProtectedTable,
      map[Ipv4SrcAddr := Str(sourceIp), Ipv4DstAddr := Str(destinationIp)],
      AssociateProtected,
      map[ConnectionParam := Int(connectionId),
          IngressFlagParam := Int(FlagValue(isPhIngress)),
          EgressFlagParam := Int(FlagValue(isPhEgress)),
          SessionParam := Int(cloneSessionId)])
  }

  /** On leaving through `egressPort` towards `dstNetwork/prefixLen`, rewrite the
      source MAC to `srcMac` and the destination MAC to `nextHopMac`. */
  function RouteByEgressEntry(dstNetwork: string, prefixLen: int, egressPort: int,
                              srcMac: string, nextHopMac: string): (e: TableEntry)
    ensures e.tableName == NextHopTable && e.actionName == SetMac
    ensures e.matchFields.Keys == {EgressPortField, Ipv4DstAddr}
    ensures e.actionParams.Keys == {SrcAddrParam, DstAddrParam}
    ensures e.matchFields[EgressPortField] == Int(egressPort)
    ensures e.matchFields[Ipv4DstAddr] == Lpm(dstNetwork, prefixLen)
    ensures e.actionParams[SrcAddrParam] == Str(srcMac) && e.actionParams[DstAddrParam] == Str(nextHopMac)
  {
    TableEntry(
      NextHopTable,
      map[EgressPortField := Int(egressPort), Ipv4DstAddr := Lpm(dstNetwork, prefixLen)],
      SetMac,
      map[SrcAddrParam := Str(srcMac), DstAddrParam := Str(nextHopMac)])
  }

  /** The factory constructor selected by its arguments. */
  function Build(k: EntryKind): TableEntry
  {
    match k
    case MacAccept(mac, port) => IngressMacEntry(mac, port)
    case Routing(net, len, port) => RoutingEntry(net, len, port)
    case Protect(src, dst, conn, ing, egr, session) => TrafficProtectEntry(src, dst, conn, ing, egr, session)
    case Rewrite(net, len, port, smac, nmac) => RouteByEgressEntry(net, len, port, smac, nmac)
  }

  /** Recognises an entry that one of the factory constructors could have built,
      and recovers that constructor's arguments. */
  function Parse(e: TableEntry): Option<EntryKind>
  {
    var m, p := e.matchFields, e.actionParams;
    if e.tableName == InterfaceMacTable then
      if e.actionName == NoAction && p == map[] && m.Keys == {EthDstAddr, IngressPortField}
         && m[EthDstAddr].Str? && m[IngressPortField].Int?
      then Some(MacAccept(m[EthDstAddr].s, m[IngressPortField].i))
      else None
    else if e.tableName == RoutingTable then
      if e.actionName == Forward && m.Keys == {Ipv4DstAddr} && p.Keys == {PortParam}
         && m[Ipv4DstAddr].Lpm? && p[PortParam].Int?
      then Some(Routing(m[Ipv4DstAddr].network, m[Ipv4DstAddr].prefixLen, p[PortParam].i))
      else None
    else if e.tableName == ProtectedTable then
      if e.actionName == AssociateProtected && m.Keys == {Ipv4SrcAddr, Ipv4DstAddr}
         && p.Keys == {ConnectionParam, IngressFlagParam, EgressFlagParam, SessionParam}
         && m[Ipv4SrcAddr].Str? && m[Ipv4DstAddr].Str?
         && p[ConnectionParam].Int? && p[SessionParam].Int?
         && FlagOf(p[IngressFlagParam]).Some? && FlagOf(p[EgressFlagParam]).Some?
      then Some(Protect(m[Ipv4SrcAddr].s, m[Ipv4DstAddr].s, p[ConnectionParam].i,
                        FlagOf(p[IngressFlagParam]).value, FlagOf(p[EgressFlagParam]).value,
                        p[SessionParam].i))
      else None
    else if e.tableName == NextHopTable then
      if e.actionName == SetMac && m.Keys == {EgressPortField, Ipv4DstAddr}
         && p.Keys == {SrcAddrParam, DstAddrParam}
         && m[EgressPortField].Int? && m[Ipv4DstAddr].Lpm?
         && p[SrcAddrParam].Str? && p[DstAddrParam].Str?
      then Some(Rewrite(m[Ipv4DstAddr].network, m[Ipv4DstAddr].prefixLen, m[EgressPortField].i,
                        p[SrcAddrParam].s, p[DstAddrParam].s))
      else None
    else None
  }

  /** Each factory constructor is read back as exactly its arguments. */
  lemma ParseBuild(k: EntryKind)
    ensures Parse(Build(k)) == Some(k)
  {
  }

  /** The recogniser is exact: an entry it accepts is precisely the one the
      factory builds from the recovered arguments, so no extra match field,
      parameter or encoding slips through. */
  lemma BuildParse(e: TableEntry, k: EntryKind)
    requires Parse(e) == Some(k)
    ensures Build(k) == e
  {
    var m, p := e.matchFields, e.actionParams;
    match k
    case MacAccept(mac, port) =>
      assert m == map[EthDstAddr := Str(mac), IngressPortField := Int(port)];
    case Routing(net, len, port) =>
      assert m == map[Ipv4DstAddr := Lpm(net, len)];
      assert p == map[PortParam := Int(port)];
    case Protect(src, dst, conn, ing, egr, session) =>
      assert m == map[Ipv4SrcAddr := Str(src), Ipv4DstAddr := Str(dst)];
      assert p[IngressFlagParam] == Int(FlagValue(ing));
      assert p[EgressFlagParam] == Int(FlagValue(egr));
      assert p == map[ConnectionParam := Int(conn),
                      IngressFlagParam := Int(FlagValue(ing)),
                      EgressFlagParam := Int(FlagValue(egr)),
                      SessionParam := Int(session)];
    case Rewrite(net, len, port, smac, nmac) =>
      assert m == map[EgressPortField := Int(port), Ipv4DstAddr := Lpm(net, len)];
      assert p == map[SrcAddrParam := Str(smac), DstAddrParam := Str(nmac)];
  }

  /** The factory is injective: different arguments never give the same entry. */
  lemma BuildInjective(k1: EntryKind, k2: EntryKind)
    requires Build(k1) == Build(k2)
    ensures k1 == k2
  {
    ParseBuild(k1);
    ParseBuild(k2);
  }

  /** The protection entry's session id is 0 when the argument is omitted. */
  lemma ProtectDefaultSession(sourceIp: string, destinationIp: string, connectionId: int,
                              isPhIngress: bool, isPhEgress: bool)
    ensures TrafficProtectEntry(sourceIp, destinationIp, connectionId, isPhIngress, isPhEgress).actionParams[SessionParam] == Int(0)
  {
  }
}
