/**
 * Switches and their control connections (controller/p4switch.py).
 *
 * A `P4Switch` is immutable data: device id, name, role, address and the two
 * dataplane artifact paths. A `P4SwitchConnection` wraps the transport session
 * to one switch. Entering it arbitrates and then pushes the pipeline config.
 * Writing through it sends table entries and clone sessions. Exiting it shuts
 * the session down, on normal and exceptional exit alike.
 */
module Switches {
  import opened Optional
  import opened ForwardingTables
  import opened Transport

  datatype SwitchRole = Ingress | Transit | Egress
  {
    /** The string value of the role. */
    function Value(): string
    {
      match this
      case Ingress => "ingress"
      case Transit => "transit"
      case Egress => "egress"
    }
  }

  const AllRoles: seq<SwitchRole> := [Ingress, Transit, Egress]

  /** The role whose string value is `s`, if there is one. */
  function RoleOfValue(s: string): (r: Option<SwitchRole>)
    ensures r.Some? <==> s in {"ingress", "transit", "egress"}
    ensures r.Some? ==> r.value.Value() == s
  {
    if s == "ingress" then Some(Ingress)
    else if s == "transit" then Some(Transit)
    else if s == "egress" then Some(Egress)
    else None
  }

  /** There are exactly three roles, with pairwise distinct string values,
      and each is read back from its value. */
  lemma RolesEnumerated()
    ensures |AllRoles| == 3 && forall r: SwitchRole :: r in AllRoles
    ensures forall r1: SwitchRole, r2: SwitchRole :: r1.Value() == r2.Value() ==> r1 == r2
    ensures forall r: SwitchRole :: RoleOfValue(r.Value()) == Some(r)
  {
    forall r: SwitchRole
      ensures r in AllRoles
    {
      match r
      case Ingress => assert AllRoles[0] == r;
      case Transit => assert AllRoles[1] == r;
      case Egress => assert AllRoles[2] == r;
    }
  }

  /** A switch as the controller knows it. The P4Info helper the source builds
      from `p4Info` is represented by the path alone. */
  datatype P4Switch = P4Switch(
    id: int,
    name: string,
    role: SwitchRole,
    uri: string,
    p4Info: string,
    bmv2Json: string)

  /** A clone session as the configurators describe it. */
  datatype CloneSession = CloneSession(cloneInstanceId: int, clonePort: int, cloneSessionId: int)

  /** The packet-replication entry that installs `c`: one replica, never truncated. */
  function CloneSessionEntryOf(c: CloneSession): (e: CloneSessionEntry)
    ensures e.sessionId == c.cloneSessionId && e.packetLength == 0
    ensures |e.replicas| == 1
    ensures e.replicas[0].egressPort == c.clonePort && e.replicas[0].instance == c.cloneInstanceId
  {
    CloneSessionEntry(c.cloneSessionId, [Replica(c.clonePort, c.cloneInstanceId)], 0)
  }

  /** Reads a replication entry back as the clone session that installs it. */
  function CloneSessionOf(e: CloneSessionEntry): (c: Option<CloneSession>)
    ensures c.Some? <==> |e.replicas| == 1 && e.packetLength == 0
  {
    if |e.replicas| == 1 && e.packetLength == 0
    then Some(CloneSession(e.replicas[0].instance, e.replicas[0].egressPort, e.sessionId))
    else None
  }

  /** `CloneSessionOf` inverts `CloneSessionEntryOf`, in both directions. */
  lemma CloneSessionRoundTrip(c: CloneSession, e: CloneSessionEntry)
    ensures CloneSessionOf(CloneSessionEntryOf(c)) == Some(c)
    ensures CloneSessionOf(e) == Some(c) ==> CloneSessionEntryOf(c) == e
  {
    if CloneSessionOf(e) == Some(c) {
      assert e.replicas == [Replica(c.clonePort, c.cloneInstanceId)];
    }
  }

  /** The name of the switch with device id `id`: s1 for 0, s2 for 1, ... */
  function SwitchName(id: int): (name: string)
    requires 0 <= id < 9
    ensures |name| == 2 && name[0] == 's' && '1' <= name[1] <= '9'
    ensures name[1] as int == '1' as int + id
  {
    "s" + [('1' as int + id) as char]
  }

  /** The control address of the switch called `name`: port 5005k for sk. */
  function SwitchAddress(name: string): (address: string)
    requires |name| >= 2
    ensures |address| == 15 && address[..14] == "localhost:5005" && address[14] == name[1]
  {
    "localhost:5005" + [name[1]]
  }

  /** A topology keyed by position name: ids are 0..5 and each of 0..5 is
      used, each switch is named after its id and addressed after its name,
      and both ids and names are pairwise distinct. */
  predicate SixSwitchNumbering(t: map<string, P4Switch>)
  {
    && (forall k :: k in t ==>
          && 0 <= t[k].id < 6
          && t[k].name == SwitchName(t[k].id)
          && t[k].uri == SwitchAddress(t[k].name))
    && (forall k1, k2 :: k1 in t && k2 in t && t[k1].id == t[k2].id ==> k1 == k2)
    && (forall k1, k2 :: k1 in t && k2 in t && t[k1].name == t[k2].name ==> k1 == k2)
    && (forall n :: 0 <= n < 6 ==> n in IdsOf(t))
  }

  /** The ids of the switches of `t`. */
  function IdsOf(t: map<string, P4Switch>): set<int>
  {
    set k | k in t :: t[k].id
  }

  /** `t` lists switch `i` at position `order[i]`, named and addressed after
      its id, and has no other position. */
  ghost predicate ListedInOrder(t: map<string, P4Switch>, order: seq<string>)
  {
    && |order| == 6
    && (forall k :: k in t <==> k in order)
    && (forall i :: 0 <= i < 6 ==>
          && order[i] in t && t[order[i]].id == i
          && t[order[i]].name == SwitchName(i) && t[order[i]].uri == SwitchAddress(SwitchName(i)))
  }

  /** The id of a switch listed in order is its index in the order. */
  lemma IdIsIndex(t: map<string, P4Switch>, order: seq<string>, k: string) returns (i: int)
    requires ListedInOrder(t, order) && k in t
    ensures 0 <= i < 6 && order[i] == k && t[k].id == i
  {
    assert k in order;
    i :| 0 <= i < 6 && order[i] == k;
  }

  /** A map listed in order is numbered as `SixSwitchNumbering` requires. */
  lemma NumberingByPosition(t: map<string, P4Switch>, order: seq<string>)
    requires ListedInOrder(t, order)
    ensures SixSwitchNumbering(t)
  {
    forall k | k in t
      ensures 0 <= t[k].id < 6 && t[k].name == SwitchName(t[k].id)
      ensures t[k].uri == SwitchAddress(t[k].name)
    {
      var i := IdIsIndex(t, order, k);
    }
    forall k1, k2 | k1 in t && k2 in t && t[k1].id == t[k2].id
      ensures k1 == k2
    {
      var i := IdIsIndex(t, order, k1);
      var j := IdIsIndex(t, order, k2);
    }
    forall k1, k2 | k1 in t && k2 in t && t[k1].name == t[k2].name
      ensures k1 == k2
    {
      var i := IdIsIndex(t, order, k1);
      var j := IdIsIndex(t, order, k2);
      assert SwitchName(i)[1] == SwitchName(j)[1];
    }
    forall n | 0 <= n < 6
      ensures n in IdsOf(t)
    {
      assert order[n] in t && t[order[n]].id == n;
    }
  }

  /** The positions of `t` whose switch has role `r`. */
  function PositionsWithRole(t: map<string, P4Switch>, r: SwitchRole): (ks: set<string>)
    ensures ks <= t.Keys
    ensures forall k :: k in ks <==> k in t && t[k].role == r
  {
    set k | k in t && t[k].role == r
  }

  /** The control connection to one switch. */
  class P4SwitchConnection {
    const switch: P4Switch
    const connection: Device

    /** Opens (but does not yet arbitrate) a transport session to `switch`. */
    constructor (switch: P4Switch)
      ensures this.switch == switch
      ensures fresh(connection)
      ensures connection.name == switch.name && connection.address == switch.uri
      ensures connection.deviceId == switch.id
      ensures connection.protoDumpFile == ProtoDumpFile(switch.name)
      ensures connection.requests == []
    {
      this.switch := switch;
      connection := new Device(switch.name, switch.uri, switch.id, ProtoDumpFile(switch.name));
    }

    /** Arbitrates for mastership, then pushes the switch's pipeline config,
        and hands back this very connection. */
    method Enter() returns (self: P4SwitchConnection)
      modifies connection
      ensures self == this
      ensures connection.requests == old(connection.requests) + [Arbitrate, PushPipeline(switch.p4Info, switch.bmv2Json)]
    {
      connection.MasterArbitrationUpdate();
      connection.SetForwardingPipelineConfig(switch.p4Info, switch.bmv2Json);
      self := this;
    }

    /** Shuts the session down whether or not the block raised, and never
        suppresses the exception (`suppress` is false). */
    method Exit(raised: bool) returns (suppress: bool)
      modifies connection
      ensures !suppress
      ensures connection.requests == old(connection.requests) + [Request.Shutdown]
    {
      connection.Shutdown();
      suppress := false;
    }

    /** Sends `entry` as it is: one table write. */
    method WriteTableEntry(entry: TableEntry)
      modifies connection
      ensures connection.requests == old(connection.requests) + [Send(Table(entry))]
    {
      connection.WriteTableEntry(entry);
    }

    /** Installs clone session `c`: one replication write. */
    method SetCloneSession(c: CloneSession)
      modifies connection
      ensures connection.requests == old(connection.requests) + [Send(Clone(CloneSessionEntryOf(c)))]
    {
      var replicas := [Replica(c.clonePort, c.cloneInstanceId)];
      connection.WritePreEntry(CloneSessionEntry(c.cloneSessionId, replicas, 0));
    }
  }

  /** A new connection bound to `sw`. */
  method Connect(sw: P4Switch) returns (c: P4SwitchConnection)
    ensures fresh(c) && fresh(c.connection)
    ensures c.switch == sw && c.connection.requests == []
    ensures c.connection.deviceId == sw.id && c.connection.address == sw.uri
  {
    c := new P4SwitchConnection(sw);
  }
}
