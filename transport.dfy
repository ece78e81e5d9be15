/**
 * The device a controller talks to, seen only through the requests it is sent.
 *
 * The runtime transport (a P4Runtime session to a BMv2 switch) is not part of
 * this model. A `Device` records every request it receives, in order:
 * master arbitration, the pipeline-config push, table and clone-session
 * writes, and shutdown. Every write is acknowledged.
 *
 * `SessionTrace` is the trace of one well-behaved session, and `WritesOf`
 * recovers the writes from any trace.
 */
module Transport {
  import opened ForwardingTables

  /** One replica of a clone session: the port the copy leaves on, and its instance id. */
  datatype Replica = Replica(egressPort: int, instance: int)

  /** A packet-replication (clone session) entry; a packet length of 0 means
      copies are never truncated. */
  datatype CloneSessionEntry = CloneSessionEntry(sessionId: int, replicas: seq<Replica>, packetLength: int)

  /** The two mutating operations on a device's forwarding state. */
  datatype Write = Table(entry: TableEntry) | Clone(session: CloneSessionEntry)

  datatype Request =
    | Arbitrate
    | PushPipeline(p4Info: string, bmv2Json: string)
    | Send(write: Write)
    | Shutdown

  /** The dump file the transport logs a device's requests to. */
  function ProtoDumpFile(name: string): string
  {
    "logs/" + name + "-p4runtime-requests.txt"
  }

  class Device {
    const name: string
    const address: string
    const deviceId: int
    const protoDumpFile: string
    var requests: seq<Request>

    constructor (name: string, address: string, deviceId: int, protoDumpFile: string)
      ensures this.name == name && this.address == address && this.deviceId == deviceId
      ensures this.protoDumpFile == protoDumpFile
      ensures requests == []
    {
      this.name := name;
      this.address := address;
      this.deviceId := deviceId;
      this.protoDumpFile := protoDumpFile;
      requests := [];
    }

    method MasterArbitrationUpdate()
      modifies this
      ensures requests == old(requests) + [Arbitrate]
    {
      requests := requests + [Arbitrate];
    }

    method SetForwardingPipelineConfig(p4Info: string, bmv2Json: string)
      modifies this
      ensures requests == old(requests) + [PushPipeline(p4Info, bmv2Json)]
    {
      requests := requests + [PushPipeline(p4Info, bmv2Json)];
    }

    method WriteTableEntry(entry: TableEntry)
      modifies this
      ensures requests == old(requests) + [Send(Table(entry))]
    {
      requests := requests + [Send(Table(entry))];
    }

    method WritePreEntry(session: CloneSessionEntry)
      modifies this
      ensures requests == old(requests) + [Send(Clone(session))]
    {
      requests := requests + [Send(Clone(session))];
    }

    method Shutdown()
      modifies this
      ensures requests == old(requests) + [Request.Shutdown]
    {
      requests := requests + [Request.Shutdown];
    }
  }

  /** The requests that send the writes `ws`, one each, in order. */
  function Sends(ws: seq<Write>): (r: seq<Request>)
    ensures |r| == |ws|
    ensures forall i :: 0 <= i < |ws| ==> r[i] == Send(ws[i])
  {
    seq(|ws|, i requires 0 <= i < |ws| => Send(ws[i]))
  }

  /** The writes carried by a request trace, in order; lifecycle requests are dropped. */
  function WritesOf(t: seq<Request>): (ws: seq<Write>)
    ensures |ws| <= |t|
  {
    if t == [] then []
    else (if t[0].Send? then [t[0].write] else []) + WritesOf(t[1..])
  }

  lemma {:induction false} WritesOfAppend(a: seq<Request>, b: seq<Request>)
    ensures WritesOf(a + b) == WritesOf(a) + WritesOf(b)
  {
    if a == [] {
      assert a + b == b;
    } else {
      var h := if a[0].Send? then [a[0].write] else [];
      assert (a + b)[0] == a[0];
      assert (a + b)[1..] == a[1..] + b;
      assert WritesOf(a + b) == h + WritesOf(a[1..] + b);
      WritesOfAppend(a[1..], b);
      assert WritesOf(a) == h + WritesOf(a[1..]);
    }
  }

  /** Sending a write log and reading the writes back gives the log itself. */
  lemma {:induction false} WritesOfSends(ws: seq<Write>)
    ensures WritesOf(Sends(ws)) == ws
  {
    if ws != [] {
      assert Sends(ws)[1..] == Sends(ws[1..]);
      WritesOfSends(ws[1..]);
    }
  }

  /** The whole life of one well-behaved session: arbitration, then the
      pipeline push, then the writes, then shutdown. */
  function SessionTrace(p4Info: string, bmv2Json: string, ws: seq<Write>): seq<Request>
  {
    [Arbitrate, PushPipeline(p4Info, bmv2Json)] + Sends(ws) + [Request.Shutdown]
  }

  /** A session trace arbitrates exactly once and first, pushes the pipeline
      second, shuts down exactly once and last, sends only writes in between,
      and carries exactly the writes `ws`. */
  lemma SessionLifecycle(p4Info: string, bmv2Json: string, ws: seq<Write>)
    ensures var t := SessionTrace(p4Info, bmv2Json, ws);
      && |t| == |ws| + 3
      && t[0] == Arbitrate && t[1] == PushPipeline(p4Info, bmv2Json)
      && t[|t| - 1] == Request.Shutdown
      && (forall i :: 2 <= i < |t| - 1 ==> t[i].Send?)
      && (forall i :: 0 < i < |t| ==> t[i] != Arbitrate)
      && (forall i :: 0 <= i < |t| - 1 ==> t[i] != Request.Shutdown)
      && WritesOf(t) == ws
  {
    var t := SessionTrace(p4Info, bmv2Json, ws);
    var head: seq<Request> := [Arbitrate, PushPipeline(p4Info, bmv2Json)];
    WritesOfAppend(head + Sends(ws), [Request.Shutdown]);
    WritesOfAppend(head, Sends(ws));
    WritesOfSends(ws);
    assert WritesOf([Request.Shutdown]) == [];
    assert WritesOf(head) == [] by {
      assert head[1..] == [PushPipeline(p4Info, bmv2Json)];
    }
  }
}
