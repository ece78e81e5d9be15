/**
 * Write plans: the ordered writes a configurator issues to one switch, each
 * named by the factory arguments it is built from (or the clone session it
 * installs), and the properties a plan must have for the protected path to
 * work.
 *
 * `Materialize` turns a plan into the entries that go on the wire, and
 * `ReadBack` shows the recognisers recover the plan from those entries, so a
 * property of the plan is a property of what the switch receives.
 */
module Plans {
  import opened Optional
  import opened ForwardingTables
  import opened Transport
  import opened Switches

  datatype Step = TableStep(kind: EntryKind) | CloneStep(session: CloneSession)

  function WriteOf(s: Step): Write
  {
    match s
    case TableStep(k) => Table(Build(k))
    case CloneStep(c) => Clone(CloneSessionEntryOf(c))
  }

  /** The writes that carry out `plan`, one per step, in order. */
  function Materialize(plan: seq<Step>): (ws: seq<Write>)
    ensures |ws| == |plan|
    ensures forall i :: 0 <= i < |plan| ==> ws[i] == WriteOf(plan[i])
  {
    seq(|plan|, i requires 0 <= i < |plan| => WriteOf(plan[i]))
  }

  /** The step a write carries out, if it is one a configurator can issue. */
  function StepOf(w: Write): Option<Step>
  {
    match w
    case Table(e) => if Parse(e).Some? then Some(TableStep(Parse(e).value)) else None
    case Clone(c) => if CloneSessionOf(c).Some? then Some(CloneStep(CloneSessionOf(c).value)) else None
  }

  /** Reading the wire writes back recovers the plan, step by step; so
      different plans never put the same writes on the wire. */
  lemma ReadBack(plan: seq<Step>)
    ensures forall i :: 0 <= i < |plan| ==> StepOf(Materialize(plan)[i]) == Some(plan[i])
  {
    forall i | 0 <= i < |plan|
      ensures StepOf(Materialize(plan)[i]) == Some(plan[i])
    {
      match plan[i]
      case TableStep(k) => ParseBuild(k);
      case CloneStep(c) => CloneSessionRoundTrip(c, CloneSessionEntryOf(c));
    }
  }

  lemma MaterializeInjective(p1: seq<Step>, p2: seq<Step>)
    requires Materialize(p1) == Materialize(p2)
    ensures p1 == p2
  {
    ReadBack(p1);
    ReadBack(p2);
    assert |p1| == |p2|;
    forall i | 0 <= i < |p1|
      ensures p1[i] == p2[i]
    {
      assert Some(p1[i]) == StepOf(Materialize(p1)[i]) == StepOf(Materialize(p2)[i]) == Some(p2[i]);
    }
  }

  predicate IsProtect(s: Step)
  {
    s.TableStep? && s.kind.Protect?
  }

  /** Every protection entry that names a non-zero clone session comes after
      the step that installs a clone session with that id. */
  predicate SessionRefsResolved(plan: seq<Step>)
  {
    forall j :: 0 <= j < |plan| && IsProtect(plan[j]) && plan[j].kind.cloneSessionId != 0 ==>
      exists i :: 0 <= i < j && plan[i].CloneStep? && plan[i].session.cloneSessionId == plan[j].kind.cloneSessionId
  }

  /** No protection entry sets both the ingress and the egress flag. */
  predicate NeverBothFlags(plan: seq<Step>)
  {
    forall j :: 0 <= j < |plan| && IsProtect(plan[j]) ==>
      !(plan[j].kind.isPhIngress && plan[j].kind.isPhEgress)
  }

  /** Some protection entry is flagged as protection ingress (or egress). */
  predicate HasFlaggedProtect(plan: seq<Step>, ingress: bool)
  {
    exists j :: 0 <= j < |plan| && IsProtect(plan[j])
                && (if ingress then plan[j].kind.isPhIngress else plan[j].kind.isPhEgress)
  }

  predicate NoClone(plan: seq<Step>)
  {
    forall j :: 0 <= j < |plan| ==> plan[j].TableStep?
  }

  /** A transit switch's plan: MAC accept, route, rewrite, in that order, with
      the route and the rewrite on the same port. */
  predicate TransitShaped(plan: seq<Step>)
  {
    && |plan| == 3 && NoClone(plan)
    && plan[0].kind.MacAccept? && plan[1].kind.Routing? && plan[2].kind.Rewrite?
    && plan[1].kind.egressPort == plan[2].kind.egressPort
  }

  /** Some MAC-accept entry of the plan accepts frames addressed to `mac`. */
  predicate Accepts(plan: seq<Step>, mac: string)
  {
    exists j :: 0 <= j < |plan| && plan[j].TableStep? && plan[j].kind.MacAccept?
                && plan[j].kind.macAddr == mac
  }

  predicate IsRewrite(s: Step)
  {
    s.TableStep? && s.kind.Rewrite?
  }

  /** Some MAC-accept entry of the plan accepts frames addressed to `mac`
      that arrive on `port`: the table matches on both fields. */
  predicate AcceptsOn(plan: seq<Step>, mac: string, port: int)
  {
    exists j :: 0 <= j < |plan| && plan[j].TableStep? && plan[j].kind.MacAccept?
                && plan[j].kind.macAddr == mac && plan[j].kind.ingressPort == port
  }

  /** Every rewrite `up` applies on `port` addresses frames to a MAC the switch
      configured by `down` accepts on `inPort`, the port the link arrives on. */
  predicate HandsOffTo(up: seq<Step>, port: int, down: seq<Step>, inPort: int)
  {
    forall j :: 0 <= j < |up| && IsRewrite(up[j]) && up[j].kind.egressPort == port ==>
      AcceptsOn(down, up[j].kind.nextHopMac, inPort)
  }

  /** No rewrite addresses frames to a MAC the same switch accepts. */
  predicate NotSelfAddressed(plan: seq<Step>)
  {
    forall j :: 0 <= j < |plan| && IsRewrite(plan[j]) ==> !Accepts(plan, plan[j].kind.nextHopMac)
  }
}
