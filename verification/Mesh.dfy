/**
 * A mesh of nodes over a network that loses, delays, reorders and duplicates datagrams, its runs,
 * and the safety invariant of every run.
 */
module Mesh {
  import opened Basics
  import opened Types
  import opened Node
  import opened Truth
  import Fingerprint

  /** The nodes by address, and the datagrams that can still be handled. */
  datatype Mesh = Mesh(nodes: map<Addr, Node>, net: set<Datagram>)

  datatype Label =
    | Act(node: Addr, begin: Time, end: Time, step: Step, sent: set<Datagram>)
    | Drop(lost: Datagram)
    | SendProbe(source: Addr, prober: Addr)

  /** What a step handles has been sent, and not been dropped. */
  ghost predicate Arrived(m: Mesh, a: Addr, s: Step) {
    && (s.Receive? ==> Unicast(s.sender, a, s.envelope) in m.net)
    && (s.ReceiveBroadcast? ==> Multicast(s.source, s.broadcast) in m.net)
  }

  ghost predicate Next(m: Mesh, l: Label, m': Mesh) {
    match l
    case Act(a, begin, end, step, sent) =>
      && a in m.nodes
      && Enabled(m.nodes[a], begin, end, step)
      && Arrived(m, a, step)
      && sent <= Elements(Attempts(m.nodes[a], step))
      && (step.PingOne? ==> (step.delivered <==> sent != {}))
      && m' == Mesh(m.nodes[a := After(m.nodes[a], end, step)], m.net + sent)
    case Drop(lost) => m' == m.(net := m.net - {lost})
    case SendProbe(source, prober) =>
      source !in m.nodes && m' == m.(net := m.net + {Multicast(source, Probe(prober))})
  }

  ghost predicate Fresh(n: Node, a: Addr) {
    && n.self == a && n.known.Keys == {a}
    && n.known[a].identity == n.identity
    && n.known[a].state.Known? && n.known[a].state.since <= n.clock
    && n.curious == map[] && n.lastBroadcast == None
  }

  /** Every node has just started; broadcasts leave from addresses that are no node's own. */
  ghost predicate Init(m: Mesh) {
    && m.net == {}
    && (forall a :: a in m.nodes ==> Fresh(m.nodes[a], a) && m.nodes[a].broadcastSource !in m.nodes)
    && SameText(m.nodes)
  }

  ghost predicate Linked(ms: seq<Mesh>, ls: seq<Label>, i: nat) {
    i < |ls| && i + 1 < |ms| && Next(ms[i], ls[i], ms[i + 1])
  }

  ghost predicate IsRun(ms: seq<Mesh>, ls: seq<Label>) {
    |ms| == |ls| + 1 && forall i: nat :: i < |ls| ==> Linked(ms, ls, i)
  }

  /** A run from the start of all nodes. */
  ghost predicate IsFullRun(ms: seq<Mesh>, ls: seq<Label>) {
    IsRun(ms, ls) && Init(ms[0])
  }

  // The invariant.

  ghost function Owners(m: Mesh): View {
    map a | a in m.nodes :: m.nodes[a].identity
  }

  ghost predicate NodeOk(truth: View, n: Node, a: Addr) {
    n.self == a && Owns(truth, n) && Sound(n) && Knows(truth, n.known)
  }

  ghost predicate NodesOk(truth: View, nodes: map<Addr, Node>) {
    forall a :: a in nodes ==> NodeOk(truth, nodes[a], a)
  }

  ghost predicate NetOk(truth: View, net: set<Datagram>) {
    forall d :: d in net ==> TruthfulDatagram(truth, d)
  }

  ghost predicate SameText(nodes: map<Addr, Node>) {
    forall a, b :: a in nodes && b in nodes ==> nodes[a].text == nodes[b].text
  }

  ghost predicate Safe(m: Mesh) {
    NodesOk(Owners(m), m.nodes) && NetOk(Owners(m), m.net) && SameText(m.nodes)
  }

  lemma InitIsSafe(m: Mesh)
    requires Init(m)
    ensures Safe(m)
  {
  }

  /** Who the nodes are does not change along a run. */
  ghost predicate SameNodes(m: Mesh, m': Mesh) {
    && m.nodes.Keys == m'.nodes.Keys && Owners(m) == Owners(m')
    && (forall a :: a in m.nodes ==>
          && m'.nodes[a].self == m.nodes[a].self
          && m'.nodes[a].text == m.nodes[a].text
          && m'.nodes[a].broadcastSource == m.nodes[a].broadcastSource
          && m.nodes[a].clock <= m'.nodes[a].clock)
  }

  lemma NextKeepsNodes(m: Mesh, l: Label, m': Mesh)
    requires Next(m, l, m')
    ensures SameNodes(m, m')
  {
    if l.Act? {
      StepKeepsConstants(m.nodes[l.node], l.begin, l.end, l.step);
    }
  }

  lemma ActHearsTruth(m: Mesh, l: Label)
    requires Safe(m) && l.Act? && Arrived(m, l.node, l.step)
    ensures HearsTruth(Owners(m), l.step)
  {
    var s := l.step;
    if s.Receive? {
      assert TruthfulDatagram(Owners(m), Unicast(s.sender, l.node, s.envelope));
    } else if s.ReceiveBroadcast? {
      assert TruthfulDatagram(Owners(m), Multicast(s.source, s.broadcast));
    }
  }

  lemma ActKeepsNodeOk(truth: View, n: Node, a: Addr, begin: Time, end: Time, s: Step)
    requires NodeOk(truth, n, a) && Enabled(n, begin, end, s) && HearsTruth(truth, s)
    ensures NodeOk(truth, After(n, end, s), a)
    ensures forall d :: d in Attempts(n, s) ==> TruthfulDatagram(truth, d)
  {
    StepKeepsTruth(truth, n, begin, end, s);
    AttemptsAreTruthful(truth, n, begin, end, s);
    StepKeepsSound(n, begin, end, s);
    StepKeepsConstants(n, begin, end, s);
  }

  lemma ActKeepsNodesOk(m: Mesh, l: Label, m': Mesh)
    requires Safe(m) && Next(m, l, m') && l.Act?
    ensures NodesOk(Owners(m), m'.nodes) && NetOk(Owners(m), m'.net)
  {
    ActHearsTruth(m, l);
    assert NodeOk(Owners(m), m.nodes[l.node], l.node);
    ActKeepsNodeOk(Owners(m), m.nodes[l.node], l.node, l.begin, l.end, l.step);
  }

  lemma NextKeepsSafe(m: Mesh, l: Label, m': Mesh)
    requires Safe(m) && Next(m, l, m')
    ensures Safe(m')
  {
    NextKeepsNodes(m, l, m');
    assert SameText(m'.nodes);
    if l.Act? {
      ActKeepsNodesOk(m, l, m');
    }
  }

  /** Every state of every run is safe: identities agree mesh-wide, and every node knows itself. */
  lemma {:induction false} RunIsSafe(ms: seq<Mesh>, ls: seq<Label>, k: nat)
    requires IsFullRun(ms, ls) && k < |ms|
    ensures Safe(ms[k])
  {
    if k == 0 {
      InitIsSafe(ms[0]);
    } else {
      RunIsSafe(ms, ls, k - 1);
      assert Linked(ms, ls, k - 1);
      NextKeepsSafe(ms[k - 1], ls[k - 1], ms[k]);
    }
  }

  lemma {:induction false} RunKeepsNodes(ms: seq<Mesh>, ls: seq<Label>, i: nat, k: nat)
    requires IsRun(ms, ls) && i <= k < |ms|
    ensures SameNodes(ms[i], ms[k])
  {
    if i < k {
      RunKeepsNodes(ms, ls, i, k - 1);
      assert Linked(ms, ls, k - 1);
      NextKeepsNodes(ms[k - 1], ls[k - 1], ms[k]);
    }
  }

  // What the invariant gives.

  /** Nodes that know the same addresses hold the same view and compute the same fingerprint. */
  lemma SameKeysSameFingerprint(m: Mesh, a: Addr, b: Addr)
    requires Safe(m) && a in m.nodes && b in m.nodes
    requires m.nodes[a].known.Keys == m.nodes[b].known.Keys
    ensures ViewOf(m.nodes[a].known) == ViewOf(m.nodes[b].known)
    ensures FingerprintOf(m.nodes[a]) == FingerprintOf(m.nodes[b])
  {
    assert NodeOk(Owners(m), m.nodes[a], a) && NodeOk(Owners(m), m.nodes[b], b);
    SameKeysSameView(Owners(m), m.nodes[a].known, m.nodes[b].known);
  }

  /** Handling an Ack that reports our own fingerprint, once the sender is heard, asks for nothing. */
  lemma KnownFingerprintAsksNothing(n: Node, s: Step, d: Datagram)
    requires s.Receive? && s.envelope.msg.Ack? && d in Attempts(n, s)
    requires FingerprintOf(Heard(n, s.sender, s.envelope.identity, s.stamp, s.measured))
          == s.envelope.msg.fingerprint
    ensures !(d.Unicast? && d.envelope.msg.KnownPeersRequest?)
  {
    hide FingerprintOf, Forwards;
    var heard := Heard(n, s.sender, s.envelope.identity, s.stamp, s.measured);
    ForwardsForm(heard, ObserversOf(heard, s.envelope.msg.peer), s.envelope.msg);
  }

  /** With the owners of the addresses known, equal addresses mean equal fingerprints, at any two times. */
  lemma HeardSameFingerprint(truth: View, n: Node, other: Node, s: Step)
    requires s.Receive? && TruthfulEnvelope(truth, s.sender, s.envelope)
    requires Knows(truth, n.known) && Knows(truth, other.known) && n.text == other.text
    requires other.known.Keys == n.known.Keys + {s.sender}
    ensures FingerprintOf(Heard(n, s.sender, s.envelope.identity, s.stamp, s.measured)) == FingerprintOf(other)
  {
    hide Fingerprint.Of;
    var heard := Heard(n, s.sender, s.envelope.identity, s.stamp, s.measured);
    SameKeysSameView(truth, heard.known, other.known);
  }

  lemma KnowsTruth(ms: seq<Mesh>, ls: seq<Label>, k: nat, a: Addr)
    requires IsFullRun(ms, ls) && k < |ms| && a in ms[k].nodes
    ensures Knows(Owners(ms[k]), ms[k].nodes[a].known)
  {
    RunIsSafe(ms, ls, k);
    assert NodeOk(Owners(ms[k]), ms[k].nodes[a], a);
  }

  lemma HandlesTruth(ms: seq<Mesh>, ls: seq<Label>, k: nat)
    requires IsFullRun(ms, ls) && k < |ls| && ls[k].Act? && ls[k].step.Receive?
    ensures TruthfulEnvelope(Owners(ms[k]), ls[k].step.sender, ls[k].step.envelope)
    ensures ls[k].node in ms[k].nodes
    ensures forall d :: d in ls[k].sent ==> d in Attempts(ms[k].nodes[ls[k].node], ls[k].step)
  {
    RunIsSafe(ms, ls, k);
    assert Linked(ms, ls, k);
    ActHearsTruth(ms[k], ls[k]);
  }

  lemma SameTextThroughout(ms: seq<Mesh>, ls: seq<Label>, j: nat, k: nat, b: Addr, a: Addr)
    requires IsFullRun(ms, ls) && j <= k < |ms| && b in ms[j].nodes && a in ms[k].nodes
    ensures ms[j].nodes[b].text == ms[k].nodes[a].text && Owners(ms[j]) == Owners(ms[k])
  {
    RunIsSafe(ms, ls, k);
    RunKeepsNodes(ms, ls, j, k);
  }

  /**
   * In every run: handling an Ack with a fingerprint that some node had, then or before, asks for
   * no peers if, with the sender heard, the receiver knows the same addresses as that node did.
   */
  lemma ConvergedAckAsksNothing(ms: seq<Mesh>, ls: seq<Label>, j: nat, k: nat, b: Addr, d: Datagram)
    requires IsFullRun(ms, ls) && j <= k < |ls|
    requires ls[k].Act? && ls[k].node in ms[k].nodes && b in ms[j].nodes
    requires ls[k].step.Receive? && ls[k].step.envelope.msg.Ack?
    requires ls[k].step.envelope.msg.fingerprint == FingerprintOf(ms[j].nodes[b])
    requires ms[j].nodes[b].known.Keys == ms[k].nodes[ls[k].node].known.Keys + {ls[k].step.sender}
    requires d in ls[k].sent
    ensures !(d.Unicast? && d.envelope.msg.KnownPeersRequest?)
  {
    hide Linked, FingerprintOf, Attempts, Init;
    var n, other := ms[k].nodes[ls[k].node], ms[j].nodes[b];
    KnowsTruth(ms, ls, k, ls[k].node);
    KnowsTruth(ms, ls, j, b);
    HandlesTruth(ms, ls, k);
    SameTextThroughout(ms, ls, j, k, b, ls[k].node);
    HeardSameFingerprint(Owners(ms[k]), n, other, ls[k].step);
    KnownFingerprintAsksNothing(n, ls[k].step, d);
  }

  /**
   * No `Failed` broadcast is ever accepted: it is accepted only from a known address, and what a
   * node knows are unicast addresses of nodes, while broadcasts come from other addresses.
   */
  lemma FailedNeverAccepted(ms: seq<Mesh>, ls: seq<Label>, k: nat)
    requires IsFullRun(ms, ls) && k < |ls|
    requires ls[k].Act? && ls[k].step.ReceiveBroadcast? && ls[k].step.broadcast.Failed?
    ensures ls[k].node in ms[k].nodes && ls[k].node in ms[k + 1].nodes
    ensures ms[k + 1].nodes[ls[k].node].known == ms[k].nodes[ls[k].node].known
  {
    RunIsSafe(ms, ls, k);
    assert Linked(ms, ls, k);
    ActHearsTruth(ms[k], ls[k]);
    var l, m := ls[k], ms[k];
    assert NodeOk(Owners(m), m.nodes[l.node], l.node);
    FailedIgnored(Owners(m), m.nodes[l.node], l.end, l.step);
  }
}
