/**
 * Relayed pings: every forwarded Ack uses up one note of who was curious, and only a handled
 * `PingRequest` makes such a note, so forwarding is paid for in advance and cannot go on by itself.
 */
module Relay {
  import opened Basics
  import opened Types
  import opened Node
  import opened Mesh

  /** Every (node, peer, observer) such that the node will tell the observer about the peer. */
  ghost function Outstanding(m: Mesh): set<(Addr, Addr, Addr)> {
    set a, p, o | a in m.nodes && p in m.nodes[a].curious && o in m.nodes[a].curious[p] :: (a, p, o)
  }

  ghost function AcksIn(sent: set<Datagram>): set<Datagram> {
    set d | d in sent && d.Unicast? && d.envelope.msg.Ack?
  }

  /** How many Acks a step forwarded. */
  ghost function Forwarded(l: Label): nat {
    if l.Act? && l.step.Receive? && l.step.envelope.msg.Ack?
    then |AcksIn(l.sent)|
    else 0
  }

  /** How many requests to ping on someone's behalf a step handled. */
  ghost function Requested(l: Label): nat {
    if l.Act? && AsksToPing(l.step) then 1 else 0
  }

  /** The Acks forwarded by the steps from `i` up to `k`. */
  ghost function TotalForwarded(ls: seq<Label>, i: nat, k: nat): nat
    requires i <= k <= |ls|
  {
    if i == k then 0 else TotalForwarded(ls, i, k - 1) + Forwarded(ls[k - 1])
  }

  ghost function TotalRequested(ls: seq<Label>, i: nat, k: nat): nat
    requires i <= k <= |ls|
  {
    if i == k then 0 else TotalRequested(ls, i, k - 1) + Requested(ls[k - 1])
  }

  lemma {:induction false} ForwardsCount(n: Node, observers: seq<Addr>, ack: SwimMessage)
    ensures |Elements(Forwards(n, observers, ack))| <= |observers|
  {
    if observers != [] {
      var last := |observers| - 1;
      ForwardsCount(n, observers[..last], ack);
      ElementsAppend(Forwards(n, observers[..last], ack), To(n, observers[last], ack));
    }
  }

  ghost function Notes(a: Addr, p: Addr, observers: seq<Addr>): set<(Addr, Addr, Addr)> {
    set o | o in observers :: (a, p, o)
  }

  lemma {:induction false} NotesCount(a: Addr, p: Addr, observers: seq<Addr>)
    requires NoDuplicates(observers)
    ensures |Notes(a, p, observers)| == |observers|
  {
    if observers != [] {
      var last := |observers| - 1;
      NotesCount(a, p, observers[..last]);
      assert observers == observers[..last] + [observers[last]];
      assert Notes(a, p, observers) == Notes(a, p, observers[..last]) + {(a, p, observers[last])};
    }
  }

  /** Of what a handled Ack makes a node try to send, only the forwards are Acks. */
  lemma AcksAreForwards(n: Node, s: Step, sent: set<Datagram>)
    requires s.Receive? && s.envelope.msg.Ack? && sent <= Elements(Attempts(n, s))
    ensures |AcksIn(sent)| <= |ObserversOf(n, s.envelope.msg.peer)|
  {
    var heard := Heard(n, s.sender, s.envelope.identity, s.stamp, s.measured);
    var observers := ObserversOf(heard, s.envelope.msg.peer);
    ForwardsCount(heard, observers, s.envelope.msg);
    SubsetCount(AcksIn(sent), Elements(Forwards(heard, observers, s.envelope.msg)));
  }

  ghost predicate AsksToPing(s: Step) {
    s.Receive? && s.envelope.msg.PingRequest?
  }

  /** The one message that adds a note, the one that uses notes up, and the sweep that drops some. */
  ghost predicate CuriousBecomes(n: Node, s: Step, curious: map<Addr, seq<Addr>>) {
    if s.Receive? && s.envelope.msg.Ack? then curious == n.curious - {s.envelope.msg.peer}
    else if AsksToPing(s) then curious == WithObserver(n, s.envelope.msg.target, s.sender)
    else forall p :: p in curious ==> p in n.curious && curious[p] == n.curious[p]
  }

  lemma CuriousAfter(n: Node, end: Time, s: Step)
    ensures CuriousBecomes(n, s, After(n, end, s).curious)
  {
  }

  /** What one node's step does to the notes of the whole mesh. */
  ghost predicate NotesOf(m: Mesh, a: Addr, curious: map<Addr, seq<Addr>>, m': Mesh) {
    && a in m.nodes && m'.nodes.Keys == m.nodes.Keys && m'.nodes[a].curious == curious
    && (forall b :: b in m.nodes && b != a ==> m'.nodes[b].curious == m.nodes[b].curious)
  }

  lemma AckClears(m: Mesh, a: Addr, peer: Addr, m': Mesh)
    requires a in m.nodes && NotesOf(m, a, m.nodes[a].curious - {peer}, m')
    requires NoDuplicates(ObserversOf(m.nodes[a], peer))
    ensures |Outstanding(m')| + |ObserversOf(m.nodes[a], peer)| == |Outstanding(m)|
  {
    var notes := Notes(a, peer, ObserversOf(m.nodes[a], peer));
    NotesCount(a, peer, ObserversOf(m.nodes[a], peer));
    assert notes <= Outstanding(m);
    assert Outstanding(m') == Outstanding(m) - notes;
  }

  lemma RequestNotes(m: Mesh, a: Addr, target: Addr, observer: Addr, m': Mesh)
    requires a in m.nodes && NotesOf(m, a, WithObserver(m.nodes[a], target, observer), m')
    ensures |Outstanding(m')| <= |Outstanding(m)| + 1
  {
    SubsetCount(Outstanding(m'), Outstanding(m) + {(a, target, observer)});
  }

  lemma OthersDoNotNote(m: Mesh, a: Addr, curious: map<Addr, seq<Addr>>, m': Mesh)
    requires a in m.nodes && NotesOf(m, a, curious, m')
    requires forall p :: p in curious ==> p in m.nodes[a].curious && curious[p] == m.nodes[a].curious[p]
    ensures |Outstanding(m')| <= |Outstanding(m)|
  {
    SubsetCount(Outstanding(m'), Outstanding(m));
  }

  lemma RelayAct(m: Mesh, a: Addr, s: Step, curious: map<Addr, seq<Addr>>, m': Mesh)
    requires a in m.nodes && NotesOf(m, a, curious, m')
    requires forall p :: p in m.nodes[a].curious ==> NoDuplicates(m.nodes[a].curious[p])
    requires CuriousBecomes(m.nodes[a], s, curious)
    ensures |Outstanding(m')| <= |Outstanding(m)| + (if AsksToPing(s) then 1 else 0)
    ensures s.Receive? && s.envelope.msg.Ack? ==>
              |Outstanding(m')| + |ObserversOf(m.nodes[a], s.envelope.msg.peer)| <= |Outstanding(m)|
  {
    if s.Receive? && s.envelope.msg.Ack? {
      AckClears(m, a, s.envelope.msg.peer, m');
    } else if AsksToPing(s) {
      RequestNotes(m, a, s.envelope.msg.target, s.sender, m');
    } else {
      OthersDoNotNote(m, a, curious, m');
    }
  }

  lemma ActOnNotes(m: Mesh, l: Label, m': Mesh)
    requires Next(m, l, m') && l.Act?
    ensures l.node in m.nodes && l.node in m'.nodes
    ensures NotesOf(m, l.node, m'.nodes[l.node].curious, m')
    ensures CuriousBecomes(m.nodes[l.node], l.step, m'.nodes[l.node].curious)
  {
    CuriousAfter(m.nodes[l.node], l.end, l.step);
  }

  lemma ForwardedAtMost(m: Mesh, l: Label, m': Mesh)
    requires Next(m, l, m') && l.Act?
    ensures l.node in m.nodes
    ensures l.step.Receive? && l.step.envelope.msg.Ack? ==>
              Forwarded(l) <= |ObserversOf(m.nodes[l.node], l.step.envelope.msg.peer)|
  {
    if l.step.Receive? && l.step.envelope.msg.Ack? {
      AcksAreForwards(m.nodes[l.node], l.step, l.sent);
    }
  }

  lemma SafeNotes(m: Mesh, a: Addr)
    requires Safe(m) && a in m.nodes
    ensures forall p :: p in m.nodes[a].curious ==> NoDuplicates(m.nodes[a].curious[p])
  {
    assert NodeOk(Owners(m), m.nodes[a], a);
  }

  lemma NetworkStepKeepsNodes(m: Mesh, l: Label, m': Mesh)
    requires Next(m, l, m') && !l.Act?
    ensures m'.nodes == m.nodes
  {
  }

  lemma RelayStep(m: Mesh, l: Label, m': Mesh)
    requires Safe(m) && Next(m, l, m')
    ensures |Outstanding(m')| + Forwarded(l) <= |Outstanding(m)| + Requested(l)
  {
    if l.Act? {
      ActOnNotes(m, l, m');
      ForwardedAtMost(m, l, m');
      SafeNotes(m, l.node);
      RelayAct(m, l.node, l.step, m'.nodes[l.node].curious, m');
    } else {
      NetworkStepKeepsNodes(m, l, m');
      assert Outstanding(m') == Outstanding(m);
    }
  }

  /**
   * Over any stretch of a run, what was forwarded plus what is outstanding at its end is at most
   * what was outstanding at its beginning plus the requests handled on the way.
   */
  lemma {:induction false} RelayConservation(ms: seq<Mesh>, ls: seq<Label>, i: nat, k: nat)
    requires IsFullRun(ms, ls) && i <= k <= |ls|
    ensures |Outstanding(ms[k])| + TotalForwarded(ls, i, k)
         <= |Outstanding(ms[i])| + TotalRequested(ls, i, k)
    decreases k
  {
    if i < k {
      RelayConservation(ms, ls, i, k - 1);
      RelayAt(ms, ls, k - 1);
    }
  }

  lemma RelayAt(ms: seq<Mesh>, ls: seq<Label>, k: nat)
    requires IsFullRun(ms, ls) && k < |ls|
    ensures |Outstanding(ms[k + 1])| + Forwarded(ls[k]) <= |Outstanding(ms[k])| + Requested(ls[k])
  {
    RunIsSafe(ms, ls, k);
    assert Linked(ms, ls, k);
    RelayStep(ms[k], ls[k], ms[k + 1]);
  }

  /** From the start on, no more Acks are forwarded than requests were handled. */
  lemma ForwardsArePaidFor(ms: seq<Mesh>, ls: seq<Label>, k: nat)
    requires IsFullRun(ms, ls) && k <= |ls|
    ensures |Outstanding(ms[k])| + TotalForwarded(ls, 0, k) <= TotalRequested(ls, 0, k)
  {
    assert forall a :: a in ms[0].nodes ==> Fresh(ms[0].nodes[a], a);
    assert Outstanding(ms[0]) == {};
    RelayConservation(ms, ls, 0, k);
  }

  /** Without further requests, a cascade of forwarded Acks has a bounded length, however long it runs. */
  lemma CascadesEnd(ms: seq<Mesh>, ls: seq<Label>, i: nat, k: nat)
    requires IsFullRun(ms, ls) && i <= k <= |ls|
    requires forall j :: i <= j < k ==> Requested(ls[j]) == 0
    ensures TotalForwarded(ls, i, k) <= |Outstanding(ms[i])|
  {
    RelayConservation(ms, ls, i, k);
    NothingRequested(ls, i, k);
  }

  lemma {:induction false} NothingRequested(ls: seq<Label>, i: nat, k: nat)
    requires i <= k <= |ls| && forall j :: i <= j < k ==> Requested(ls[j]) == 0
    ensures TotalRequested(ls, i, k) == 0
    decreases k
  {
    if i < k {
      NothingRequested(ls, i, k - 1);
    }
  }
}
