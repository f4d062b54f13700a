/**
 * Laws of runs about the datagrams themselves: pings and their answers, and Acks for those who
 * asked. With them, accuracy follows from what happens to pings and Acks on the network.
 */
module Deliveries {
  import opened Basics
  import opened Types
  import opened Node
  import opened Mesh
  import opened History
  import opened Accuracy
  import opened Sends
  import Fingerprint

  /** The step handles this very datagram. */
  ghost predicate Handles(l: Label, d: Datagram) {
    l.Act? && l.step.Receive? && d == Unicast(l.step.sender, l.node, l.step.envelope)
  }

  /** Nothing that the step tries to send is held back: it runs to its end, and the sockets take it all. */
  ghost predicate InFull(ms: seq<Mesh>, ls: seq<Label>, k: nat)
    requires k < |ls| && k < |ms|
  {
    ls[k].Act? && ls[k].node in ms[k].nodes
    && forall d :: d in Attempts(ms[k].nodes[ls[k].node], ls[k].step) ==> d in ls[k].sent
  }

  /** What an act does to the network. */
  lemma ActSends(ms: seq<Mesh>, ls: seq<Label>, k: nat)
    requires IsRun(ms, ls) && k < |ls| && ls[k].Act?
    ensures ls[k].node in ms[k].nodes && ms[k + 1].net == ms[k].net + ls[k].sent
    ensures forall d :: d in ls[k].sent ==> d in Attempts(ms[k].nodes[ls[k].node], ls[k].step)
    ensures ls[k].step.PingOne? ==> (ls[k].step.delivered <==> ls[k].sent != {})
  {
    assert Linked(ms, ls, k);
  }

  lemma ActsAsItself(ms: seq<Mesh>, ls: seq<Label>, k: nat, a: Addr)
    requires IsFullRun(ms, ls) && k < |ms| && a in ms[k].nodes
    ensures ms[k].nodes[a].self == a
  {
    RunIsSafe(ms, ls, k);
    assert NodeOk(Owners(ms[k]), ms[k].nodes[a], a);
  }

  // Pings.

  /** A ping of `p` that can be sent is on the network afterwards, from `a` to `p`; and nothing else is new. */
  lemma PingIsOnTheNetwork(ms: seq<Mesh>, ls: seq<Label>, k: nat, a: Addr, p: Addr)
    requires IsFullRun(ms, ls) && k < |ls| && Pings(ls[k], a, p)
    ensures a in ms[k].nodes
    ensures var ping := Unicast(a, p, SwimEnvelope(ms[k].nodes[a].identity, Ping));
            && ls[k].sent == (if ls[k].step.delivered then {ping} else {})
            && ms[k + 1].net == ms[k].net + (if ls[k].step.delivered then {ping} else {})
  {
    hide Attempts, Linked, Init;
    ActSends(ms, ls, k);
    ActsAsItself(ms, ls, k, a);
    PingGoesToTarget(ms[k].nodes[a], ls[k].end, p, ls[k].step.stamp, ls[k].step.delivered);
    var ping := Unicast(a, p, SwimEnvelope(ms[k].nodes[a].identity, Ping));
    assert forall d :: d in ls[k].sent ==> d == ping;
    if ls[k].step.delivered {
      var d :| d in ls[k].sent;
      assert ls[k].sent == {ping};
    }
  }

  /** A Ping handled in full puts its Ack on the network, back to the sender, and nothing else. */
  lemma AnswerIsOnTheNetwork(ms: seq<Mesh>, ls: seq<Label>, k: nat, a: Addr, p: Addr, identity: Bytes)
    requires IsFullRun(ms, ls) && k < |ls|
    requires Handles(ls[k], Unicast(a, p, SwimEnvelope(identity, Ping))) && InFull(ms, ls, k)
    ensures p in ms[k + 1].nodes
    ensures var n' := ms[k + 1].nodes[p];
            && a in n'.known
            && ls[k].sent == {Unicast(p, a, SwimEnvelope(n'.identity, Ack(p, FingerprintOf(n'), CountOf(n'.known))))}
  {
    hide Attempts, Init, Linked, Fingerprint.Of, CountOf, After, Enabled;
    ActSends(ms, ls, k);
    ActsAsItself(ms, ls, k, p);
    ActGoesOn(ms, ls, k);
    PingIsAnswered(ms[k].nodes[p], ls[k].end, ls[k].step);
    var n' := ms[k + 1].nodes[p];
    var ack := Unicast(p, a, SwimEnvelope(n'.identity, Ack(p, FingerprintOf(n'), CountOf(n'.known))));
    assert Attempts(ms[k].nodes[p], ls[k].step) == [ack];
    assert ack in Attempts(ms[k].nodes[p], ls[k].step);
    assert forall d :: d in ls[k].sent ==> d == ack;
  }

  lemma ActGoesOn(ms: seq<Mesh>, ls: seq<Label>, k: nat)
    requires IsRun(ms, ls) && k < |ls| && ls[k].Act?
    ensures ls[k].node in ms[k].nodes && ls[k].node in ms[k + 1].nodes
    ensures var n, n' := ms[k].nodes[ls[k].node], ms[k + 1].nodes[ls[k].node];
            && n' == After(n, ls[k].end, ls[k].step) && Enabled(n, ls[k].begin, ls[k].end, ls[k].step)
            && n'.self == n.self && n'.identity == n.identity && n'.text == n.text
  {
    assert Linked(ms, ls, k);
    StepKeepsConstants(ms[k].nodes[ls[k].node], ls[k].begin, ls[k].end, ls[k].step);
  }

  // Accuracy from datagrams.

  /**
   * Between steps `i` and `k` something that step `i` sent was handled in full, and everything
   * sent in answer was handled too.
   */
  ghost predicate RoundTrip(ms: seq<Mesh>, ls: seq<Label>, i: nat, k: nat)
    requires IsRun(ms, ls) && i < k < |ls|
  {
    exists h :: && i < h < k && SomeHandled(ls, i, h) && InFull(ms, ls, h) && AllHandled(ls, h, k)
  }

  ghost predicate SomeHandled(ls: seq<Label>, i: nat, h: nat)
    requires i < |ls| && h < |ls|
  {
    ls[i].Act? && exists d :: d in ls[i].sent && Handles(ls[h], d)
  }

  ghost predicate AllHandled(ls: seq<Label>, h: nat, k: nat)
    requires h < |ls| && k < |ls| && ls[h].Act?
  {
    forall d :: d in ls[h].sent ==> exists j :: h < j <= k && Handles(ls[j], d)
  }

  /**
   * Every ping of a live peer can be sent, and makes a round trip before the pinging node's clock
   * reaches the timeout: it is handled to the end, and so is what that step sent.
   */
  ghost predicate PingsAnswered(ms: seq<Mesh>, ls: seq<Label>, live: set<Addr>)
    requires IsRun(ms, ls)
  {
    forall i: nat, p :: i < |ls| && p in live && ls[i].Act? && Pings(ls[i], ls[i].node, p) ==>
      && ls[i].step.delivered
      && forall k: nat :: i < k < |ls| && ls[k].Act? && ls[k].node == ls[i].node
                          && ls[k].end >= ls[i].step.stamp + PING_TIMEOUT ==>
           RoundTrip(ms, ls, i, k)
  }

  lemma HandledIsHeard(ms: seq<Mesh>, ls: seq<Label>, j: nat, a: Addr, p: Addr, envelope: SwimEnvelope)
    requires IsRun(ms, ls) && j < |ls| && Handles(ls[j], Unicast(p, a, envelope))
    ensures Hears(ms, ls, j, a, p)
  {
    assert Linked(ms, ls, j);
  }

  /** The answer to a ping comes back to the one who pinged. */
  lemma RoundTripIsHeard(ms: seq<Mesh>, ls: seq<Label>, i: nat, k: nat, a: Addr, p: Addr) returns (j: nat)
    requires IsFullRun(ms, ls) && i < k < |ls| && Pings(ls[i], a, p) && ls[i].step.delivered
    requires RoundTrip(ms, ls, i, k)
    ensures i < j <= k && Hears(ms, ls, j, a, p)
  {
    hide Linked, Init, InFull, Hears, FingerprintOf, CountOf;
    PingIsOnTheNetwork(ms, ls, i, a, p);
    var h: nat :| i < h < k && SomeHandled(ls, i, h) && InFull(ms, ls, h) && AllHandled(ls, h, k);
    var identity := ms[i].nodes[a].identity;
    assert Handles(ls[h], Unicast(a, p, SwimEnvelope(identity, Ping)));
    AnswerIsOnTheNetwork(ms, ls, h, a, p, identity);
    var n' := ms[h + 1].nodes[p];
    var envelope := SwimEnvelope(n'.identity, Ack(p, FingerprintOf(n'), CountOf(n'.known)));
    assert Unicast(p, a, envelope) in ls[h].sent;
    j :| h < j <= k && Handles(ls[j], Unicast(p, a, envelope));
    HandledIsHeard(ms, ls, j, a, p, envelope);
  }

  /** If pings make their round trips, live peers are heard in time. */
  lemma RoundTripsSuffice(ms: seq<Mesh>, ls: seq<Label>, live: set<Addr>)
    requires IsFullRun(ms, ls) && PingsAnswered(ms, ls, live)
    ensures Answered(ms, ls, live)
  {
    hide Linked, Init, RoundTrip, Hears;
    forall i, p | 0 <= i < |ls| && p in live && ls[i].Act? && Pings(ls[i], ls[i].node, p)
      ensures ls[i].step.delivered
      ensures forall k :: i < k < |ls| && ls[k].Act? && ls[k].node == ls[i].node
                          && ls[k].end >= ls[i].step.stamp + PING_TIMEOUT ==>
                exists j :: i < j <= k && Hears(ms, ls, j, ls[i].node, p)
    {
      forall k | i < k < |ls| && ls[k].Act? && ls[k].node == ls[i].node
                 && ls[k].end >= ls[i].step.stamp + PING_TIMEOUT
        ensures exists j :: i < j <= k && Hears(ms, ls, j, ls[i].node, p)
      {
        var j := RoundTripIsHeard(ms, ls, i, k, ls[i].node, p);
      }
    }
  }

  /**
   * Accuracy, from datagrams alone: in a run in which every ping of a live peer and the Ack to it
   * are delivered and handled in time, a live peer once known stays known to the end.
   */
  lemma AnsweredPingsKeepPeers(ms: seq<Mesh>, ls: seq<Label>, live: set<Addr>,
                               i: nat, k: nat, a: Addr, p: Addr)
    requires IsFullRun(ms, ls) && PingsAnswered(ms, ls, live) && p in live
    requires i <= k < |ms| && a in ms[i].nodes && p in ms[i].nodes[a].known
    ensures a in ms[k].nodes && p in ms[k].nodes[a].known
    ensures Awaiting(ms, k, a, p) ==> StateOf(ms, k, a, p).WaitingForPing?
  {
    RoundTripsSuffice(ms, ls, live);
    LivePeerStays(ms, ls, live, i, k, a, p);
    if Awaiting(ms, k, a, p) {
      LivePeerNeverDemoted(ms, ls, live, k, a, p);
    }
  }

  /** In such a run no failure of a live peer is ever announced. */
  lemma AnsweredPingsAnnounceNoFailure(ms: seq<Mesh>, ls: seq<Label>, live: set<Addr>, k: nat, d: Datagram)
    requires IsFullRun(ms, ls) && PingsAnswered(ms, ls, live) && k < |ms|
    requires d.Multicast? && d.broadcast.Failed? && d.broadcast.peer in live
    ensures d !in ms[k].net
  {
    RoundTripsSuffice(ms, ls, live);
    NoFailureAnnounced(ms, ls, live, k, d);
  }

  // Acks for those who asked.

  /** Node `a` makes no step in which its notes about `p` are used up or dropped. */
  ghost predicate KeepsNotes(ms: seq<Mesh>, ls: seq<Label>, j: nat, a: Addr, p: Addr)
    requires j < |ls| && j < |ms|
  {
    ls[j].Act? && ls[j].node == a && a in ms[j].nodes ==>
      && !(ls[j].step.Receive? && ls[j].step.envelope.msg.Ack? && ls[j].step.envelope.msg.peer == p)
      && !(ls[j].step.Sweep? && Evicted(ms[j].nodes[a], ls[j].step.plan, p))
  }

  lemma NotesStay(n: Node, end: Time, s: Step, p: Addr)
    requires !(s.Receive? && s.envelope.msg.Ack? && s.envelope.msg.peer == p)
    requires !(s.Sweep? && Evicted(n, s.plan, p))
    ensures NotedFor(n, p) <= NotedFor(After(n, end, s), p)
  {
    hide Evicted, Swept;
    if s.Sweep? {
      SweepForgetsNotes(n, end, s.plan, p);
    }
  }

  lemma {:induction false} NotedStays(ms: seq<Mesh>, ls: seq<Label>, i: nat, k: nat, a: Addr, p: Addr, o: Addr)
    requires IsFullRun(ms, ls) && i <= k < |ms| && a in ms[i].nodes && o in NotedFor(ms[i].nodes[a], p)
    requires forall j: nat :: i <= j < k ==> KeepsNotes(ms, ls, j, a, p)
    ensures a in ms[k].nodes && o in NotedFor(ms[k].nodes[a], p)
  {
    hide Init, NotedFor, After, Enabled, Attempts;
    if i < k {
      NotedStays(ms, ls, i, k - 1, a, p, o);
      assert Linked(ms, ls, k - 1);
      assert KeepsNotes(ms, ls, k - 1, a, p);
      var n, l := ms[k - 1].nodes[a], ls[k - 1];
      if l.Act? && l.node == a {
        NotesStay(n, l.end, l.step, p);
      }
    }
  }

  lemma NotesOnce(ms: seq<Mesh>, ls: seq<Label>, k: nat, a: Addr, p: Addr)
    requires IsFullRun(ms, ls) && k < |ms| && a in ms[k].nodes
    ensures NoDuplicates(NotedFor(ms[k].nodes[a], p))
  {
    RunIsSafe(ms, ls, k);
    assert NodeOk(Owners(ms[k]), ms[k].nodes[a], a);
  }

  /**
   * Whoever asks for a ping is told: after `a` has handled a request of `o` to ping `p`, and
   * neither an Ack about `p` nor an eviction of `p` since, the next Ack about `p` that `a` handles
   * in full is sent on to `o`, with what it says.
   */
  lemma AskerIsTold(ms: seq<Mesh>, ls: seq<Label>, i: nat, k: nat, a: Addr, p: Addr, o: Addr)
    requires IsFullRun(ms, ls) && i < k < |ls|
    requires ls[i].Act? && ls[i].node == a && ls[i].step.Receive? && ls[i].step.sender == o
    requires ls[i].step.envelope.msg == PingRequest(p)
    requires forall j: nat :: i < j < k ==> KeepsNotes(ms, ls, j, a, p)
    requires ls[k].Act? && ls[k].node == a && ls[k].step.Receive?
    requires ls[k].step.envelope.msg.Ack? && ls[k].step.envelope.msg.peer == p && InFull(ms, ls, k)
    ensures a in ms[k].nodes
    ensures Unicast(a, o, SwimEnvelope(ms[k].nodes[a].identity, ls[k].step.envelope.msg)) in ls[k].sent
  {
    hide Init, Attempts, After, Enabled, NotedFor;
    ActGoesOn(ms, ls, i);
    RelayPings(ms[i].nodes[a], ls[i].end, ls[i].step);
    NotedStays(ms, ls, i + 1, k, a, p, o);
    ActsAsItself(ms, ls, k, a);
    NotesOnce(ms, ls, k, a, p);
    AckGoesToNoted(ms[k].nodes[a], ls[k].step, o);
  }
}
