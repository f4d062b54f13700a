/**
 * What steps put on the network, datagram by datagram: who sends what to whom. The datagrams are
 * written out, so that these laws do not depend on how `Node` puts its lists of sends together.
 */
module Sends {
  import opened Basics
  import opened Types
  import opened Node
  import opened Truth
  import Fingerprint

  // The sweep.

  /** `d` asks a helper chosen for a demoted peer to ping that peer. */
  ghost predicate AsksHelper(n: Node, plan: SweepPlan, d: Datagram) {
    && d.Unicast? && d.envelope.msg.PingRequest?
    && (var p, h := d.envelope.msg.target, d.dst;
        && d == Unicast(n.self, h, SwimEnvelope(n.identity, PingRequest(p)))
        && Demoted(n, plan, p) && p in plan.helpers && h in plan.helpers[p])
  }

  lemma {:induction false} RequestsToEach(n: Node, p: Addr, helpers: seq<Addr>)
    ensures |RequestsTo(n, p, helpers)| == |helpers|
    ensures forall i :: 0 <= i < |helpers| ==>
              RequestsTo(n, p, helpers)[i] == Unicast(n.self, helpers[i], SwimEnvelope(n.identity, PingRequest(p)))
    ensures NoDuplicates(helpers) ==> NoDuplicates(RequestsTo(n, p, helpers))
  {
    if helpers != [] {
      RequestsToEach(n, p, helpers[..|helpers| - 1]);
    }
  }

  lemma NoDuplicatesJoined<T>(s: seq<T>, t: seq<T>)
    requires NoDuplicates(s) && NoDuplicates(t) && forall x :: x in s ==> x !in t
    ensures NoDuplicates(s + t)
  {
    forall i, j | 0 <= i < j < |s + t|
      ensures (s + t)[i] != (s + t)[j]
    {
      if i < |s| <= j {
        assert s[i] in s && t[j - |s|] in t;
      }
    }
  }

  /** The requests of one more peer of the order. */
  lemma RequestsAbout(n: Node, plan: SweepPlan, p: Addr)
    requires Demoted(n, plan, p) && p in plan.helpers && NoDuplicates(plan.helpers[p])
    ensures NoDuplicates(RequestsTo(n, p, plan.helpers[p]))
    ensures forall d :: d in RequestsTo(n, p, plan.helpers[p])
              <==> AsksHelper(n, plan, d) && d.envelope.msg.target == p
  {
    var helpers := plan.helpers[p];
    RequestsToEach(n, p, helpers);
    forall d | AsksHelper(n, plan, d) && d.envelope.msg.target == p
      ensures d in RequestsTo(n, p, helpers)
    {
      var i :| 0 <= i < |helpers| && helpers[i] == d.dst;
      assert RequestsTo(n, p, helpers)[i] == d;
    }
  }

  lemma {:induction false} RequestsExactly(n: Node, plan: SweepPlan, order: seq<Addr>)
    requires NoDuplicates(order)
    requires forall p :: Demoted(n, plan, p) ==> p in plan.helpers && NoDuplicates(plan.helpers[p])
    ensures NoDuplicates(Requests(n, plan, order))
    ensures forall d :: d in Requests(n, plan, order)
              <==> AsksHelper(n, plan, d) && d.envelope.msg.target in order
  {
    hide Demoted, RequestsTo;
    if order != [] {
      var front, p := order[..|order| - 1], order[|order| - 1];
      RequestsExactly(n, plan, front);
      assert order == front + [p];
      if Demoted(n, plan, p) {
        RequestsAbout(n, plan, p);
        NoDuplicatesJoined(Requests(n, plan, front), RequestsTo(n, p, plan.helpers[p]));
      }
    }
  }

  /**
   * The unicast datagrams of a sweep are exactly the ping requests to the helpers chosen for the
   * demoted peers, about those peers; and it sends nothing twice.
   */
  lemma SweepAsksExactly(n: Node, begin: Time, end: Time, plan: SweepPlan)
    requires ValidPlan(n, begin, end, plan)
    ensures forall d :: d in Attempts(n, Sweep(plan)) && d.Unicast? <==> AsksHelper(n, plan, d)
    ensures NoDuplicates(Attempts(n, Sweep(plan)))
  {
    hide Requests, EvictedIn, FailuresOf;
    RequestsExactly(n, plan, plan.order);
    FailuresForm(n, plan, plan.order);
    forall d | AsksHelper(n, plan, d)
      ensures d.envelope.msg.target in plan.order
    {
      assert d.envelope.msg.target in Elements(plan.order);
    }
    NoDuplicatesJoined(Requests(n, plan, plan.order), Failures(n, plan, plan.order));
  }

  /** Those who are asked to ping `p`. */
  ghost function AskedAbout(n: Node, plan: SweepPlan, p: Addr): set<Addr> {
    set h | h in n.known && Unicast(n.self, h, SwimEnvelope(n.identity, PingRequest(p))) in Attempts(n, Sweep(plan))
  }

  /**
   * About every demoted peer three different peers are asked, or all there are: non-suspected
   * ones, never the node itself or the demoted peer.
   */
  lemma DemotedAreAskedAbout(n: Node, begin: Time, end: Time, plan: SweepPlan, p: Addr)
    requires ValidPlan(n, begin, end, plan) && Demoted(n, plan, p)
    ensures AskedAbout(n, plan, p) <= NonSuspected(n) && n.self !in AskedAbout(n, plan, p)
    ensures p !in AskedAbout(n, plan, p)
    ensures |AskedAbout(n, plan, p)| == if |NonSuspected(n)| < 3 then |NonSuspected(n)| else 3
  {
    hide Attempts;
    SweepAsksExactly(n, begin, end, plan);
    var helpers := plan.helpers[p];
    forall h | h in n.known
      ensures h in AskedAbout(n, plan, p) <==> h in helpers
    {
      assert AsksHelper(n, plan, Unicast(n.self, h, SwimEnvelope(n.identity, PingRequest(p)))) <==> h in helpers;
    }
    assert forall h :: h in Elements(helpers) ==> h in NonSuspected(n);
    assert AskedAbout(n, plan, p) == Elements(helpers);
    ElementsCount(helpers);
  }

  /** A sweep drops the notes about those it evicts, and no others. */
  lemma SweepForgetsNotes(n: Node, end: Time, plan: SweepPlan, p: Addr)
    ensures p in After(n, end, Sweep(plan)).curious <==> p in n.curious && !Evicted(n, plan, p)
    ensures p in After(n, end, Sweep(plan)).curious ==>
              After(n, end, Sweep(plan)).curious[p] == n.curious[p]
  {
  }

  // Acks.

  lemma {:induction false} ForwardsEach(n: Node, observers: seq<Addr>, ack: SwimMessage)
    ensures |Forwards(n, observers, ack)| == |observers|
    ensures forall i :: 0 <= i < |observers| ==>
              Forwards(n, observers, ack)[i] == Unicast(n.self, observers[i], SwimEnvelope(n.identity, ack))
  {
    if observers != [] {
      ForwardsEach(n, observers[..|observers| - 1], ack);
    }
  }

  ghost predicate IsAck(d: Datagram) {
    d.Unicast? && d.envelope.msg.Ack?
  }

  /** Who waits to hear about `p`. */
  ghost function NotedFor(n: Node, p: Addr): seq<Addr> {
    if p in n.curious then n.curious[p] else []
  }

  /**
   * Handling an Ack about `p`: first the same Ack to those noted for `p`, one after the other; then
   * at most a request for peers, to `p`.
   */
  lemma AckIsForwarded(n: Node, end: Time, s: Step)
    requires s.Receive? && s.envelope.msg.Ack?
    ensures var Ack(p, f, c) := s.envelope.msg;
            var noted, sends, n' := NotedFor(n, p), Attempts(n, s), After(n, end, s);
            && |noted| <= |sends| <= |noted| + 1
            && (forall i :: 0 <= i < |noted| ==>
                  sends[i] == Unicast(n.self, noted[i], SwimEnvelope(n.identity, Ack(p, f, c))))
            && (|sends| == |noted| + 1 ==>
                  sends[|noted|] == Unicast(n.self, p, SwimEnvelope(n.identity,
                                      KnownPeersRequest(FingerprintOf(n'), CountOf(n'.known)))))
            && NotedFor(n', p) == []
  {
    hide Fingerprint.Of, CountOf;
    var heard := Heard(n, s.sender, s.envelope.identity, s.stamp, s.measured);
    ForwardsEach(heard, NotedFor(n, s.envelope.msg.peer), s.envelope.msg);
  }

  /** An Ack is tried for `x` exactly if `x` is noted, with the same content, and once. */
  lemma AckGoesToNoted(n: Node, s: Step, x: Addr)
    requires s.Receive? && s.envelope.msg.Ack? && NoDuplicates(NotedFor(n, s.envelope.msg.peer))
    ensures var noted, sends := NotedFor(n, s.envelope.msg.peer), Attempts(n, s);
            var d := Unicast(n.self, x, SwimEnvelope(n.identity, s.envelope.msg));
            && (d in sends <==> x in noted)
            && (forall e :: e in sends && IsAck(e) && e.dst == x ==> e == d)
            && (forall i, j :: 0 <= i < j < |sends| && IsAck(sends[i]) ==> sends[i] != sends[j])
  {
    hide Attempts, FingerprintOf, CountOf, Heard, After;
    AckIsForwarded(n, s.measured, s);
    var noted, sends := NotedFor(n, s.envelope.msg.peer), Attempts(n, s);
    if x in noted {
      var i :| 0 <= i < |noted| && noted[i] == x;
      assert sends[i] == Unicast(n.self, x, SwimEnvelope(n.identity, s.envelope.msg));
    }
  }

  // Pings and their answers.

  /** The ping goes to the target; one that cannot even be sent makes the node forget it. */
  lemma PingGoesToTarget(n: Node, end: Time, p: Addr, stamp: Time, delivered: bool)
    ensures Attempts(n, PingOne(p, stamp, delivered)) == [Unicast(n.self, p, SwimEnvelope(n.identity, Ping))]
    ensures !delivered ==> p !in After(n, end, PingOne(p, stamp, delivered)).known
    ensures delivered && p in n.known ==>
              After(n, end, PingOne(p, stamp, delivered)).known[p]
              == PeerInfo(n.known[p].identity, WaitingForPing(stamp), n.known[p].latency)
  {
  }

  lemma ManualPingGoesToTarget(n: Node, p: Addr)
    ensures Attempts(n, ManualPing(p)) == [Unicast(n.self, p, SwimEnvelope(n.identity, Ping))]
  {
  }

  /**
   * A Ping is answered to its sender, and to nobody else: an Ack naming the node, with the
   * fingerprint and the count of what it knows with the sender heard.
   */
  lemma PingIsAnswered(n: Node, end: Time, s: Step)
    requires s.Receive? && s.envelope.msg.Ping?
    ensures var n' := After(n, end, s);
            && s.sender in n'.known
            && Attempts(n, s) == [Unicast(n.self, s.sender, SwimEnvelope(n.identity,
                                    Ack(n.self, Fingerprint.Of(n.text, ViewOf(n'.known)), CountOf(n'.known))))]
  {
    hide Fingerprint.Of, CountOf;
  }

  /** A request to ping makes the node ping the target and note the asker, last and once. */
  lemma RelayPings(n: Node, end: Time, s: Step)
    requires s.Receive? && s.envelope.msg.PingRequest?
    ensures var PingRequest(p) := s.envelope.msg;
            && Attempts(n, s) == [Unicast(n.self, p, SwimEnvelope(n.identity, Ping))]
            && NotedFor(After(n, end, s), p)
               == NotedFor(n, p) + (if s.sender in NotedFor(n, p) then [] else [s.sender])
  {
    hide Fingerprint.Of;
  }

  /** A request for peers is answered to its sender, and then perhaps returned, to the sender too. */
  lemma RequestIsAnswered(n: Node, end: Time, s: Step)
    requires s.Receive? && s.envelope.msg.KnownPeersRequest?
    ensures var sends, n' := Attempts(n, s), After(n, end, s);
            && 1 <= |sends| <= 2
            && sends[0].Unicast? && sends[0].envelope.msg.KnownPeers?
            && sends[0] == Unicast(n.self, s.sender, SwimEnvelope(n.identity, KnownPeers(sends[0].envelope.msg.peers)))
            && (|sends| == 2 ==>
                  sends[1] == Unicast(n.self, s.sender, SwimEnvelope(n.identity,
                                KnownPeersRequest(FingerprintOf(n'), CountOf(n'.known)))))
  {
    hide Fingerprint.Of, CountOf;
  }

  lemma ListIsNotAnswered(n: Node, s: Step)
    requires s.Receive? && s.envelope.msg.KnownPeers?
    ensures Attempts(n, s) == []
  {
    hide Fingerprint.Of;
  }

  // Broadcasts.

  lemma JoinIsAnnounced(n: Node, end: Time, now: Time)
    ensures Attempts(n, BroadcastJoin(now)) == [Multicast(n.broadcastSource, Join(n.self, n.identity))]
    ensures After(n, end, BroadcastJoin(now)) == n.(lastBroadcast := Some(now), clock := end)
  {
  }

  /** All that can follow a broadcast: peers for a newcomer, or our identity for a prober. */
  lemma BroadcastIsAnswered(n: Node, s: Step)
    requires s.ReceiveBroadcast?
    ensures Attempts(n, s) ==
              match s.broadcast
              case Join(a, _) =>
                if s.handled && s.respond && a != n.self && a !in n.known
                then [Unicast(n.self, a, SwimEnvelope(n.identity, KnownPeers(s.listed)))] else []
              case Probe(prober) =>
                if s.handled && s.respond then [ProbeReply(n.self, prober, ProbeResponse(n.identity))] else []
              case Failed(_) => []
  {
  }

  /** Whoever is alone with the newcomer, or hears a prober while knowing at most one other, responds. */
  lemma NobodyElseToRespond(n: Node, begin: Time, end: Time, s: Step)
    requires Enabled(n, begin, end, s) && s.ReceiveBroadcast? && s.handled
    ensures s.broadcast.Join? && n.known.Keys == {n.self} && s.broadcast.addr != n.self ==>
              Attempts(n, s) == [Unicast(n.self, s.broadcast.addr, SwimEnvelope(n.identity, KnownPeers(s.listed)))]
    ensures s.broadcast.Probe? && |n.known| <= 2 ==>
              Attempts(n, s) == [ProbeReply(n.self, s.broadcast.prober, ProbeResponse(n.identity))]
  {
    if s.broadcast.Join? && n.known.Keys == {n.self} && s.broadcast.addr != n.self {
      var known := Joined(n, s.broadcast.addr, s.broadcast.identity, s.stamp);
      assert known.Keys == {n.self, s.broadcast.addr};
      assert |known| == |known.Keys|;
    }
  }

  // Latencies.

  /**
   * A step changes a latency only by hearing a peer it waited for: from the old one it moves four
   * fifths of the way to the time waited, rounded down.
   */
  lemma LatencyMovesTowardSample(n: Node, begin: Time, end: Time, s: Step, p: Addr)
    requires Enabled(n, begin, end, s) && p in n.known && p in After(n, end, s).known
    requires n.known[p].state.since <= n.clock
    ensures var before, after := n.known[p].latency, After(n, end, s).known[p].latency;
            if s.Receive? && s.sender == p && !n.known[p].state.Known? then
              var waited := s.measured - n.known[p].state.since;
              && after.Some?
              && (before.None? ==> after.value == waited)
              && (before.Some? ==>
                    && 5 * after.value <= 4 * waited + before.value < 5 * after.value + 5)
            else after == before
  {
    match s {
      case Sweep(plan) => assert p in Swept(n, plan);
      case Receive(_, _, _, _, _, _) =>
        hide ValidPlan, Swept, EvictedPeers, WithObserver, NonSuspected, AmongOldest;
      case _ =>
        hide ValidPlan, Swept, EvictedPeers, WithObserver, Merged, Heard;
    }
  }
}
