/**
 * Identities under a fixed assignment of one identity to each node's address: what an honest node
 * knows and sends is true whenever what it hears is.
 */
module Truth {
  import opened Basics
  import opened Types
  import opened Node

  /** Every listed peer is a node, listed with its own identity. */
  ghost predicate Truthful(truth: View, view: View) {
    forall p :: p in view ==> p in truth && view[p] == truth[p]
  }

  ghost predicate Knows(truth: View, known: PeerMap) {
    forall p :: p in known ==> p in truth && known[p].identity == truth[p]
  }

  ghost predicate TruthfulEnvelope(truth: View, src: Addr, envelope: SwimEnvelope) {
    && src in truth && envelope.identity == truth[src]
    && (envelope.msg.KnownPeers? ==> Truthful(truth, envelope.msg.peers))
  }

  /** Broadcasts come from addresses that are no node's own. */
  ghost predicate TruthfulBroadcast(truth: View, src: Addr, broadcast: SwimBroadcast) {
    && src !in truth
    && (broadcast.Join? ==> broadcast.addr in truth && broadcast.identity == truth[broadcast.addr])
  }

  ghost predicate TruthfulDatagram(truth: View, d: Datagram) {
    match d
    case Unicast(src, _, envelope) => TruthfulEnvelope(truth, src, envelope)
    case Multicast(src, broadcast) => TruthfulBroadcast(truth, src, broadcast)
    case ProbeReply(src, _, response) => src in truth && response.identity == truth[src]
  }

  ghost predicate HearsTruth(truth: View, s: Step) {
    && (s.Receive? ==> TruthfulEnvelope(truth, s.sender, s.envelope))
    && (s.ReceiveBroadcast? ==> TruthfulBroadcast(truth, s.source, s.broadcast))
  }

  ghost predicate Owns(truth: View, n: Node) {
    n.self in truth && n.identity == truth[n.self] && n.broadcastSource !in truth
  }

  lemma StepKeepsTruth(truth: View, n: Node, begin: Time, end: Time, s: Step)
    requires Knows(truth, n.known) && Enabled(n, begin, end, s) && HearsTruth(truth, s)
    ensures Knows(truth, After(n, end, s).known)
  {
    match s {
      case Sweep(plan) => SweepKeepsTruth(truth, n, plan);
      case Receive(_, _, _, _, _, _) => ReceiveKeepsTruth(truth, n, s);
      case ReceiveBroadcast(_, _, _, _, _, _) => BroadcastKeepsTruth(truth, n, s);
      case _ =>
    }
  }

  lemma SweepKeepsTruth(truth: View, n: Node, plan: SweepPlan)
    requires Knows(truth, n.known)
    ensures Knows(truth, AfterSweep(n, plan).known)
  {
  }

  lemma ReceiveKeepsTruth(truth: View, n: Node, s: Step)
    requires Knows(truth, n.known) && s.Receive? && TruthfulEnvelope(truth, s.sender, s.envelope)
    ensures Knows(truth, AfterReceive(n, s).known)
  {
    var heard := Heard(n, s.sender, s.envelope.identity, s.stamp, s.measured);
    assert Knows(truth, heard.known);
    if s.envelope.msg.KnownPeers? && s.merged.Some? {
      MergeKeepsTruth(truth, heard.known, s.envelope.msg.peers, s.merged.value);
    }
  }

  lemma BroadcastKeepsTruth(truth: View, n: Node, s: Step)
    requires Knows(truth, n.known)
    requires s.ReceiveBroadcast? && TruthfulBroadcast(truth, s.source, s.broadcast)
    ensures Knows(truth, AfterBroadcast(n, s).known)
  {
  }

  lemma MergeKeepsTruth(truth: View, known: PeerMap, told: View, now: Time)
    requires Knows(truth, known) && Truthful(truth, told)
    ensures Knows(truth, Merged(known, told, now))
  {
  }

  lemma SameKeysSameView(truth: View, known: PeerMap, others: PeerMap)
    requires Knows(truth, known) && Knows(truth, others) && known.Keys == others.Keys
    ensures ViewOf(known) == ViewOf(others)
  {
    var v, w := ViewOf(known), ViewOf(others);
    assert v.Keys == w.Keys;
    forall p | p in v
      ensures v[p] == w[p]
    {
    }
  }

  lemma FailedIgnored(truth: View, n: Node, end: Time, s: Step)
    requires Knows(truth, n.known) && HearsTruth(truth, s)
    requires s.ReceiveBroadcast? && s.broadcast.Failed?
    ensures After(n, end, s) == n.(clock := end)
  {
  }

  // What the lists of sends are made of.

  lemma {:induction false} RequestsToForm(n: Node, p: Addr, helpers: seq<Addr>)
    ensures forall d :: d in RequestsTo(n, p, helpers) ==>
              d.Unicast? && d.src == n.self && d.envelope == Envelope(n, PingRequest(p))
  {
    if helpers != [] {
      RequestsToForm(n, p, helpers[..|helpers| - 1]);
    }
  }

  lemma {:induction false} RequestsForm(n: Node, plan: SweepPlan, order: seq<Addr>)
    ensures forall d :: d in Requests(n, plan, order) ==>
              && d.Unicast? && d.src == n.self && d.envelope.identity == n.identity
              && d.envelope.msg.PingRequest? && Demoted(n, plan, d.envelope.msg.target)
  {
    if order != [] {
      var p := order[|order| - 1];
      RequestsForm(n, plan, order[..|order| - 1]);
      if p in plan.helpers {
        RequestsToForm(n, p, plan.helpers[p]);
      }
    }
  }

  lemma {:induction false} EvictedInForm(n: Node, plan: SweepPlan, order: seq<Addr>)
    ensures forall p :: p in EvictedIn(n, plan, order) <==> p in order && Evicted(n, plan, p)
    ensures NoDuplicates(order) ==> NoDuplicates(EvictedIn(n, plan, order))
  {
    if order != [] {
      var front, p := order[..|order| - 1], order[|order| - 1];
      EvictedInForm(n, plan, front);
      assert order == front + [p];
      ElementsAppend(EvictedIn(n, plan, front), p);
    }
  }

  lemma {:induction false} FailuresOfForm(source: Addr, peers: seq<Addr>)
    ensures forall d :: d in FailuresOf(source, peers) <==>
              d.Multicast? && d.src == source && d.broadcast.Failed? && d.broadcast.peer in peers
    ensures NoDuplicates(peers) ==> NoDuplicates(FailuresOf(source, peers))
  {
    if peers != [] {
      var front, p := peers[..|peers| - 1], peers[|peers| - 1];
      FailuresOfForm(source, front);
      assert peers == front + [p];
      ElementsAppend(FailuresOf(source, front), Multicast(source, Failed(p)));
    }
  }

  /** The failures announced are those of the evicted peers, each announced once, and no others. */
  lemma FailuresForm(n: Node, plan: SweepPlan, order: seq<Addr>)
    ensures forall d :: d in Failures(n, plan, order) <==>
              && d.Multicast? && d.src == n.broadcastSource && d.broadcast.Failed?
              && d.broadcast.peer in order && Evicted(n, plan, d.broadcast.peer)
    ensures NoDuplicates(order) ==> NoDuplicates(Failures(n, plan, order))
  {
    EvictedInForm(n, plan, order);
    FailuresOfForm(n.broadcastSource, EvictedIn(n, plan, order));
  }

  lemma {:induction false} ForwardsForm(n: Node, observers: seq<Addr>, ack: SwimMessage)
    ensures forall d :: d in Forwards(n, observers, ack) ==>
              d.Unicast? && d.src == n.self && d.envelope == Envelope(n, ack)
  {
    if observers != [] {
      ForwardsForm(n, observers[..|observers| - 1], ack);
    }
  }

  /** What a node tries to send is signed with its own address and identity, and truthful. */
  lemma AttemptsAreTruthful(truth: View, n: Node, begin: Time, end: Time, s: Step)
    requires Owns(truth, n) && Knows(truth, n.known)
    requires Enabled(n, begin, end, s) && HearsTruth(truth, s)
    ensures forall d :: d in Attempts(n, s) ==> TruthfulDatagram(truth, d)
  {
    match s {
      case Sweep(plan) =>
        RequestsForm(n, plan, plan.order);
        FailuresForm(n, plan, plan.order);
      case Receive(sender, envelope, stamp, measured, _, _) =>
        RepliesAreTruthful(truth, Heard(n, sender, envelope.identity, stamp, measured), s);
      case ReceiveBroadcast(source, broadcast, stamp, handled, respond, listed) =>
        if handled && respond && IsNewcomer(n, s) {
          BroadcastKeepsTruth(truth, n, s);
          assert AfterBroadcast(n, s).known == Joined(n, broadcast.addr, broadcast.identity, stamp);
        }
      case _ =>
    }
  }

  lemma RepliesAreTruthful(truth: View, n: Node, s: Step)
    requires s.Receive? && Owns(truth, n) && Knows(truth, n.known)
    requires TruthfulEnvelope(truth, s.sender, s.envelope)
    ensures forall d :: d in Replies(n, s) ==> TruthfulDatagram(truth, d)
  {
    match s.envelope.msg {
      case Ack(peer, _, _) =>
        ForwardsForm(n, ObserversOf(n, peer), s.envelope.msg);
      case KnownPeersRequest(_, _) =>
        assert Truthful(truth, Shareable(n, s.sender, s.readings));
      case _ =>
    }
  }
}
