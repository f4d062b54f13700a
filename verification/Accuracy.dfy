/**
 * Accuracy: as long as the pings to a live peer are answered within the timeout, nobody suspects
 * it beyond a first ping, removes it, or announces its failure.
 */
module Accuracy {
  import opened Basics
  import opened Types
  import opened Node
  import opened Truth
  import opened Mesh
  import opened History

  /**
   * Every ping to a live peer can be sent, and something from the peer is handled before the
   * pinging node's clock reaches the timeout.
   */
  ghost predicate Answered(ms: seq<Mesh>, ls: seq<Label>, live: set<Addr>)
    requires IsRun(ms, ls)
  {
    forall i, p :: 0 <= i < |ls| && p in live && ls[i].Act? && Pings(ls[i], ls[i].node, p) ==>
      && ls[i].step.delivered
      && forall k :: i < k < |ls| && ls[k].Act? && ls[k].node == ls[i].node
                     && ls[k].end >= ls[i].step.stamp + PING_TIMEOUT ==>
           exists j :: i < j <= k && Hears(ms, ls, j, ls[i].node, p)
  }

  lemma SweepReads(ms: seq<Mesh>, ls: seq<Label>, k: nat, a: Addr, p: Addr)
    requires IsRun(ms, ls) && k < |ls| && Sweeps(ls[k], a) && a in ms[k].nodes
    requires Expired(ms[k].nodes[a], ls[k].step.plan, p)
    ensures ls[k].step.plan.readings[p] <= ls[k].end
  {
    assert Linked(ms, ls, k);
  }

  /** A sweep never finds a live peer overdue. */
  lemma {:induction false} LivePeerNeverExpires(ms: seq<Mesh>, ls: seq<Label>, live: set<Addr>,
                                                k: nat, a: Addr, p: Addr)
    requires IsFullRun(ms, ls) && Answered(ms, ls, live) && p in live
    requires k < |ls| && Sweeps(ls[k], a) && a in ms[k].nodes
    ensures !Expired(ms[k].nodes[a], ls[k].step.plan, p)
  {
    hide Linked, Init;
    var plan := ls[k].step.plan;
    if Expired(ms[k].nodes[a], plan, p) {
      SweepReads(ms, ls, k, a, p);
      var i := OriginOf(ms, ls, k, a, p);
      if StateOf(ms, k, a, p).WaitingForPing? {
        assert Pings(ls[i], ls[i].node, p);
        var j :| i < j <= k && Hears(ms, ls, j, a, p);
      } else {
        LivePeerNeverExpires(ms, ls, live, i, a, p);
      }
      assert false;
    }
  }

  /** No node ever waits for an indirect ping of a live peer. */
  lemma LivePeerNeverDemoted(ms: seq<Mesh>, ls: seq<Label>, live: set<Addr>, k: nat, a: Addr, p: Addr)
    requires IsFullRun(ms, ls) && Answered(ms, ls, live) && p in live
    requires k < |ms| && Awaiting(ms, k, a, p)
    ensures StateOf(ms, k, a, p).WaitingForPing?
  {
    var i := OriginOf(ms, ls, k, a, p);
    if StateOf(ms, k, a, p).WaitingForIndirectPing? {
      LivePeerNeverExpires(ms, ls, live, i, a, p);
    }
  }

  lemma StepKeepsPeer(truth: View, n: Node, begin: Time, end: Time, s: Step, p: Addr)
    requires Enabled(n, begin, end, s) && HearsTruth(truth, s) && Knows(truth, n.known)
    requires p in n.known
    requires s.Sweep? ==> !Expired(n, s.plan, p)
    requires s.PingOne? && s.target == p ==> s.delivered
    ensures p in After(n, end, s).known
  {
    match s {
      case Sweep(plan) => assert p in Swept(n, plan);
      case Receive(_, _, _, _, _, _) =>
        assert p in Heard(n, s.sender, s.envelope.identity, s.stamp, s.measured).known;
      case ReceiveBroadcast(_, _, _, _, _, _) =>
        if s.broadcast.Failed? {
          FailedIgnored(truth, n, end, s);
        }
      case _ =>
    }
  }

  lemma ActEnabled(ms: seq<Mesh>, ls: seq<Label>, k: nat)
    requires IsRun(ms, ls) && k < |ls| && ls[k].Act?
    ensures ls[k].node in ms[k].nodes && Arrived(ms[k], ls[k].node, ls[k].step)
    ensures Enabled(ms[k].nodes[ls[k].node], ls[k].begin, ls[k].end, ls[k].step)
  {
    assert Linked(ms, ls, k);
  }

  lemma LivePeerStaysOneStep(ms: seq<Mesh>, ls: seq<Label>, live: set<Addr>, k: nat, a: Addr, p: Addr)
    requires IsFullRun(ms, ls) && Answered(ms, ls, live) && p in live && k < |ls|
    requires ls[k].Act? && ls[k].node == a && a in ms[k].nodes && p in ms[k].nodes[a].known
    ensures p in After(ms[k].nodes[a], ls[k].end, ls[k].step).known
  {
    hide Init, Linked, After, Enabled, Expired;
    var m, l := ms[k], ls[k];
    RunIsSafe(ms, ls, k);
    ActEnabled(ms, ls, k);
    ActHearsTruth(m, l);
    assert NodeOk(Owners(m), m.nodes[a], a);
    if l.step.Sweep? {
      LivePeerNeverExpires(ms, ls, live, k, a, p);
    }
    assert Pings(l, l.node, p) ==> l.step.delivered;
    StepKeepsPeer(Owners(m), m.nodes[a], l.begin, l.end, l.step, p);
  }

  /** Once a node knows a live peer, it knows it for the rest of the run. */
  lemma {:induction false} LivePeerStays(ms: seq<Mesh>, ls: seq<Label>, live: set<Addr>,
                                         i: nat, k: nat, a: Addr, p: Addr)
    requires IsFullRun(ms, ls) && Answered(ms, ls, live) && p in live
    requires i <= k < |ms| && a in ms[i].nodes && p in ms[i].nodes[a].known
    ensures a in ms[k].nodes && p in ms[k].nodes[a].known
  {
    hide After, Enabled, Attempts, Answered, Init;
    if i < k {
      LivePeerStays(ms, ls, live, i, k - 1, a, p);
      assert Linked(ms, ls, k - 1);
      if ls[k - 1].Act? && ls[k - 1].node == a {
        LivePeerStaysOneStep(ms, ls, live, k - 1, a, p);
      }
    }
  }

  lemma OnlySweepsAnnounceFailure(n: Node, s: Step, d: Datagram)
    requires d in Attempts(n, s) && d.Multicast? && d.broadcast.Failed?
    ensures s.Sweep? && Evicted(n, s.plan, d.broadcast.peer)
  {
    hide Requests, Forwards, EvictedIn, FailuresOf, FingerprintOf, Shareable;
    match s {
      case Sweep(plan) =>
        RequestsForm(n, plan, plan.order);
        FailuresForm(n, plan, plan.order);
      case Receive(sender, envelope, stamp, measured, _, _) =>
        var heard := Heard(n, sender, envelope.identity, stamp, measured);
        if envelope.msg.Ack? {
          ForwardsForm(heard, ObserversOf(heard, envelope.msg.peer), envelope.msg);
        }
      case _ =>
    }
  }

  /** No `Failed` broadcast about a live peer is ever on the network. */
  lemma {:induction false} NoFailureAnnounced(ms: seq<Mesh>, ls: seq<Label>, live: set<Addr>,
                                              k: nat, d: Datagram)
    requires IsFullRun(ms, ls) && Answered(ms, ls, live) && k < |ms|
    requires d.Multicast? && d.broadcast.Failed? && d.broadcast.peer in live
    ensures d !in ms[k].net
  {
    if k > 0 {
      NoFailureAnnounced(ms, ls, live, k - 1, d);
      var m, l := ms[k - 1], ls[k - 1];
      assert Linked(ms, ls, k - 1);
      if l.Act? && d in l.sent {
        OnlySweepsAnnounceFailure(m.nodes[l.node], l.step, d);
        LivePeerNeverExpires(ms, ls, live, k - 1, l.node, d.broadcast.peer);
      }
    }
  }
}
