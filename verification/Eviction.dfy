/**
 * Eviction for good: what is shared about a peer that has gone silent runs dry, and then no node
 * that has removed it learns of it again.
 */
module Eviction {
  import opened Basics
  import opened Types
  import opened Node
  import opened Truth
  import opened Mesh
  import opened History

  /** The last datagram from `gone`, or Join for it, was handled by `last`. */
  ghost predicate SilentAfter(ms: seq<Mesh>, ls: seq<Label>, gone: Addr, last: Time)
    requires IsRun(ms, ls)
  {
    forall j, a :: 0 <= j < |ls| && Hears(ms, ls, j, a, gone) ==> ls[j].step.stamp <= last
  }

  /** If held as Known at all, the peer was heard by `last`, or is too old to be passed on. */
  ghost predicate Stale(n: Node, gone: Addr, last: Time) {
    gone in n.known && n.known[gone].state.Known? ==>
      || n.known[gone].state.since <= last
      || n.known[gone].state.since <= n.clock - MAX_PEER_SHARE_AGE
  }

  lemma StepKeepsStale(n: Node, begin: Time, end: Time, s: Step, gone: Addr, last: Time)
    requires Stale(n, gone, last) && Enabled(n, begin, end, s)
    requires HearsFrom(n, s, gone) ==> s.stamp <= last
    ensures Stale(After(n, end, s), gone, last)
  {
    match s {
      case Sweep(plan) => assert AfterSweep(n, plan).known == Swept(n, plan);
      case Receive(_, _, _, _, _, _) =>
      case ReceiveBroadcast(_, _, _, _, _, _) =>
      case _ =>
    }
  }

  lemma {:induction false} SilentPeerIsStale(ms: seq<Mesh>, ls: seq<Label>, k: nat, a: Addr,
                                             gone: Addr, last: Time)
    requires IsFullRun(ms, ls) && SilentAfter(ms, ls, gone, last)
    requires k < |ms| && a in ms[k].nodes && a != gone
    ensures Stale(ms[k].nodes[a], gone, last)
  {
    if k == 0 {
      assert Fresh(ms[0].nodes[a], a);
    } else {
      var m, l := ms[k - 1], ls[k - 1];
      assert Linked(ms, ls, k - 1);
      SilentPeerIsStale(ms, ls, k - 1, a, gone, last);
      if l.Act? && l.node == a {
        assert Hears(ms, ls, k - 1, a, gone) ==> l.step.stamp <= last;
        StepKeepsStale(m.nodes[a], l.begin, l.end, l.step, gone, last);
      }
    }
  }

  ghost predicate Names(d: Datagram, p: Addr) {
    d.Unicast? && d.envelope.msg.KnownPeers? && p in d.envelope.msg.peers
  }

  /** Of all replies, only those to requests for peers and to newcomers can name anyone. */
  lemma NamingSteps(n: Node, s: Step, d: Datagram, p: Addr)
    requires d in Attempts(n, s) && Names(d, p)
    ensures || (s.Receive? && s.envelope.msg.KnownPeersRequest?
                && p in Shareable(Heard(n, s.sender, s.envelope.identity, s.stamp, s.measured),
                                  s.sender, s.readings))
            || (s.ReceiveBroadcast? && s.handled && IsNewcomer(n, s) && p in s.listed)
  {
    hide Requests, Forwards, EvictedIn, FailuresOf, FingerprintOf;
    match s {
      case Sweep(plan) =>
        RequestsForm(n, plan, plan.order);
        FailuresForm(n, plan, plan.order);
      case Receive(sender, envelope, stamp, measured, _, _) =>
        var heard := Heard(n, sender, envelope.identity, stamp, measured);
        if envelope.msg.Ack? {
          ForwardsForm(heard, ObserversOf(heard, envelope.msg.peer), envelope.msg);
        }
      case _ =>
    }
  }

  /** Ten seconds or more after `gone` was last heard, and with no newcomer to tell about it. */
  ghost predicate DryStep(n: Node, begin: Time, s: Step, gone: Addr, last: Time) {
    && begin >= last + 10000
    && (s.ReceiveBroadcast? && s.handled && s.broadcast.Join? ==>
          gone !in n.known && gone != s.broadcast.addr)
  }

  lemma DryStepNames(n: Node, begin: Time, end: Time, s: Step, gone: Addr, last: Time, d: Datagram)
    requires Enabled(n, begin, end, s) && DryStep(n, begin, s, gone, last)
    requires n.self != gone ==> Stale(n, gone, last)
    requires d in Attempts(n, s)
    ensures !Names(d, gone)
  {
    if Names(d, gone) {
      NamingSteps(n, s, d, gone);
    }
  }

  /** Long enough after a peer went silent, no request for peers is answered with its name. */
  lemma NoLateReplyNames(ms: seq<Mesh>, ls: seq<Label>, k: nat, gone: Addr, last: Time, d: Datagram)
    requires IsFullRun(ms, ls) && SilentAfter(ms, ls, gone, last) && k < |ls|
    requires ls[k].Act? && ls[k].node in ms[k].nodes
    requires DryStep(ms[k].nodes[ls[k].node], ls[k].begin, ls[k].step, gone, last)
    requires d in ls[k].sent
    ensures !Names(d, gone)
  {
    var n := ms[k].nodes[ls[k].node];
    RunIsSafe(ms, ls, k);
    assert NodeOk(Owners(ms[k]), n, ls[k].node);
    if n.self != gone {
      SilentPeerIsStale(ms, ls, k, ls[k].node, gone, last);
    }
    assert Linked(ms, ls, k);
    DryStepNames(n, ls[k].begin, ls[k].end, ls[k].step, gone, last, d);
  }

  /** From step `i` on, nothing names the peer: nothing in flight, and no reply to a newcomer. */
  ghost predicate RunDry(ms: seq<Mesh>, ls: seq<Label>, i: nat, gone: Addr, last: Time)
    requires IsRun(ms, ls) && i < |ms|
  {
    && (forall d :: d in ms[i].net ==> !Names(d, gone))
    && (forall k :: i <= k < |ls| && ls[k].Act? && ls[k].node in ms[k].nodes ==>
          DryStep(ms[k].nodes[ls[k].node], ls[k].begin, ls[k].step, gone, last))
  }

  lemma {:induction false} NothingNames(ms: seq<Mesh>, ls: seq<Label>, i: nat, k: nat,
                                        gone: Addr, last: Time, d: Datagram)
    requires IsFullRun(ms, ls) && SilentAfter(ms, ls, gone, last)
    requires i <= k < |ms| && RunDry(ms, ls, i, gone, last)
    requires d in ms[k].net
    ensures !Names(d, gone)
  {
    if i < k {
      assert Linked(ms, ls, k - 1);
      if d in ms[k - 1].net {
        NothingNames(ms, ls, i, k - 1, gone, last, d);
      } else if ls[k - 1].Act? {
        NoLateReplyNames(ms, ls, k - 1, gone, last, d);
      }
    }
  }

  lemma StepAddsOnly(n: Node, begin: Time, end: Time, s: Step, p: Addr)
    requires Enabled(n, begin, end, s) && p !in n.known && !HearsFrom(n, s, p)
    requires s.Receive? && s.envelope.msg.KnownPeers? ==> p !in s.envelope.msg.peers
    ensures p !in After(n, end, s).known
  {
    match s {
      case Sweep(plan) => assert p !in Swept(n, plan);
      case Receive(_, _, _, _, _, _) =>
      case ReceiveBroadcast(_, _, _, _, _, _) =>
      case _ =>
    }
  }

  lemma NotLearnedInOneStep(ms: seq<Mesh>, ls: seq<Label>, i: nat, k: nat, a: Addr,
                            gone: Addr, last: Time)
    requires IsFullRun(ms, ls) && SilentAfter(ms, ls, gone, last)
    requires i <= k < |ls| && RunDry(ms, ls, i, gone, last)
    requires a in ms[k].nodes && gone !in ms[k].nodes[a].known
    ensures a in ms[k + 1].nodes && gone !in ms[k + 1].nodes[a].known
  {
    var n, l := ms[k].nodes[a], ls[k];
    assert Linked(ms, ls, k);
    if l.Act? && l.node == a {
      assert !Hears(ms, ls, k, a, gone) by {
        assert DryStep(n, l.begin, l.step, gone, last);
      }
      if l.step.Receive? {
        NothingNames(ms, ls, i, k, gone, last, Unicast(l.step.sender, a, l.step.envelope));
      }
      StepAddsOnly(n, l.begin, l.end, l.step, gone);
    }
  }

  /** A node without the silent peer never learns of it again: whoever removes it has done so for good. */
  lemma {:induction false} EvictedForGood(ms: seq<Mesh>, ls: seq<Label>, i: nat, j: nat, k: nat,
                                          a: Addr, gone: Addr, last: Time)
    requires IsFullRun(ms, ls) && SilentAfter(ms, ls, gone, last)
    requires i <= j <= k < |ms| && RunDry(ms, ls, i, gone, last)
    requires a in ms[j].nodes && gone !in ms[j].nodes[a].known
    ensures a in ms[k].nodes && gone !in ms[k].nodes[a].known
  {
    if j < k {
      EvictedForGood(ms, ls, i, j, k - 1, a, gone, last);
      NotLearnedInOneStep(ms, ls, i, k - 1, a, gone, last);
    }
  }
}
