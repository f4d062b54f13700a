/**
 * Where suspicion comes from. A peer that a run finds waiting was pinged, or demoted, at an
 * earlier step, and has not been heard since; so nobody is timed out too early.
 */
module History {
  import opened Basics
  import opened Types
  import opened Node
  import opened Mesh

  /** The steps that reset suspicion of `p`: a datagram from it, or a Join for it. */
  ghost predicate HearsFrom(n: Node, s: Step, p: Addr) {
    || (s.Receive? && s.sender == p)
    || (s.ReceiveBroadcast? && s.handled && s.broadcast.Join? && s.broadcast.addr == p && p != n.self)
  }

  ghost predicate Hears(ms: seq<Mesh>, ls: seq<Label>, j: nat, a: Addr, p: Addr)
    requires j < |ls| && j < |ms|
  {
    && ls[j].Act? && ls[j].node == a && a in ms[j].nodes
    && HearsFrom(ms[j].nodes[a], ls[j].step, p)
  }

  ghost predicate Pings(l: Label, a: Addr, p: Addr) {
    l.Act? && l.node == a && l.step.PingOne? && l.step.target == p
  }

  ghost predicate Sweeps(l: Label, a: Addr) {
    l.Act? && l.node == a && l.step.Sweep?
  }

  /** One step: a waiting peer was just pinged or demoted, or was waiting before and not heard. */
  lemma WaitingOrigin(n: Node, begin: Time, end: Time, s: Step, p: Addr)
    requires Enabled(n, begin, end, s) && p in After(n, end, s).known
    ensures var state := After(n, end, s).known[p].state;
            var kept := p in n.known && n.known[p].state == state && !HearsFrom(n, s, p);
            && (state.WaitingForPing? ==>
                  kept || (s.PingOne? && s.target == p && s.delivered && s.stamp == state.since))
            && (state.WaitingForIndirectPing? ==>
                  kept || (s.Sweep? && Demoted(n, s.plan, p) && s.plan.stamps[p] == state.since))
  {
    match s {
      case Sweep(plan) =>
        hide ValidHelpers, Requests, Shareable, WithObserver;
        assert p in Swept(n, plan);
      case Receive(_, _, _, _, _, _) =>
        hide ValidPlan, Swept, EvictedPeers, WithObserver, NonSuspected, AmongOldest;
      case ReceiveBroadcast(_, _, _, _, _, _) =>
        hide ValidPlan, Swept, EvictedPeers, WithObserver, NonSuspected, AmongOldest, Merged, Heard;
      case _ =>
        hide ValidPlan, Swept, EvictedPeers, WithObserver, Merged, Heard;
    }
  }

  /**
   * Suspicion is cleared by a datagram from the suspect or a Join for it, and by nothing else: a
   * forwarded Ack about it, which comes from the relay, does not do it.
   */
  lemma SuspicionClearedIff(n: Node, begin: Time, end: Time, s: Step, p: Addr)
    requires Enabled(n, begin, end, s) && p in n.known && !n.known[p].state.Known?
    ensures p in After(n, end, s).known && After(n, end, s).known[p].state.Known? <==> HearsFrom(n, s, p)
  {
    match s {
      case Sweep(plan) =>
        assert p in Swept(n, plan) ==> !Swept(n, plan)[p].state.Known?;
      case Receive(_, _, _, _, _, _) =>
        hide ValidPlan, Swept, EvictedPeers, WithObserver, NonSuspected, AmongOldest;
        assert p in Heard(n, s.sender, s.envelope.identity, s.stamp, s.measured).known;
      case ReceiveBroadcast(_, _, _, _, _, _) =>
      case _ =>
    }
  }

  ghost predicate Awaiting(ms: seq<Mesh>, k: nat, a: Addr, p: Addr)
    requires k < |ms|
  {
    a in ms[k].nodes && p in ms[k].nodes[a].known && !ms[k].nodes[a].known[p].state.Known?
  }

  ghost function StateOf(ms: seq<Mesh>, k: nat, a: Addr, p: Addr): PeerState
    requires k < |ms| && Awaiting(ms, k, a, p)
  {
    ms[k].nodes[a].known[p].state
  }

  /** The step that put a waiting peer into its state, with nothing heard from it since. */
  ghost predicate IsOrigin(ms: seq<Mesh>, ls: seq<Label>, i: nat, k: nat, a: Addr, p: Addr)
    requires IsRun(ms, ls) && i < k < |ms| && Awaiting(ms, k, a, p)
  {
    var state := StateOf(ms, k, a, p);
    && a in ms[i].nodes
    && (state.WaitingForPing? ==>
          Pings(ls[i], a, p) && ls[i].step.delivered && ls[i].step.stamp == state.since)
    && (state.WaitingForIndirectPing? ==>
          && Sweeps(ls[i], a) && Demoted(ms[i].nodes[a], ls[i].step.plan, p)
          && p in ls[i].step.plan.stamps && ls[i].step.plan.stamps[p] == state.since)
    && (forall j :: i < j < k ==> !Hears(ms, ls, j, a, p))
  }

  lemma InitAwaitsNobody(ms: seq<Mesh>, a: Addr, p: Addr)
    requires ms != [] && Init(ms[0])
    ensures !Awaiting(ms, 0, a, p)
  {
    if a in ms[0].nodes {
      assert Fresh(ms[0].nodes[a], a);
    }
  }

  ghost predicate StillWaiting(ms: seq<Mesh>, ls: seq<Label>, k: nat, a: Addr, p: Addr)
    requires k + 1 < |ms| == |ls| + 1 && Awaiting(ms, k + 1, a, p)
  {
    && Awaiting(ms, k, a, p) && StateOf(ms, k, a, p) == StateOf(ms, k + 1, a, p)
    && !Hears(ms, ls, k, a, p)
  }

  lemma OriginStep(ms: seq<Mesh>, ls: seq<Label>, k: nat, a: Addr, p: Addr)
    requires IsRun(ms, ls) && k < |ls| && Awaiting(ms, k + 1, a, p)
    ensures StillWaiting(ms, ls, k, a, p) || IsOrigin(ms, ls, k, k + 1, a, p)
  {
    var l := ls[k];
    assert Linked(ms, ls, k);
    if l.Act? && l.node == a {
      WaitingOrigin(ms[k].nodes[a], l.begin, l.end, l.step, p);
    }
  }

  lemma {:induction false} OriginOf(ms: seq<Mesh>, ls: seq<Label>, k: nat, a: Addr, p: Addr)
    returns (i: nat)
    requires IsFullRun(ms, ls) && k < |ms| && Awaiting(ms, k, a, p)
    ensures i < k && IsOrigin(ms, ls, i, k, a, p)
  {
    InitAwaitsNobody(ms, a, p);
    OriginStep(ms, ls, k - 1, a, p);
    if StillWaiting(ms, ls, k - 1, a, p) {
      i := OriginOf(ms, ls, k - 1, a, p);
    } else {
      i := k - 1;
    }
  }

  /** A node's steps are ordered by its clock. */
  lemma StepsInOrder(ms: seq<Mesh>, ls: seq<Label>, j: nat, k: nat, a: Addr)
    requires IsRun(ms, ls) && j < k < |ls|
    requires ls[j].Act? && ls[j].node == a && ls[k].Act? && ls[k].node == a
    ensures ls[j].end <= ls[k].begin
  {
    hide AfterReceive, AfterSweep, AfterBroadcast, ValidPlan, JoinDue, AmongOldest, Attempts, Owners;
    assert Linked(ms, ls, j);
    assert Linked(ms, ls, k);
    RunKeepsNodes(ms, ls, j + 1, k);
  }

  lemma HeardBefore(ms: seq<Mesh>, ls: seq<Label>, j: nat, i: nat, a: Addr, p: Addr)
    requires IsRun(ms, ls) && j < i < |ls|
    requires Hears(ms, ls, j, a, p) && ls[i].Act? && ls[i].node == a
    ensures ls[j].step.stamp <= ls[i].begin
  {
    assert Linked(ms, ls, j);
    StepsInOrder(ms, ls, j, i, a);
  }

  /** When a waiting peer was pinged, everything heard from it by then had been heard before. */
  lemma HeardBeforePing(ms: seq<Mesh>, ls: seq<Label>, j: nat, k: nat, a: Addr, p: Addr)
    requires IsFullRun(ms, ls) && j < k < |ms| && Awaiting(ms, k, a, p)
    requires StateOf(ms, k, a, p).WaitingForPing? && Hears(ms, ls, j, a, p)
    ensures ls[j].step.stamp <= StateOf(ms, k, a, p).since
  {
    var i := OriginOf(ms, ls, k, a, p);
    assert Linked(ms, ls, i);
    assert j != i && !(i < j);
    HeardBefore(ms, ls, j, i, a, p);
  }

  /**
   * No premature timeout, in any run: a peer evicted after an indirect ping has been silent for
   * two timeouts of two seconds, and one evicted straight after a ping for one, with nobody left to ask.
   */
  lemma NoPrematureTimeout(ms: seq<Mesh>, ls: seq<Label>, j: nat, k: nat, a: Addr, p: Addr)
    requires IsFullRun(ms, ls) && j < k < |ls|
    requires Sweeps(ls[k], a) && a in ms[k].nodes && Evicted(ms[k].nodes[a], ls[k].step.plan, p)
    requires Hears(ms, ls, j, a, p)
    ensures StateOf(ms, k, a, p).WaitingForIndirectPing? ==>
              ls[k].step.plan.readings[p] - ls[j].step.stamp >= 4000
    ensures StateOf(ms, k, a, p).WaitingForPing? ==>
              && ls[k].step.plan.readings[p] - ls[j].step.stamp >= 2000
              && NonSuspected(ms[k].nodes[a]) == {}
  {
    if StateOf(ms, k, a, p).WaitingForPing? {
      HeardBeforePing(ms, ls, j, k, a, p);
    } else {
      var d := OriginOf(ms, ls, k, a, p);
      assert Linked(ms, ls, d);
      assert j != d && !(d < j);
      HeardBeforePing(ms, ls, j, d, a, p);
    }
  }
}
