/**
 * Target choice counted in ticks: a silent peer is a candidate after as many ticks as peers were
 * known, and stays one; but nothing forces it to be picked unless it is the only one.
 */
module Candidates {
  import opened Basics
  import opened Types
  import opened Node
  import opened History
  import opened Window
  import opened Ticks
  import opened TickParts

  // Quiet ticks.

  /** The step leaves `p` alone, does not pick it, and takes in no list of peers. */
  ghost predicate QuietStep(n: Node, t: Timed, p: Addr) {
    LeavesAlone(n, t.step, p) && !BringsOldEntries(t.step) && (t.step.PingOne? ==> t.step.target != p)
  }

  ghost predicate QuietTick(n: Node, k: Tick, p: Addr) {
    && SilentTick(n, k, p)
    && (forall t :: t in k.heard ==> !BringsOldEntries(t.step))
    && (k.ping.Some? && k.ping.value.step.PingOne? ==> k.ping.value.step.target != p)
  }

  lemma QuietStepHolds(n: Node, t: Timed, p: Addr, since: Time)
    requires Holds(n, p, since) && CanDo(n, t) && QuietStep(n, t, p)
    ensures Holds(Do(n, t), p, since)
  {
    match t.step {
      case Sweep(plan) => assert p in Swept(n, plan);
      case _ =>
    }
  }

  /** What is kept from step to step: `p` is held, and no more than `count` peers are strictly older. */
  ghost predicate Waits(n: Node, p: Addr, since: Time, count: nat) {
    Timely(n) && Holds(n, p, since) && |StrictlyOlder(n, p)| <= count
  }

  lemma QuietStepWaits(n: Node, t: Timed, p: Addr, since: Time, count: nat)
    requires Waits(n, p, since, count) && CanDo(n, t) && QuietStep(n, t, p)
    ensures Waits(Do(n, t), p, since, count)
  {
    hide After, Enabled, StrictlyOlder, Holds, Timely, QuietStep;
    QuietStepHolds(n, t, p, since);
    StepKeepsTimely(n, t.begin, t.end, t.step);
    QuietIsNoList(n, t, p);
    NobodyBecomesOlder(n, t.begin, t.end, t.step, p, since);
    HeldIsKnown(n, p, since);
    HeldIsKnown(Do(n, t), p, since);
    SubsetCount(StrictlyOlder(Do(n, t), p), StrictlyOlder(n, p));
  }

  lemma QuietIsNoList(n: Node, t: Timed, p: Addr)
    requires QuietStep(n, t, p)
    ensures !BringsOldEntries(t.step)
  {
  }

  lemma HeldIsKnown(n: Node, p: Addr, since: Time)
    requires Holds(n, p, since)
    ensures p in n.known
  {
  }

  /** A ping of somebody else takes one strictly older peer away, as long as there are five. */
  lemma PingWaits(n: Node, t: Timed, p: Addr, since: Time, count: nat)
    requires Waits(n, p, since, count) && CanDo(n, t) && QuietStep(n, t, p) && t.step.PingOne?
    ensures Waits(Do(n, t), p, since, if count < NUM_CANDIDATE_TARGET_PEERS then count else count - 1)
  {
    hide After, Enabled, StrictlyOlder, QuietStep;
    QuietStepWaits(n, t, p, since, |StrictlyOlder(n, p)|);
    QuietStepHolds(n, t, p, since);
    PingTakesFromAhead(n, t.begin, t.end, t.step, p, since);
  }

  lemma {:induction false} ListeningWaits(n: Node, ts: seq<Timed>, p: Addr, since: Time, count: nat)
    requires Waits(n, p, since, count) && CanDoAll(n, ts) && AllLeaveAlone(n, ts, p)
    requires forall t :: t in ts ==> !BringsOldEntries(t.step) && !t.step.PingOne?
    ensures Waits(DoAll(n, ts), p, since, count)
  {
    hide After, Enabled, Waits, LeavesAlone, BringsOldEntries;
    if ts != [] {
      ListeningWaits(n, ts[..|ts| - 1], p, since, count);
      LeavingAloneIsQuiet(DoAll(n, ts[..|ts| - 1]), ts[|ts| - 1], p);
      QuietStepWaits(DoAll(n, ts[..|ts| - 1]), ts[|ts| - 1], p, since, count);
    }
  }

  lemma LeavingAloneIsQuiet(n: Node, t: Timed, p: Addr)
    requires LeavesAlone(n, t.step, p) && !BringsOldEntries(t.step) && !t.step.PingOne?
    ensures QuietStep(n, t, p)
  {
  }

  lemma LaterWaits(n: Node, m: Node, p: Addr, since: Time, count: nat)
    requires Waits(n, p, since, count) && Lags(n, m)
    ensures Waits(m, p, since, count)
  {
    assert NonSuspected(m) == NonSuspected(n);
    assert StrictlyOlder(m, p) == StrictlyOlder(n, p);
  }

  lemma WaitingIsCandidate(n: Node, p: Addr, since: Time, count: nat)
    requires Waits(n, p, since, count)
    ensures NonSuspected(n) != {} && (count < NUM_CANDIDATE_TARGET_PEERS ==> AmongOldest(n, p))
  {
  }

  /** The join and the sweep. */
  lemma SweptWaits(n: Node, k: Tick, p: Addr, since: Time, count: nat)
    requires IsTick(n, k) && Waits(n, p, since, count)
    ensures Waits(SweptNode(n, k), p, since, count)
  {
    hide After, Enabled, Waits;
    if k.join.Some? {
      BroadcastIsQuiet(n, k.join.value, p);
      QuietStepWaits(n, k.join.value, p, since, count);
    }
    SweepIsQuiet(JoinedNode(n, k), k.sweep, p);
    QuietStepWaits(JoinedNode(n, k), k.sweep, p, since, count);
  }

  lemma BroadcastIsQuiet(n: Node, t: Timed, p: Addr)
    requires t.step.BroadcastJoin?
    ensures QuietStep(n, t, p)
  {
  }

  lemma SweepIsQuiet(n: Node, t: Timed, p: Addr)
    requires t.step.Sweep?
    ensures QuietStep(n, t, p)
  {
  }

  lemma PingIsQuiet(n: Node, t: Timed, p: Addr)
    requires t.step.PingOne? && t.step.target != p
    ensures QuietStep(n, t, p)
  {
  }

  /** Every tick pings, and so takes one strictly older peer away as long as there are five. */
  lemma TickWaits(n: Node, k: Tick, p: Addr, since: Time, count: nat)
    requires IsTick(n, k) && QuietTick(n, k, p) && Waits(n, p, since, count)
    ensures Waits(EndOf(n, k), p, since, if count < NUM_CANDIDATE_TARGET_PEERS then count else count - 1)
  {
    hide After, Enabled, Waits, AllLeaveAlone, BringsOldEntries;
    var left: nat := if count < NUM_CANDIDATE_TARGET_PEERS then count else count - 1;
    SweptWaits(n, k, p, since, count);
    WaitingIsCandidate(SweptNode(n, k), p, since, count);
    PingIsQuiet(SweptNode(n, k), k.ping.value, p);
    PingWaits(SweptNode(n, k), k.ping.value, p, since, count);
    ManualPingsLeaveAlone(Pinged(n, k), k.manual, p);
    ManualBringsNothing(k.manual);
    ListeningWaits(Pinged(n, k), k.manual, p, since, left);
    ListeningWaits(Asked(n, k), k.heard, p, since, left);
  }

  lemma ManualBringsNothing(ts: seq<Timed>)
    requires forall t :: t in ts ==> t.step.ManualPing?
    ensures forall t :: t in ts ==> !BringsOldEntries(t.step) && !t.step.PingOne?
  {
  }

  /** What is left of `count` after this many ticks. */
  function Left(count: nat, ticks: nat): nat {
    if count < NUM_CANDIDATE_TARGET_PEERS then count
    else if count - ticks < NUM_CANDIDATE_TARGET_PEERS then NUM_CANDIDATE_TARGET_PEERS - 1
    else count - ticks
  }

  lemma {:induction false} TicksWait(ns: seq<Node>, ks: seq<Tick>, m: nat, p: Addr, since: Time, count: nat)
    requires AreTicks(ns, ks) && m <= |ks| && Waits(ns[0], p, since, count)
    requires forall i :: 0 <= i < m ==> QuietTick(ns[i], ks[i], p)
    ensures Waits(ns[m], p, since, Left(count, m))
  {
    hide IsTick, EndOf, Lags, QuietTick, Waits, RequiredDelay;
    if m > 0 {
      TicksWait(ns, ks, m - 1, p, since, count);
      TickWaits(ns[m - 1], ks[m - 1], p, since, Left(count, m - 1));
      LaterWaits(EndOf(ns[m - 1], ks[m - 1]), ns[m], p, since, Left(count, m));
    }
  }

  /**
   * Time-bounded completeness of target choice, in ticks: a peer that is silent, and not picked
   * in as many ticks as peers were known, less six, is a candidate in the next one. So it stays
   * one until it is picked.
   */
  lemma CandidateWithinNTicks(ns: seq<Node>, ks: seq<Tick>, m: nat, p: Addr, since: Time)
    requires AreTicks(ns, ks) && m < |ks| && Sound(ns[0]) && Holds(ns[0], p, since)
    requires forall i :: 0 <= i < m ==> QuietTick(ns[i], ks[i], p)
    requires m + 6 >= |ns[0].known|
    ensures AmongOldest(SweptNode(ns[m], ks[m]), p)
  {
    hide IsTick, QuietTick, Lags, EndOf, StrictlyOlder, RequiredDelay;
    OlderCount(ns[0], p);
    var count := |StrictlyOlder(ns[0], p)|;
    TicksWait(ns, ks, m, p, since, count);
    SweptWaits(ns[m], ks[m], p, since, Left(count, m));
    WaitingIsCandidate(SweptNode(ns[m], ks[m]), p, since, Left(count, m));
  }

  // Nothing forces the choice.

  lemma {:induction false} OldestOf(n: Node, peers: set<Addr>) returns (q: Addr)
    requires peers != {} && peers <= n.known.Keys
    ensures q in peers && forall r :: r in peers ==> n.known[q].state.since <= n.known[r].state.since
    decreases |peers|
  {
    var first :| first in peers;
    var rest := peers - {first};
    q := first;
    if rest != {} {
      var older := OldestOf(n, rest);
      if n.known[older].state.since < n.known[first].state.since {
        q := older;
      }
      forall r | r in peers
        ensures n.known[q].state.since <= n.known[r].state.since
      {
        assert r == first || r in rest;
      }
    } else {
      assert peers == {first};
    }
  }

  /** Whom the node can ping: a non-suspected peer with fewer than five others strictly older. */
  lemma TargetIff(n: Node, at: Time, p: Addr, delivered: bool)
    requires n.clock <= at
    ensures Enabled(n, at, at, PingOne(p, at, delivered)) <==>
              && p in n.known && p != n.self && n.known[p].state.Known?
              && |set q | q in n.known && q != n.self && n.known[q].state.Known?
                          && n.known[q].state.since < n.known[p].state.since| < 5
  {
    if p in n.known {
      assert StrictlyOlder(n, p) == set q | q in n.known && q != n.self && n.known[q].state.Known?
                                          && n.known[q].state.since < n.known[p].state.since;
    }
  }

  /** A peer is the only one that can be pinged if and only if it is the only non-suspected one. */
  lemma OnlyTargetIff(n: Node, at: Time, p: Addr)
    requires n.clock <= at
    ensures Enabled(n, at, at, PingOne(p, at, true))
            && (forall q :: Enabled(n, at, at, PingOne(q, at, true)) ==> q == p)
       <==> NonSuspected(n) == {p}
  {
    if NonSuspected(n) == {p} {
      assert StrictlyOlder(n, p) == {};
    } else if p in NonSuspected(n) {
      var others := NonSuspected(n) - {p};
      var q := OldestOf(n, others);
      SubsetCount(StrictlyOlder(n, q), {p});
      assert Enabled(n, at, at, PingOne(q, at, true));
    }
  }

  // A silent peer that is never pinged.

  /** The node knows itself and two more, all Known; and it need not announce itself again. */
  ghost predicate IsTrio(n: Node, p: Addr, q: Addr, since: Time) {
    && n.self != p && n.self != q && p != q
    && n.known.Keys == {n.self, p, q} && n.lastBroadcast.Some?
    && (forall r :: r in n.known ==> n.known[r].state.Known?)
    && n.known[p].state.since == since
  }

  /** A tick at one instant: `q` is pinged and answers, and nothing else happens. */
  ghost function TickAt(n: Node, p: Addr, q: Addr, at: Time): Tick
    requires q in n.known
  {
    var plan := SweepPlan([n.self, p, q], map[], map[], map[]);
    var readings := map r | r in n.known :: at;
    var answer := SwimEnvelope(n.known[q].identity, Ack(q, 0, 3));
    Tick(at, at, None, Timed(at, at, Sweep(plan)), Some(Timed(at, at, PingOne(q, at, true))), [], at,
         [Timed(at, at, Receive(q, answer, at, at, None, readings))])
  }

  lemma TrioSize(n: Node, p: Addr, q: Addr, since: Time)
    requires IsTrio(n, p, q, since)
    ensures |n.known| == 3 && NonSuspected(n) == {p, q} && AmongOldest(n, q)
  {
    assert |n.known| == |n.known.Keys| == |{n.self, p, q}|;
    SubsetCount(StrictlyOlder(n, q), {p});
  }

  lemma TrioSwept(n: Node, p: Addr, q: Addr, since: Time, at: Time)
    requires IsTrio(n, p, q, since) && n.clock <= at
    ensures var k := TickAt(n, p, q, at);
            && CanDo(n, k.sweep) && Do(n, k.sweep) == n.(clock := at)
  {
    var plan := TickAt(n, p, q, at).sweep.step.plan;
    assert Elements(plan.order) == n.known.Keys;
    assert Swept(n, plan) == n.known && EvictedPeers(n, plan) == {};
  }

  lemma TrioAnswered(n: Node, p: Addr, q: Addr, since: Time, at: Time)
    requires IsTrio(n, p, q, since) && n.clock == at
    ensures var k := TickAt(n, p, q, at);
            var pinged := Do(n, k.ping.value);
            && CanDo(n, k.ping.value) && CanDo(pinged, k.heard[0])
            && IsTrio(Do(pinged, k.heard[0]), p, q, since) && Do(pinged, k.heard[0]).clock == at
            && Do(pinged, k.heard[0]).self == n.self
            && LeavesAlone(pinged, k.heard[0].step, p)
  {
    TrioSize(n, p, q, since);
  }

  lemma OneHeard(n: Node, t: Timed, p: Addr)
    ensures CanDoAll(n, [t]) <==> CanDo(n, t)
    ensures DoAll(n, [t]) == Do(n, t)
    ensures AllLeaveAlone(n, [t], p) <==> !t.step.Sweep? && LeavesAlone(n, t.step, p)
  {
    assert [t][..0] == [];
    assert CanDoAll(n, []) && DoAll(n, []) == n && AllLeaveAlone(n, [], p);
  }

  /** The parts of the tick, one after the other. */
  lemma TrioParts(n: Node, p: Addr, q: Addr, since: Time, at: Time)
    requires IsTrio(n, p, q, since) && n.clock <= at
    ensures var k := TickAt(n, p, q, at);
            var m := n.(clock := at);
            && JoinedNode(n, k) == n && SweptNode(n, k) == m
            && Pinged(n, k) == Do(m, k.ping.value) && Asked(n, k) == Pinged(n, k)
            && EndOf(n, k) == Do(Pinged(n, k), k.heard[0])
  {
    var k := TickAt(n, p, q, at);
    TrioSwept(n, p, q, since, at);
    hide Do, AllLeaveAlone;
    OneHeard(Asked(n, k), k.heard[0], p);
  }

  lemma TrioTick(n: Node, p: Addr, q: Addr, since: Time, at: Time)
    requires IsTrio(n, p, q, since) && n.clock <= at
    ensures var k := TickAt(n, p, q, at);
            && IsTick(n, k) && SilentTick(n, k, p)
            && IsTrio(EndOf(n, k), p, q, since) && EndOf(n, k).clock == at && EndOf(n, k).self == n.self
  {
    hide After, Enabled, LeavesAlone, NonSuspected, AmongOldest, JoinedNode, SweptNode, Pinged, Asked, EndOf,
      IsTrio, JoinDue;
    TrioReady(n, p, q, since, at);
    var k := TickAt(n, p, q, at);
    var m := n.(clock := at);
    TrioSwept(n, p, q, since, at);
    TrioAnswered(m, p, q, since, at);
    TrioParts(n, p, q, since, at);
    OneHeard(Do(m, k.ping.value), k.heard[0], p);
    StepKeepsConstants(m, at, at, k.ping.value.step);
    assert CanDoAll(Pinged(n, k), []);
  }

  lemma TrioReady(n: Node, p: Addr, q: Addr, since: Time, at: Time)
    requires IsTrio(n, p, q, since)
    ensures IsTrio(n.(clock := at), p, q, since) && q in n.known
    ensures !JoinDue(n, at) && NonSuspected(n.(clock := at)) != {}
  {
    TrioSize(n, p, q, since);
    TrioSize(n.(clock := at), p, q, since);
  }

  lemma TickAtShape(n: Node, p: Addr, q: Addr, at: Time)
    requires q in n.known
    ensures var k := TickAt(n, p, q, at);
            && k.start == at == k.measured && RequiredDelay(k.start, k.measured) == PROTOCOL_PERIOD
            && k.ping.Some? && k.ping.value.step == PingOne(q, at, true)
  {
  }

  lemma LastTick(k: Tick)
    requires k.start == k.measured
    ensures RequiredDelay(k.start, k.measured) == PROTOCOL_PERIOD
  {
  }

  lemma TrioHolds(n: Node, p: Addr, q: Addr, since: Time)
    requires IsTrio(n, p, q, since)
    ensures Holds(n, p, since) && q in n.known
  {
    assert n.known[p].state == Known(since);
  }

  /**
   * The time until a silent peer is pinged is unbounded: of two candidates, the one that answers
   * can be picked in every one of any number of ticks.
   */
  lemma {:induction false} NeverPinged(n: Node, p: Addr, q: Addr, since: Time, count: nat)
    returns (ns: seq<Node>, ks: seq<Tick>)
    requires IsTrio(n, p, q, since)
    ensures |ks| == count && AreTicks(ns, ks) && ns[0] == n
    ensures forall i :: 0 <= i < count ==>
              && SilentTick(ns[i], ks[i], p)
              && ks[i].ping.Some? && ks[i].ping.value.step == PingOne(q, ks[i].start, true)
    ensures forall i :: 0 <= i <= count ==> Holds(ns[i], p, since)
    ensures IsTrio(ns[count], p, q, since)
    ensures count > 0 ==> ns[count].clock == ks[count - 1].start == ks[count - 1].measured
  {
    hide IsTrio, IsTick, SilentTick, EndOf, TickAt, Holds, RequiredDelay;
    TrioHolds(n, p, q, since);
    if count == 0 {
      ns, ks := [n], [];
      NoTicks(n);
    } else {
      ns, ks := NeverPinged(n, p, q, since, count - 1);
      var last := ns[count - 1];
      var at := last.clock + PROTOCOL_PERIOD;
      TrioHolds(last, p, q, since);
      var k := TickAt(last, p, q, at);
      TrioTick(last, p, q, since, at);
      TrioHolds(EndOf(last, k), p, q, since);
      TickAtShape(last, p, q, at);
      if count > 1 {
        LastTick(ks[count - 2]);
      }
      OneMoreTick(ns, ks, k, EndOf(last, k));
      ns, ks := ns + [EndOf(last, k)], ks + [k];
    }
  }
}
