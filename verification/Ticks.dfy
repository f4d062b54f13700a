/**
 * The ticks of one node: which subtasks a tick runs, in which order and for how long it listens;
 * and that a silent peer is gone within six ticks of being pinged.
 */
module Ticks {
  import opened Basics
  import opened Types
  import opened Node
  import opened History

  datatype Tick = Tick(
    start: Time,
    joinRead: Time,
    join: Option<Timed>,
    sweep: Timed,
    ping: Option<Timed>,
    manual: seq<Timed>,
    measured: Time,  // when the time left for listening was computed
    heard: seq<Timed>
  )

  ghost function DoAll(n: Node, ts: seq<Timed>): Node {
    if ts == [] then n else Do(DoAll(n, ts[..|ts| - 1]), ts[|ts| - 1])
  }

  ghost predicate CanDoAll(n: Node, ts: seq<Timed>) {
    ts == [] || (CanDoAll(n, ts[..|ts| - 1]) && CanDo(DoAll(n, ts[..|ts| - 1]), ts[|ts| - 1]))
  }

  /** What these steps try to send, one after the other. */
  ghost function AllAttempts(n: Node, ts: seq<Timed>): seq<Datagram> {
    if ts == [] then []
    else AllAttempts(n, ts[..|ts| - 1]) + Attempts(DoAll(n, ts[..|ts| - 1]), ts[|ts| - 1].step)
  }

  /**
   * From `n` to `n'` by these steps, having sent what `made` says: all that they try to send, or,
   * when the last of them was cut short, the part of it before the cut.
   */
  ghost predicate Did(n: Node, n': Node, done: seq<Timed>, made: seq<Datagram>, finished: bool) {
    && CanDoAll(n, done) && n' == DoAll(n, done)
    && made <= AllAttempts(n, done) && (finished ==> made == AllAttempts(n, done))
  }

  lemma DidNothing(n: Node)
    ensures Did(n, n, [], [], true)
  {
  }

  lemma DidAtMost(n: Node, n': Node, done: seq<Timed>, made: seq<Datagram>, finished: bool)
    requires Did(n, n', done, made, finished)
    ensures Did(n, n', done, made, false)
  {
  }

  lemma DidOne(n: Node, t: Timed, made: seq<Datagram>, finished: bool)
    requires CanDo(n, t) && made <= Attempts(n, t.step) && (finished ==> made == Attempts(n, t.step))
    ensures Did(n, Do(n, t), [t], made, finished)
  {
    assert [t][..0] == [];
    assert CanDoAll(n, []) && DoAll(n, []) == n && AllAttempts(n, []) == [];
  }

  lemma {:induction false} StepsInTurn(n: Node, first: seq<Timed>, second: seq<Timed>)
    ensures DoAll(n, first + second) == DoAll(DoAll(n, first), second)
    ensures CanDoAll(n, first + second) <==> CanDoAll(n, first) && CanDoAll(DoAll(n, first), second)
    ensures AllAttempts(n, first + second) == AllAttempts(n, first) + AllAttempts(DoAll(n, first), second)
  {
    hide After, Enabled, Attempts;
    if second == [] {
      assert first + second == first;
    } else {
      var all := first + second;
      assert all[..|all| - 1] == first + second[..|second| - 1];
      StepsInTurn(n, first, second[..|second| - 1]);
    }
  }

  lemma DidMore(n: Node, n': Node, n'': Node, first: seq<Timed>, made: seq<Datagram>,
                second: seq<Timed>, more: seq<Datagram>, finished: bool)
    requires Did(n, n', first, made, true) && Did(n', n'', second, more, finished)
    ensures Did(n, n'', first + second, made + more, finished)
  {
    StepsInTurn(n, first, second);
  }

  /** `m` is `n` at a later reading of the clock. */
  ghost predicate Lags(n: Node, m: Node) {
    n.clock <= m.clock && m == n.(clock := m.clock)
  }

  ghost function DoIfAny(n: Node, t: Option<Timed>): Node {
    if t.Some? then Do(n, t.value) else n
  }

  /** How long a tick listens: what is left of the period, but never less than the minimum. */
  function RequiredDelay(start: Time, measured: Time): nat {
    var left := if Elapsed(measured, start) <= PROTOCOL_PERIOD
                then PROTOCOL_PERIOD - Elapsed(measured, start) else 0;
    if left < MIN_LISTEN then MIN_LISTEN else left
  }

  ghost function JoinedNode(n: Node, k: Tick): Node {
    DoIfAny(n, k.join)
  }

  ghost function SweptNode(n: Node, k: Tick): Node {
    Do(JoinedNode(n, k), k.sweep)
  }

  ghost function Pinged(n: Node, k: Tick): Node {
    DoIfAny(SweptNode(n, k), k.ping)
  }

  ghost function Asked(n: Node, k: Tick): Node {
    DoAll(Pinged(n, k), k.manual)
  }

  ghost function EndOf(n: Node, k: Tick): Node {
    DoAll(Asked(n, k), k.heard)
  }

  /** The steps of a tick, in order. */
  ghost function StepsOf(k: Tick): seq<Timed> {
    Early(k) + k.heard
  }

  /** Those before listening. */
  ghost function Early(k: Tick): seq<Timed> {
    Optional(k.join) + [k.sweep] + Optional(k.ping) + k.manual
  }

  ghost function Optional(t: Option<Timed>): seq<Timed> {
    if t.Some? then [t.value] else []
  }

  ghost predicate Within(t: Timed, begin: Time, end: Time) {
    begin <= t.begin && t.end <= end
  }

  ghost predicate Listens(s: Step) {
    s.Receive? || s.ReceiveBroadcast?
  }

  ghost predicate IsTick(n: Node, k: Tick) {
    && n.clock <= k.start <= k.joinRead
    && (k.join.Some? <==> JoinDue(n, k.joinRead))
    && (k.join.Some? ==>
          k.join.value.step == BroadcastJoin(k.joinRead) && CanDo(n, k.join.value)
          && Within(k.join.value, k.start, k.measured))
    && k.sweep.step.Sweep? && CanDo(JoinedNode(n, k), k.sweep) && Within(k.sweep, k.start, k.measured)
    && (k.ping.None? <==> NonSuspected(SweptNode(n, k)) == {})
    && (k.ping.Some? ==>
          k.ping.value.step.PingOne? && CanDo(SweptNode(n, k), k.ping.value)
          && Within(k.ping.value, k.start, k.measured))
    && CanDoAll(Pinged(n, k), k.manual)
    && (forall t :: t in k.manual ==> t.step.ManualPing? && Within(t, k.start, k.measured))
    && Asked(n, k).clock <= k.measured
    && CanDoAll(Asked(n, k), k.heard)
    && (forall t :: t in k.heard ==> Listens(t.step) && k.measured <= t.begin)
  }

  /** Consecutive ticks of one node, each starting only after the one before has listened long enough. */
  ghost predicate AreTicks(ns: seq<Node>, ks: seq<Tick>) {
    && |ns| == |ks| + 1
    && (forall i :: 0 <= i < |ks| ==> IsTick(ns[i], ks[i]) && Lags(EndOf(ns[i], ks[i]), ns[i + 1]))
    && (forall i :: 0 < i < |ks| ==>
          ks[i].start >= ks[i - 1].measured + RequiredDelay(ks[i - 1].start, ks[i - 1].measured))
  }

  // A silent peer.

  /** The step neither hears from `p` nor accepts a report that it failed. */
  ghost predicate LeavesAlone(n: Node, s: Step, p: Addr) {
    && !HearsFrom(n, s, p)
    && !(s.ReceiveBroadcast? && s.handled && s.broadcast == Failed(p) && s.source in n.known)
  }

  /** None of the steps sweeps, and all leave `p` alone. */
  ghost predicate AllLeaveAlone(n: Node, ts: seq<Timed>, p: Addr) {
    ts == []
    || (var front, t := ts[..|ts| - 1], ts[|ts| - 1];
        AllLeaveAlone(n, front, p) && !t.step.Sweep? && LeavesAlone(DoAll(n, front), t.step, p))
  }

  ghost predicate SilentTick(n: Node, k: Tick, p: Addr) {
    AllLeaveAlone(Asked(n, k), k.heard, p)
  }

  lemma {:induction false} ManualPingsLeaveAlone(n: Node, ts: seq<Timed>, p: Addr)
    requires forall t :: t in ts ==> t.step.ManualPing?
    ensures AllLeaveAlone(n, ts, p)
  {
    if ts != [] {
      ManualPingsLeaveAlone(n, ts[..|ts| - 1], p);
    }
  }

  ghost predicate Waiting(n: Node, p: Addr) {
    p in n.known && !n.known[p].state.Known?
  }

  lemma WaitingUntouched(n: Node, t: Timed, p: Addr)
    requires Waiting(n, p) && CanDo(n, t) && !t.step.Sweep? && LeavesAlone(n, t.step, p)
    ensures Waiting(Do(n, t), p) && Do(n, t).known[p] == n.known[p]
  {
  }

  lemma {:induction false} WaitingUntouchedByAll(n: Node, ts: seq<Timed>, p: Addr)
    requires Waiting(n, p) && CanDoAll(n, ts)
    requires AllLeaveAlone(n, ts, p)
    ensures Waiting(DoAll(n, ts), p) && DoAll(n, ts).known[p] == n.known[p]
  {
    if ts != [] {
      WaitingUntouchedByAll(n, ts[..|ts| - 1], p);
      WaitingUntouched(DoAll(n, ts[..|ts| - 1]), ts[|ts| - 1], p);
    }
  }

  ghost predicate ExpiresIn(n: Node, k: Tick, p: Addr)
    requires k.sweep.step.Sweep?
  {
    Expired(JoinedNode(n, k), k.sweep.step.plan, p)
  }

  lemma JoinTouchesNobody(n: Node, k: Tick)
    requires IsTick(n, k)
    ensures JoinedNode(n, k).known == n.known && JoinedNode(n, k).self == n.self
  {
  }

  /** After the sweep, a tick leaves a waiting silent peer as it is. */
  lemma RestOfTick(n: Node, k: Tick, p: Addr)
    requires IsTick(n, k) && SilentTick(n, k, p) && Waiting(SweptNode(n, k), p)
    ensures Waiting(EndOf(n, k), p) && EndOf(n, k).known[p] == SweptNode(n, k).known[p]
  {
    if k.ping.Some? {
      WaitingUntouched(SweptNode(n, k), k.ping.value, p);
    }
    ManualPingsLeaveAlone(Pinged(n, k), k.manual, p);
    WaitingUntouchedByAll(Pinged(n, k), k.manual, p);
    WaitingUntouchedByAll(Asked(n, k), k.heard, p);
  }

  lemma SweepSparesUnexpired(n: Node, t: Timed, p: Addr)
    requires Waiting(n, p) && CanDo(n, t) && t.step.Sweep? && !Expired(n, t.step.plan, p)
    ensures Waiting(Do(n, t), p) && Do(n, t).known[p] == n.known[p]
    ensures t.begin < n.known[p].state.since + PING_TIMEOUT
  {
    assert p in Swept(n, t.step.plan);
  }

  lemma SweepEvicts(n: Node, t: Timed, p: Addr)
    requires Waiting(n, p) && CanDo(n, t) && t.step.Sweep? && Expired(n, t.step.plan, p)
    ensures p in Do(n, t).known ==>
              && n.known[p].state.WaitingForPing? && Waiting(Do(n, t), p)
              && Do(n, t).known[p].state.WaitingForIndirectPing?
              && Do(n, t).known[p].state.since <= t.end
  {
    if p in Do(n, t).known {
      assert p in Swept(n, t.step.plan);
    }
  }

  /** Consecutive ticks: the starts are a period apart, and later than what was stamped before. */
  lemma TickTimes(ns: seq<Node>, ks: seq<Tick>, i: nat)
    requires AreTicks(ns, ks) && i + 1 < |ks|
    ensures ks[i + 1].start >= ks[i].start + PROTOCOL_PERIOD
    ensures ks[i + 1].start >= ks[i].measured + MIN_LISTEN
    ensures IsTick(ns[i], ks[i])
  {
    assert IsTick(ns[i], ks[i]);
    assert ks[i].start <= ks[i].measured;
  }

  lemma UnexpiredTick(ns: seq<Node>, ks: seq<Tick>, i: nat, p: Addr)
    requires AreTicks(ns, ks) && i < |ks| && SilentTick(ns[i], ks[i], p)
    requires Waiting(ns[i], p) && !ExpiresIn(ns[i], ks[i], p)
    ensures Waiting(ns[i + 1], p) && ns[i + 1].known[p] == ns[i].known[p]
    ensures ks[i].start < ns[i].known[p].state.since + PING_TIMEOUT
  {
    assert IsTick(ns[i], ks[i]);
    JoinTouchesNobody(ns[i], ks[i]);
    SweepSparesUnexpired(JoinedNode(ns[i], ks[i]), ks[i].sweep, p);
    RestOfTick(ns[i], ks[i], p);
  }

  /** A wait that began before a tick started is over in that tick or one of the next two. */
  lemma WaitRunsOut(ns: seq<Node>, ks: seq<Tick>, i: nat, p: Addr) returns (d: nat)
    requires AreTicks(ns, ks) && i + 2 < |ks| && Waiting(ns[i], p)
    requires ns[i].known[p].state.since <= ks[i].start
    requires forall j :: i <= j <= i + 2 ==> SilentTick(ns[j], ks[j], p)
    ensures i <= d <= i + 2 && Waiting(ns[d], p) && ns[d].known[p] == ns[i].known[p]
    ensures ExpiresIn(ns[d], ks[d], p)
  {
    d := i;
    TickTimes(ns, ks, i);
    TickTimes(ns, ks, i + 1);
    if !ExpiresIn(ns[i], ks[i], p) {
      UnexpiredTick(ns, ks, i, p);
      d := i + 1;
      if !ExpiresIn(ns[d], ks[d], p) {
        UnexpiredTick(ns, ks, d, p);
        d := i + 2;
        if !ExpiresIn(ns[d], ks[d], p) {
          UnexpiredTick(ns, ks, d, p);
        }
      }
    }
  }

  /** What the sweep of a tick does to a peer whose wait is over. */
  lemma ExpiredTick(ns: seq<Node>, ks: seq<Tick>, d: nat, p: Addr)
    requires AreTicks(ns, ks) && d + 1 < |ks| && SilentTick(ns[d], ks[d], p)
    requires Waiting(ns[d], p) && ExpiresIn(ns[d], ks[d], p)
    requires p in SweptNode(ns[d], ks[d]).known
    ensures ns[d].known[p].state.WaitingForPing?
    ensures Waiting(ns[d + 1], p) && ns[d + 1].known[p].state.WaitingForIndirectPing?
    ensures ns[d + 1].known[p].state.since <= ks[d + 1].start
  {
    TickTimes(ns, ks, d);
    JoinTouchesNobody(ns[d], ks[d]);
    SweepEvicts(JoinedNode(ns[d], ks[d]), ks[d].sweep, p);
    RestOfTick(ns[d], ks[d], p);
  }

  /** Being pinged makes a peer wait from then on. */
  lemma PingedPeerWaits(ns: seq<Node>, ks: seq<Tick>, p: Addr)
    requires AreTicks(ns, ks) && |ks| > 1 && SilentTick(ns[0], ks[0], p)
    requires ks[0].ping.Some? && ks[0].ping.value.step.PingOne?
    requires ks[0].ping.value.step.target == p && ks[0].ping.value.step.delivered
    ensures Waiting(ns[1], p) && ns[1].known[p].state.since <= ks[1].start
  {
    hide SyncRequest, Shareable, Merged, WithObserver, AfterReceive, AfterSweep, ValidPlan, JoinDue;
    TickTimes(ns, ks, 0);
    var n, k := ns[0], ks[0];
    assert Waiting(Pinged(n, k), p);
    ManualPingsLeaveAlone(Pinged(n, k), k.manual, p);
    WaitingUntouchedByAll(Pinged(n, k), k.manual, p);
    WaitingUntouchedByAll(Asked(n, k), k.heard, p);
  }

  /**
   * Bounded detection: a peer pinged in a tick and silent since is gone after the sweep of one of
   * the next six ticks, however long the ticks take.
   */
  lemma SilentPeerRemovedWithinSixTicks(ns: seq<Node>, ks: seq<Tick>, p: Addr) returns (j: nat)
    requires AreTicks(ns, ks) && |ks| == 7
    requires ks[0].ping.Some? && ks[0].ping.value.step.PingOne?
    requires ks[0].ping.value.step.target == p && ks[0].ping.value.step.delivered
    requires forall i :: 0 <= i < |ks| ==> SilentTick(ns[i], ks[i], p)
    ensures 1 <= j <= 6 && p !in SweptNode(ns[j], ks[j]).known
  {
    PingedPeerWaits(ns, ks, p);
    j := WaitRunsOut(ns, ks, 1, p);
    if p in SweptNode(ns[j], ks[j]).known {
      ExpiredTick(ns, ks, j, p);
      j := WaitRunsOut(ns, ks, j + 1, p);
      assert IsTick(ns[j], ks[j]);
      JoinTouchesNobody(ns[j], ks[j]);
      SweepEvicts(JoinedNode(ns[j], ks[j]), ks[j].sweep, p);
    }
  }
}
