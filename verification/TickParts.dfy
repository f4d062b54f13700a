/**
 * Why a tick run as a sequence of calls is a tick: the clock may move on between two steps, and
 * nothing but the bounds on later readings depends on it.
 */
module TickParts {
  import opened Basics
  import opened Types
  import opened Node
  import opened Receipts
  import opened Ticks

  lemma {:induction false} SweepListsLag(n: Node, m: Node, plan: SweepPlan, order: seq<Addr>)
    requires Lags(n, m)
    ensures Requests(n, plan, order) == Requests(m, plan, order)
    ensures EvictedIn(n, plan, order) == EvictedIn(m, plan, order)
  {
    if order != [] {
      var p := order[|order| - 1];
      SweepListsLag(n, m, plan, order[..|order| - 1]);
      assert Demoted(n, plan, p) <==> Demoted(m, plan, p);
      if Demoted(n, plan, p) && p in plan.helpers {
        RequestsToLag(n, m, p, plan.helpers[p]);
      }
    }
  }

  lemma {:induction false} RequestsToLag(n: Node, m: Node, suspect: Addr, helpers: seq<Addr>)
    requires Lags(n, m)
    ensures RequestsTo(n, suspect, helpers) == RequestsTo(m, suspect, helpers)
  {
    if helpers != [] {
      RequestsToLag(n, m, suspect, helpers[..|helpers| - 1]);
    }
  }

  lemma SweepLags(n: Node, m: Node, begin: Time, end: Time, plan: SweepPlan)
    requires Lags(n, m) && ValidPlan(m, begin, end, plan)
    ensures ValidPlan(n, begin, end, plan)
    ensures AfterSweep(n, plan).(clock := end) == AfterSweep(m, plan).(clock := end)
  {
    assert NonSuspected(n) == NonSuspected(m);
    assert forall p :: (Demoted(n, plan, p) <==> Demoted(m, plan, p)) && (Evicted(n, plan, p) <==> Evicted(m, plan, p));
    assert EvictedPeers(n, plan) == EvictedPeers(m, plan);
    assert Swept(n, plan) == Swept(m, plan);
  }

  /** A step that can be done now could have been done at any earlier reading, to the same effect. */
  lemma LagDo(n: Node, m: Node, t: Timed)
    requires Lags(n, m) && CanDo(m, t)
    ensures CanDo(n, t) && Do(n, t) == Do(m, t) && Attempts(n, t.step) == Attempts(m, t.step)
  {
    match t.step {
      case Sweep(plan) =>
        hide Swept, Requests, EvictedIn, ValidPlan, AfterSweep;
        SweepLags(n, m, t.begin, t.end, plan);
        SweepListsLag(n, m, plan, plan.order);
      case PingOne(target, _, _) =>
        assert NonSuspected(n) == NonSuspected(m);
        assert StrictlyOlder(n, target) == StrictlyOlder(m, target);
      case Receive(sender, envelope, stamp, measured, _, _) =>
        hide Replies, AfterMessage;
        assert Heard(n, sender, envelope.identity, stamp, measured)
            == Heard(m, sender, envelope.identity, stamp, measured);
      case _ =>
    }
  }

  lemma {:induction false} LagDoAll(n: Node, m: Node, ts: seq<Timed>)
    requires Lags(n, m) && CanDoAll(m, ts)
    ensures CanDoAll(n, ts) && Lags(DoAll(n, ts), DoAll(m, ts)) && AllAttempts(n, ts) == AllAttempts(m, ts)
  {
    hide After, Enabled, Attempts;
    if ts != [] {
      var front, t := ts[..|ts| - 1], ts[|ts| - 1];
      LagDoAll(n, m, front);
      LagDo(DoAll(n, front), DoAll(m, front), t);
    }
  }

  // A tick from `n` with the states between its parts: `s0` when it starts, `s1` after the join,
  // `s2` after the sweep, `s3` after the pings, `s4` when it starts to listen.

  ghost predicate JoinPart(k: Tick, s0: Node, s1: Node) {
    && s0.clock == k.start <= k.joinRead <= s1.clock
    && (k.join.Some? <==> JoinDue(s0, k.joinRead))
    && (if k.join.Some? then
          && k.join.value == Timed(s0.clock, s1.clock, BroadcastJoin(k.joinRead))
          && CanDo(s0, k.join.value) && s1 == Do(s0, k.join.value)
        else Lags(s0, s1))
  }

  ghost predicate SweepPart(k: Tick, s1: Node, s2: Node) {
    && k.sweep.step.Sweep? && k.sweep.begin == s1.clock && k.sweep.end == s2.clock
    && CanDo(s1, k.sweep) && s2 == Do(s1, k.sweep)
  }

  ghost predicate PingPart(k: Tick, s2: Node, s3: Node) {
    && (k.ping.None? <==> NonSuspected(s2) == {})
    && (if k.ping.Some? then
          && k.ping.value.step.PingOne?
          && k.ping.value.begin == s2.clock && k.ping.value.end == s3.clock
          && CanDo(s2, k.ping.value) && s3 == Do(s2, k.ping.value)
        else s3 == s2)
  }

  ghost predicate ManualPart(k: Tick, s3: Node) {
    && CanDoAll(s3, k.manual) && DoAll(s3, k.manual) == s3
    && (forall t :: t in k.manual ==> t.step.ManualPing? && t.begin == s3.clock == t.end)
  }

  ghost predicate ListenPart(k: Tick, s4: Node, s5: Node) {
    && s4.clock == k.measured
    && CanDoAll(s4, k.heard) && s5 == DoAll(s4, k.heard)
    && (forall t :: t in k.heard ==> Listens(t.step) && k.measured <= t.begin)
  }

  lemma JoinIsDone(n: Node, k: Tick, s0: Node, s1: Node)
    requires Lags(n, s0) && JoinPart(k, s0, s1)
    ensures k.join.Some? <==> JoinDue(n, k.joinRead)
    ensures k.join.Some? ==> CanDo(n, k.join.value) && Attempts(n, k.join.value.step) == Attempts(s0, k.join.value.step)
    ensures Lags(JoinedNode(n, k), s1)
  {
    if k.join.Some? {
      LagDo(n, s0, k.join.value);
    }
  }

  lemma PingIsDone(n: Node, k: Tick, s1: Node, s2: Node, s3: Node)
    requires Lags(JoinedNode(n, k), s1) && SweepPart(k, s1, s2) && PingPart(k, s2, s3)
    ensures CanDo(JoinedNode(n, k), k.sweep) && SweptNode(n, k) == s2 && Pinged(n, k) == s3
    ensures s1.clock <= s2.clock <= s3.clock
  {
    hide Swept, ValidPlan, AmongOldest, NonSuspected;
    LagDo(JoinedNode(n, k), s1, k.sweep);
  }

  lemma ListeningIsDone(n: Node, k: Tick, s3: Node, s4: Node, s5: Node)
    requires Pinged(n, k) == s3 && ManualPart(k, s3) && Lags(s3, s4) && ListenPart(k, s4, s5)
    ensures Asked(n, k) == s3 && CanDoAll(Asked(n, k), k.heard) && Lags(EndOf(n, k), s5)
  {
    hide After, Enabled, Attempts, Pinged;
    LagDoAll(s3, s4, k.heard);
  }

  /** What is filled in later does not matter for the parts before. */
  lemma PartsStay(k: Tick, k': Tick, s0: Node, s1: Node, s2: Node, s3: Node)
    requires JoinPart(k, s0, s1) && SweepPart(k, s1, s2) && PingPart(k, s2, s3) && ManualPart(k, s3)
    requires k' == k.(measured := k'.measured, heard := k'.heard)
    ensures JoinPart(k', s0, s1) && SweepPart(k', s1, s2) && PingPart(k', s2, s3) && ManualPart(k', s3)
    ensures Early(k') == Early(k)
  {
  }

  lemma FirstPartsStay(k: Tick, k': Tick, s0: Node, s1: Node, s2: Node)
    requires JoinPart(k, s0, s1) && SweepPart(k, s1, s2)
    requires k' == k.(ping := k'.ping, manual := k'.manual)
    ensures JoinPart(k', s0, s1) && SweepPart(k', s1, s2)
  {
  }

  lemma PartsMakeTick(n: Node, k: Tick, s0: Node, s1: Node, s2: Node, s3: Node, s4: Node, s5: Node)
    requires Lags(n, s0) && JoinPart(k, s0, s1) && SweepPart(k, s1, s2) && PingPart(k, s2, s3)
    requires ManualPart(k, s3) && Lags(s3, s4) && ListenPart(k, s4, s5)
    ensures IsTick(n, k) && Lags(EndOf(n, k), s5)
  {
    hide After, Enabled, Attempts, JoinDue, NonSuspected, JoinedNode, SweptNode, Pinged, Asked, EndOf, CanDoAll, DoAll;
    JoinIsDone(n, k, s0, s1);
    PingIsDone(n, k, s1, s2, s3);
    ListeningIsDone(n, k, s3, s4, s5);
  }

  // What all the parts of a tick have sent.

  /** Like `Did`, with the clock having moved on before, between and after the steps. */
  ghost predicate DidSince(n: Node, m: Node, done: seq<Timed>, made: seq<Datagram>, finished: bool) {
    Did(n, DoAll(n, done), done, made, finished) && Lags(DoAll(n, done), m)
  }

  lemma DidSteps(n: Node, n': Node, done: seq<Timed>, made: seq<Datagram>, finished: bool)
    requires Did(n, n', done, made, finished)
    ensures CanDoAll(n, done) && n' == DoAll(n, done)
  {
  }

  lemma ListenedTo(k: Tick, s4: Node, s5: Node, made: seq<Datagram>, finished: bool)
    requires s4.clock == k.measured && Did(s4, s5, k.heard, made, finished)
    requires ListeningAfter(k.heard, k.measured)
    ensures ListenPart(k, s4, s5)
  {
  }

  lemma SinceSent(n: Node, m: Node, done: seq<Timed>, made: seq<Datagram>, finished: bool)
    requires DidSince(n, m, done, made, finished)
    ensures made <= AllAttempts(n, done) && (finished ==> made == AllAttempts(n, done))
  {
  }

  lemma SinceStart(n: Node, m: Node)
    requires Lags(n, m)
    ensures DidSince(n, m, [], [], true)
  {
  }

  lemma SinceLater(n: Node, m: Node, m': Node, done: seq<Timed>, made: seq<Datagram>, finished: bool)
    requires DidSince(n, m, done, made, finished) && Lags(m, m')
    ensures DidSince(n, m', done, made, finished)
  {
  }

  lemma SinceMore(n: Node, m: Node, m': Node, first: seq<Timed>, made: seq<Datagram>,
                  second: seq<Timed>, more: seq<Datagram>, finished: bool)
    requires DidSince(n, m, first, made, true) && Did(m, m', second, more, finished)
    ensures DidSince(n, m', first + second, made + more, finished)
  {
    hide After, Enabled, Attempts;
    LagDoAll(DoAll(n, first), m, second);
    StepsInTurn(n, first, second);
  }

  lemma SinceOptional(n: Node, m: Node, m': Node, first: seq<Timed>, made: seq<Datagram>, t: Option<Timed>)
    requires DidSince(n, m, first, made, true)
    requires if t.Some? then CanDo(m, t.value) && m' == Do(m, t.value) else Lags(m, m')
    ensures var more := if t.Some? then Attempts(m, t.value.step) else [];
            DidSince(n, m', first + Optional(t), made + more, true)
  {
    hide After, Enabled, Attempts, DidSince;
    if t.Some? {
      DidOne(m, t.value, Attempts(m, t.value.step), true);
      SinceMore(n, m, m', first, made, [t.value], Attempts(m, t.value.step), true);
    } else {
      SinceLater(n, m, m', first, made, true);
      assert first + [] == first && made + [] == made;
    }
  }

  /** The two ways of putting the steps of a tick together agree. */
  lemma StepsReachEnd(n: Node, k: Tick)
    ensures DoAll(n, StepsOf(k)) == EndOf(n, k)
  {
    hide Do;
    OptionalStep(n, k.join);
    OptionalStep(SweptNode(n, k), k.ping);
    OptionalStep(JoinedNode(n, k), Some(k.sweep));
    StepsInTurn(n, Optional(k.join), [k.sweep]);
    StepsInTurn(n, Optional(k.join) + [k.sweep], Optional(k.ping));
    StepsInTurn(n, Optional(k.join) + [k.sweep] + Optional(k.ping), k.manual);
    StepsInTurn(n, Optional(k.join) + [k.sweep] + Optional(k.ping) + k.manual, k.heard);
  }

  lemma OptionalStep(n: Node, t: Option<Timed>)
    ensures DoAll(n, Optional(t)) == DoIfAny(n, t)
  {
    if t.Some? {
      assert [t.value][..0] == [];
      assert DoAll(n, []) == n;
    }
  }

  lemma SweptSince(n: Node, k: Tick, s1: Node, s2: Node, first: seq<Timed>, made: seq<Datagram>,
                   more: seq<Datagram>)
    requires DidSince(n, s1, first, made, true)
    requires k.sweep.step.Sweep? && k.sweep.begin == s1.clock && k.sweep.end == s2.clock
    requires CanDo(s1, k.sweep) && s2 == Do(s1, k.sweep) && more == Attempts(s1, k.sweep.step)
    ensures SweepPart(k, s1, s2) && DidSince(n, s2, first + [k.sweep], made + more, true)
  {
    hide After, Enabled, Attempts, DidSince, Did;
    DidOne(s1, k.sweep, more, true);
    SinceMore(n, s1, s2, first, made, [k.sweep], more, true);
  }

  /** The tick pings what it was asked to and hears what arrived, or a first part of it. */
  ghost predicate Serves(k: Tick, targets: seq<Addr>, arrivals: seq<Arrival>) {
    && |k.manual| == |targets|
    && (forall i :: 0 <= i < |targets| ==> k.manual[i].step == ManualPing(targets[i]))
    && (exists parts :: k.heard == Flat(parts) && AnswersInTurn(parts, arrivals))
  }

  ghost predicate AnswersInTurn(parts: seq<seq<Timed>>, arrivals: seq<Arrival>) {
    |parts| <= |arrivals|
    && forall i :: 0 <= i < |parts| ==> Answers(parts[i], arrivals[i], i < |parts| - 1)
  }

  lemma ServesAll(k: Tick, targets: seq<Addr>, arrivals: seq<Arrival>, parts: seq<seq<Timed>>, finished: bool)
    requires |k.manual| == |targets|
    requires forall i :: 0 <= i < |targets| ==> k.manual[i].step == ManualPing(targets[i])
    requires k.heard == Flat(parts) && |parts| <= |arrivals|
    requires forall i :: 0 <= i < |parts| ==> Answers(parts[i], arrivals[i], finished || i < |parts| - 1)
    ensures Serves(k, targets, arrivals)
  {
    hide Flat;
    assert AnswersInTurn(parts, arrivals);
  }

  /** Each tick serves its input. */
  ghost predicate ServesEach(ks: seq<Tick>, inputs: seq<(seq<Addr>, seq<Arrival>)>) {
    |ks| <= |inputs| && forall i :: 0 <= i < |ks| ==> Serves(ks[i], inputs[i].0, inputs[i].1)
  }

  /** What was sent in each tick is what its steps try to send, up to where it was cut. */
  ghost predicate SentInTicks(ns: seq<Node>, ks: seq<Tick>, mades: seq<seq<Datagram>>) {
    && |ns| == |ks| + 1 && |mades| == |ks|
    && forall i :: 0 <= i < |ks| ==> mades[i] <= AllAttempts(ns[i], StepsOf(ks[i]))
  }

  lemma OneMoreServed(ns: seq<Node>, ks: seq<Tick>, mades: seq<seq<Datagram>>,
                      inputs: seq<(seq<Addr>, seq<Arrival>)>, n: Node, k: Tick, made: seq<Datagram>)
    requires ServesEach(ks, inputs) && SentInTicks(ns, ks, mades) && |ks| < |inputs|
    requires Serves(k, inputs[|ks|].0, inputs[|ks|].1) && made <= AllAttempts(ns[|ks|], StepsOf(k))
    ensures ServesEach(ks + [k], inputs) && SentInTicks(ns + [n], ks + [k], mades + [made])
  {
    hide Serves, AllAttempts, StepsOf;
  }

  lemma NoTicks(n: Node)
    ensures AreTicks([n], []) && SentInTicks([n], [], []) && forall inputs :: ServesEach([], inputs)
  {
  }

  lemma OneMoreTick(ns: seq<Node>, ks: seq<Tick>, k: Tick, n: Node)
    requires |ns| == |ks| + 1 && AreTicks(ns, ks) && IsTick(ns[|ks|], k) && Lags(EndOf(ns[|ks|], k), n)
    requires |ks| > 0 ==>
               var last := ks[|ks| - 1];
               k.start >= last.measured + RequiredDelay(last.start, last.measured)
    ensures AreTicks(ns + [n], ks + [k])
  {
    hide IsTick, EndOf, Lags, RequiredDelay;
  }
}
