/**
 * `KaboodleInner` itself: the subtasks of a tick and the message handlers, as they work step by
 * step on the shared map, the notes of curious peers and the clock. Each is proved to do exactly
 * one of the steps of module `Node`; what it read, drew and picked is handed out as that step.
 */
module Kaboodle {
  import opened Basics
  import opened Types
  import opened Node
  import opened ObservableHashMap
  import opened Passes
  import opened Receipts
  import opened Sends
  import opened TickParts
  import Codec
  import Fingerprint
  import JoinReply
  import Order
  import opened Ticks

  class KaboodleInner {
    const selfAddr: Addr
    const broadcastSource: Addr
    const identity: Bytes
    const text: Addr -> Bytes
    const knownPeers: ObservableHashMap<Addr, PeerInfo>

    var curiousPeers: map<Addr, seq<Addr>>
    var lastBroadcastTime: Option<Time>
    var clock: Time
    var panicked: bool

    /** The time for listening was up at some await since the listening began. */
    ghost var timeIsUp: bool

    /** Everything handed to a socket, whether or not the socket took it. */
    ghost var attempts: seq<Datagram>

    ghost function State(): Node
      reads this, knownPeers
    {
      Node(selfAddr, broadcastSource, identity, text, knownPeers.entries, curiousPeers,
           lastBroadcastTime, clock)
    }

    /** The map has at most one observer, and no timestamp in it is from the future. */
    ghost predicate Valid()
      reads this, knownPeers
    {
      && knownPeers.Quiet()
      && (forall p :: p in knownPeers.entries ==> knownPeers.entries[p].state.since <= clock)
    }

    /** Not even an empty list of peers can be sent: trying to ends the task. */
    predicate IdentityTooLong() {
      |identity| >= 10220
    }

    /** `KaboodleInner::start`: we are the first peer we know. */
    constructor (selfAddr: Addr, broadcastSource: Addr, identity: Bytes, text: Addr -> Bytes,
                 knownPeers: ObservableHashMap<Addr, PeerInfo>, now: Time)
      requires knownPeers.Quiet()
      requires forall p :: p in knownPeers.entries ==> knownPeers.entries[p].state.since <= now
      modifies knownPeers
      ensures Valid() && Sound(State())
      ensures State() == Node(selfAddr, broadcastSource, identity, text,
                              old(knownPeers.entries)[selfAddr := PeerInfo(identity, Known(now), None)],
                              map[], None, now)
      ensures attempts == [] && !panicked
    {
      this.selfAddr, this.broadcastSource, this.identity := selfAddr, broadcastSource, identity;
      this.text, this.knownPeers := text, knownPeers;
      curiousPeers, lastBroadcastTime, clock := map[], None, now;
      attempts, panicked, timeIsUp := [], false, false;
      new;
      SetPeer(selfAddr, PeerInfo(identity, Known(now), None));
    }

    // The environment: the clock moves on, sockets may refuse, and handlers may be cut off.

    method ReadClock() returns (now: Time)
      modifies this`clock
      ensures now == clock >= old(clock)
    {
      var passed: int :| passed >= 0;
      clock := clock + passed;
      now := clock;
    }

    method SendTo(datagram: Datagram) returns (ok: bool)
      modifies this`attempts
      ensures attempts == old(attempts) + [datagram]
    {
      attempts := attempts + [datagram];
      ok := *;
    }

    /** A message to one peer, in an envelope with our identity. */
    function ToPeer(dst: Addr, msg: SwimMessage): Datagram {
      Unicast(selfAddr, dst, SwimEnvelope(identity, msg))
    }

    /** An `await`: the handler goes on, unless its time is up. */
    method Await() returns (goesOn: bool)
      modifies this`timeIsUp
      ensures goesOn <==> !timeIsUp
    {
      goesOn := *;
      timeIsUp := !goesOn;
    }

    // Writing to the map.

    method SetPeer(p: Addr, info: PeerInfo)
      requires knownPeers.Quiet()
      modifies knownPeers
      ensures knownPeers.Quiet() && knownPeers.entries == old(knownPeers.entries)[p := info]
    {
      SingleObserver(knownPeers.observers,
        if p in knownPeers.entries then Updated(p, knownPeers.entries[p], info) else Added(p));
      var previous := knownPeers.Insert(p, info);
    }

    method RemovePeer(p: Addr)
      requires knownPeers.Quiet()
      modifies knownPeers
      ensures knownPeers.Quiet() && knownPeers.entries == old(knownPeers.entries) - {p}
    {
      SingleObserver(knownPeers.observers, Removed(p));
      var previous := knownPeers.Remove(p);
    }

    /** The update of a peer's state never fails: the state is always a different one. */
    method SetState(p: Addr, state: PeerState)
      requires knownPeers.Quiet() && p in knownPeers.entries && knownPeers.entries[p].state != state
      modifies knownPeers
      ensures knownPeers.Quiet()
      ensures knownPeers.entries == old(knownPeers.entries)[p := old(knownPeers.entries)[p].(state := state)]
    {
      var info := knownPeers.entries[p];
      SingleObserver(knownPeers.observers, Updated(p, info, info.(state := state)));
      var didUpdate := knownPeers.Update(p, (info: PeerInfo) => info.(state := state));
      assert didUpdate == Done(true);
    }

    method NonSuspectedPeers() returns (peers: seq<Addr>)
      ensures NoDuplicates(peers) && Elements(peers) == NonSuspected(State())
    {
      peers := [];
      var left := knownPeers.entries.Keys;
      while left != {}
        invariant left <= knownPeers.entries.Keys && NoDuplicates(peers)
        invariant Elements(peers) == NonSuspected(State()) - left
        decreases |left|
      {
        var p :| p in left;
        left := left - {p};
        if p != selfAddr && knownPeers.entries[p].state.Known? {
          ElementsAppend(peers, p);
          assert p !in Elements(peers);
          peers := peers + [p];
        }
      }
    }

    // Subtasks of a tick.

    method MaybeBroadcastJoin() returns (now: Time, ghost done: Option<Timed>)
      requires Valid()
      modifies this`clock, this`lastBroadcastTime, this`attempts
      ensures Valid() && old(clock) <= now <= clock
      ensures done.Some? <==> JoinDue(old(State()), now)
      ensures done.None? ==> attempts == old(attempts) && State() == old(State()).(clock := clock)
      ensures done.Some? ==>
                && done.value == Timed(old(clock), clock, BroadcastJoin(now))
                && CanDo(old(State()), done.value) && State() == Do(old(State()), done.value)
                && attempts == old(attempts) + Attempts(old(State()), done.value.step)
    {
      now := ReadClock();
      done := None;
      if lastBroadcastTime.Some? {
        if Elapsed(now, lastBroadcastTime.value) < REBROADCAST_INTERVAL || |knownPeers.entries| > 1 {
          return;
        }
      }
      lastBroadcastTime := Some(now);
      var ok := SendTo(Multicast(broadcastSource, Join(selfAddr, identity)));
      done := Some(Timed(old(clock), clock, BroadcastJoin(now)));
    }

    /** `choose_multiple`: up to three different peers. */
    method ChooseHelpers(peers: seq<Addr>, ghost n: Node) returns (helpers: seq<Addr>)
      requires NoDuplicates(peers) && Elements(peers) == NonSuspected(n)
      ensures ValidHelpers(n, helpers)
      ensures helpers == [] <==> NonSuspected(n) == {}
    {
      helpers := [];
      var left := NonSuspectedSet(peers);
      while left != {} && |helpers| < NUM_INDIRECT_PING_PEERS
        invariant NoDuplicates(helpers) && left !! Elements(helpers)
        invariant Elements(helpers) + left == NonSuspected(n)
        invariant |helpers| <= NUM_INDIRECT_PING_PEERS
        decreases |left|
      {
        var p :| p in left;
        ElementsAppend(helpers, p);
        left, helpers := left - {p}, helpers + [p];
      }
      ChosenCount(n, helpers, left);
    }

    function NonSuspectedSet(peers: seq<Addr>): (r: set<Addr>)
      ensures r == Elements(peers)
    {
      set p | p in peers
    }

    method AskHelpers(suspect: Addr, helpers: seq<Addr>, ghost n: Node)
      requires n.self == selfAddr && n.identity == identity
      modifies this`attempts
      ensures attempts == old(attempts) + RequestsTo(n, suspect, helpers)
      ensures |attempts| == |old(attempts)| + |helpers|
      ensures forall i :: 0 <= i < |helpers| ==>
                attempts[|old(attempts)| + i]
                == Unicast(selfAddr, helpers[i], SwimEnvelope(identity, PingRequest(suspect)))
    {
      RequestsToEach(n, suspect, helpers);
      for i := 0 to |helpers|
        invariant attempts == old(attempts) + RequestsTo(n, suspect, helpers[..i])
      {
        PrefixStep(helpers, i);
        var ok := SendTo(ToPeer(helpers[i], PingRequest(suspect)));
      }
      assert helpers[..|helpers|] == helpers;
    }

    /** One peer in the first pass: has it run out of time, and can somebody else be asked? */
    method Examine(p: Addr, nonSuspected: seq<Addr>, demoted: seq<Addr>, evicted: seq<Addr>,
                   ghost n: Node, ghost plan: SweepPlan, ghost tried: seq<Datagram>)
      returns (demoted': seq<Addr>, evicted': seq<Addr>, ghost plan': SweepPlan, ghost more: seq<Datagram>)
      requires n.known == knownPeers.entries && n.self == selfAddr && n.identity == identity
      requires NoDuplicates(nonSuspected) && Elements(nonSuspected) == NonSuspected(n)
      requires Progress(n, plan, clock, demoted, evicted, tried)
      requires p in n.known && p !in plan.order
      modifies this`clock, this`attempts
      ensures old(clock) <= clock && plan'.order == plan.order + [p]
      ensures attempts == old(attempts) + more
      ensures Progress(n, plan', clock, demoted', evicted', tried + more)
    {
      demoted', evicted', more := demoted, evicted, [];
      assert tried + [] == tried && attempts + [] == attempts;
      ghost var before := clock;
      var state := knownPeers.entries[p].state;
      if state.Known? {
        ProgressSpares(n, plan, p, None, before, clock, demoted, evicted, tried);
        plan' := PlanWith(n, plan, p, None, None);
        return;
      }
      var now := ReadClock();
      if Elapsed(now, state.since) < PING_TIMEOUT {
        ProgressSpares(n, plan, p, Some(now), before, clock, demoted, evicted, tried);
        plan' := PlanWith(n, plan, p, Some(now), None);
        return;
      }
      if state.WaitingForIndirectPing? {
        ProgressEvicts(n, plan, p, now, None, before, clock, demoted, evicted, tried);
        evicted', plan' := evicted + [p], PlanWith(n, plan, p, Some(now), None);
        return;
      }
      var helpers := ChooseHelpers(nonSuspected, n);
      plan' := PlanWith(n, plan, p, Some(now), Some(helpers));
      if helpers == [] {
        ProgressEvicts(n, plan, p, now, Some(helpers), before, clock, demoted, evicted, tried);
        evicted' := evicted + [p];
      } else {
        ProgressAsks(n, plan, p, now, helpers, before, clock, demoted, evicted, tried);
        demoted', more := demoted + [p], RequestsTo(n, p, helpers);
        AskHelpers(p, helpers, n);
      }
    }

    method ExamineNext(left: set<Addr>, nonSuspected: seq<Addr>, demoted: seq<Addr>, evicted: seq<Addr>,
                       ghost n: Node, ghost plan: SweepPlan, ghost tried: seq<Datagram>)
      returns (left': set<Addr>, demoted': seq<Addr>, evicted': seq<Addr>,
               ghost plan': SweepPlan, ghost tried': seq<Datagram>, ghost more: seq<Datagram>)
      requires n.known == knownPeers.entries && n.self == selfAddr && n.identity == identity
      requires NoDuplicates(nonSuspected) && Elements(nonSuspected) == NonSuspected(n)
      requires left != {} && FirstPass(n, plan, left, clock, demoted, evicted, tried)
      modifies this`clock, this`attempts
      ensures old(clock) <= clock && left' < left
      ensures tried' == tried + more && attempts == old(attempts) + more
      ensures FirstPass(n, plan', left', clock, demoted', evicted', tried')
    {
      var p :| p in left;
      left' := left - {p};
      NotListed(n, plan, left', p);
      demoted', evicted', plan', more := Examine(p, nonSuspected, demoted, evicted, n, plan, tried);
      tried' := tried + more;
    }

    /** The first pass: who has run out of time, and who is asked about them. */
    method FindExpired(ghost n: Node)
      returns (demoted: seq<Addr>, evicted: seq<Addr>, ghost plan: SweepPlan, ghost tried: seq<Datagram>)
      requires n == State()
      modifies this`clock, this`attempts
      ensures old(clock) <= clock
      ensures FirstPass(n, plan, {}, clock, demoted, evicted, tried)
      ensures attempts == old(attempts) + tried
    {
      hide FirstPass, NonSuspected;
      demoted, evicted, plan, tried := [], [], SweepPlan([], map[], map[], map[]), [];
      FirstPassStarts(n);
      var nonSuspected := NonSuspectedPeers();
      var left := knownPeers.entries.Keys;
      while left != {}
        invariant old(clock) <= clock
        invariant FirstPass(n, plan, left, clock, demoted, evicted, tried)
        invariant attempts == old(attempts) + tried
        decreases left
      {
        ghost var before, more := tried, [];
        left, demoted, evicted, plan, tried, more :=
          ExamineNext(left, nonSuspected, demoted, evicted, n, plan, tried);
        assert (old(attempts) + before) + more == old(attempts) + (before + more);
      }
    }

    /** The second pass: those asked about wait again. */
    method Restamp(demoted: seq<Addr>) returns (ghost stamps: map<Addr, Time>)
      requires Valid() && NoDuplicates(demoted)
      requires forall p :: p in demoted ==> p in knownPeers.entries && knownPeers.entries[p].state.WaitingForPing?
      modifies this`clock, knownPeers
      ensures Valid() && old(clock) <= clock && stamps.Keys == Elements(demoted)
      ensures forall p :: p in stamps ==> old(clock) <= stamps[p] <= clock
      ensures knownPeers.entries == Restamped(old(knownPeers.entries), demoted, stamps)
    {
      stamps := map[];
      ghost var known := knownPeers.entries;
      assert Restamped(known, [], stamps) == known;
      for i := 0 to |demoted|
        invariant Valid() && old(clock) <= clock
        invariant stamps.Keys == Elements(demoted[..i])
        invariant forall p :: p in stamps ==> old(clock) <= stamps[p] <= clock
        invariant knownPeers.entries == Restamped(known, demoted[..i], stamps)
      {
        var p := demoted[i];
        assert p in demoted;
        var now := ReadClock();
        RestampOne(known, demoted, stamps, i, now);
        SetState(p, WaitingForIndirectPing(now));
        stamps := stamps[p := now];
      }
      assert demoted[..|demoted|] == demoted;
    }

    /** The third pass: those given up are removed and announced. */
    method RemoveAndAnnounce(evicted: seq<Addr>)
      requires Valid()
      modifies this`curiousPeers, this`attempts, knownPeers
      ensures Valid()
      ensures knownPeers.entries == old(knownPeers.entries) - Elements(evicted)
      ensures curiousPeers == old(curiousPeers) - Elements(evicted)
      ensures attempts == old(attempts) + FailuresOf(broadcastSource, evicted)
    {
      for i := 0 to |evicted|
        invariant Valid()
        invariant knownPeers.entries == old(knownPeers.entries) - Elements(evicted[..i])
        invariant curiousPeers == old(curiousPeers) - Elements(evicted[..i])
        invariant attempts == old(attempts) + FailuresOf(broadcastSource, evicted[..i])
      {
        PrefixStep(evicted, i);
        ElementsAppend(evicted[..i], evicted[i]);
        RemovePeer(evicted[i]);
        curiousPeers := curiousPeers - {evicted[i]};
        var ok := SendTo(Multicast(broadcastSource, Failed(evicted[i])));
      }
      assert evicted[..|evicted|] == evicted;
    }

    /** The second and the third pass. */
    method ApplyPasses(demoted: seq<Addr>, evicted: seq<Addr>) returns (ghost stamps: map<Addr, Time>)
      requires Valid() && NoDuplicates(demoted)
      requires forall p :: p in demoted ==> p in knownPeers.entries && knownPeers.entries[p].state.WaitingForPing?
      modifies this`clock, this`curiousPeers, this`attempts, knownPeers
      ensures Valid() && old(clock) <= clock && stamps.Keys == Elements(demoted)
      ensures forall p :: p in stamps ==> old(clock) <= stamps[p] <= clock
      ensures State() == old(State()).(
                known := Restamped(old(knownPeers.entries), demoted, stamps) - Elements(evicted),
                curious := old(curiousPeers) - Elements(evicted), clock := clock)
      ensures attempts == old(attempts) + FailuresOf(broadcastSource, evicted)
    {
      stamps := Restamp(demoted);
      RemoveAndAnnounce(evicted);
    }

    /** All three passes; nothing cuts them short. */
    method HandleSuspectedPeers() returns (ghost done: Timed)
      requires Valid()
      modifies this`clock, this`curiousPeers, this`attempts, knownPeers
      ensures Valid() && old(clock) <= clock && done.step.Sweep?
      ensures done.begin == old(clock) && done.end == clock
      ensures CanDo(old(State()), done) && State() == Do(old(State()), done)
      ensures attempts == old(attempts) + Attempts(old(State()), done.step)
    {
      hide Enabled, After, Attempts, FirstPass, Restamped, FailuresOf;
      ghost var n := State();
      var demoted, evicted;
      ghost var plan, tried;
      demoted, evicted, plan, tried := FindExpired(n);
      ghost var middle := clock;
      DemotedAreWaiting(n, plan, middle, demoted, evicted, tried);
      ghost var stamps := ApplyPasses(demoted, evicted);
      SweepIsDone(n, plan, middle, clock, stamps, demoted, evicted, tried);
      assert (old(attempts) + tried) + FailuresOf(broadcastSource, evicted)
          == old(attempts) + (tried + FailuresOf(broadcastSource, evicted));
      done := Timed(n.clock, clock, Sweep(plan.(stamps := stamps)));
    }

    /** The peers to choose from, in the arbitrary order of the map, with their ages. */
    method ListAges() returns (listed: seq<(Addr, Time)>)
      ensures ListsAges(State(), listed)
    {
      listed := [];
      var left := knownPeers.entries.Keys;
      while left != {}
        invariant left <= knownPeers.entries.Keys
        invariant forall e :: e in listed ==>
                    e.0 in NonSuspected(State()) && e.1 == knownPeers.entries[e.0].state.since
        invariant forall p :: p in NonSuspected(State()) && p !in left ==>
                    (p, knownPeers.entries[p].state.since) in listed
        decreases |left|
      {
        var p :| p in left;
        left := left - {p};
        if p != selfAddr && knownPeers.entries[p].state.Known? {
          listed := listed + [(p, knownPeers.entries[p].state.since)];
        }
      }
    }

    /** One of the five heard from longest ago. */
    method ChooseTarget() returns (target: Option<Addr>)
      ensures target.None? <==> NonSuspected(State()) == {}
      ensures target.Some? ==> AmongOldest(State(), target.value)
    {
      var listed := ListAges();
      var sorted := Order.SortByKey(AgeKey, listed);
      SameAges(State(), listed, sorted);
      if sorted == [] {
        return None;
      }
      var i: nat :| i < |sorted| && i < NUM_CANDIDATE_TARGET_PEERS;
      FirstAreOldest(State(), sorted, i);
      return Some(sorted[i].0);
    }

    /** Pings a peer, or finds nobody to ping. A peer that cannot even be sent to is forgotten. */
    method PingRandomPeer() returns (ghost done: Option<Timed>)
      requires Valid()
      modifies this`clock, this`attempts, knownPeers
      ensures Valid() && old(clock) <= clock
      ensures done.None? <==> NonSuspected(old(State())) == {}
      ensures done.None? ==> State() == old(State()) && attempts == old(attempts)
      ensures done.Some? ==>
                && done.value.step.PingOne?
                && done.value.begin == old(clock) && done.value.end == clock
                && CanDo(old(State()), done.value) && State() == Do(old(State()), done.value)
                && attempts == old(attempts) + Attempts(old(State()), done.value.step)
                && attempts == old(attempts) + [Unicast(selfAddr, done.value.step.target, SwimEnvelope(identity, Ping))]
    {
      var chosen := ChooseTarget();
      if chosen.None? {
        return None;
      }
      var target := chosen.value;
      var now := ReadClock();
      SetState(target, WaitingForPing(now));
      var ok := SendTo(ToPeer(target, Ping));
      if !ok {
        RemovePeer(target);
        ghost var info := old(knownPeers.entries)[target];
        assert old(knownPeers.entries)[target := info.(state := WaitingForPing(now))] - {target}
            == old(knownPeers.entries) - {target};
      }
      done := Some(Timed(old(clock), clock, PingOne(target, now, ok)));
    }

    /** Pings asked for by the application, in the order they were asked for. */
    method HandleIncomingPingRequests(targets: seq<Addr>)
      returns (ghost done: seq<Timed>, ghost made: seq<Datagram>)
      modifies this`attempts
      ensures attempts == old(attempts) + made && Did(old(State()), old(State()), done, made, true)
      ensures |done| == |targets|
      ensures forall i :: 0 <= i < |done| ==> done[i] == Timed(old(clock), old(clock), ManualPing(targets[i]))
    {
      hide Did;
      ghost var n := State();
      done, made := [], [];
      DidNothing(n);
      for i := 0 to |targets|
        invariant attempts == old(attempts) + made && Did(n, n, done, made, true)
        invariant |done| == i
        invariant forall j :: 0 <= j < i ==> done[j] == Timed(clock, clock, ManualPing(targets[j]))
      {
        var ok := SendTo(ToPeer(targets[i], Ping));
        ghost var t := Timed(clock, clock, ManualPing(targets[i]));
        ghost var more := [ToPeer(targets[i], Ping)];
        DidOne(n, t, more, true);
        DidMore(n, n, n, done, made, [t], more, true);
        assert (old(attempts) + made) + more == old(attempts) + (made + more);
        done, made := done + [t], made + more;
      }
    }

    // Handling messages. Every await may be the last: what is out then stays out.

    /** A message to one peer, unless we are cut off before it. */
    method SendMessage(dst: Addr, msg: SwimMessage) returns (finished: bool, ghost made: seq<Datagram>)
      requires !timeIsUp
      modifies this`attempts, this`timeIsUp
      ensures attempts == old(attempts) + made
      ensures made == if finished then [ToPeer(dst, msg)] else []
      ensures finished <==> !timeIsUp
    {
      made := [];
      finished := Await();
      if finished {
        var ok := SendTo(ToPeer(dst, msg));
        made := [ToPeer(dst, msg)];
      }
    }

    /** `calculate_peer_latency`: the time since the ping cannot be negative. */
    method CalculatePeerLatency(info: PeerInfo) returns (latency: Option<nat>, measured: Time)
      requires info.state.since <= clock
      modifies this`clock
      ensures latency == LatencyAfter(info, measured) && old(clock) <= measured == clock
    {
      measured := clock;
      if info.state.Known? {
        return info.latency, measured;
      }
      measured := ReadClock();
      var sample: nat := measured - info.state.since;
      if info.latency.None? {
        return Some(sample), measured;
      }
      return Some((8 * sample + 2 * info.latency.value) / 10), measured;
    }

    /** Whoever sent us something is Known. */
    method HearFrom(sender: Addr, identity: Bytes) returns (ghost stamp: Time, ghost measured: Time)
      requires Valid()
      modifies this`clock, knownPeers
      ensures Valid() && old(clock) <= stamp <= measured
      ensures State() == Heard(old(State()), sender, identity, stamp, measured)
    {
      var now := ReadClock();
      var latency, read := None, now;
      if sender in knownPeers.entries {
        latency, read := CalculatePeerLatency(knownPeers.entries[sender]);
      }
      SetPeer(sender, PeerInfo(identity, Known(now), latency));
      stamp, measured := now, read;
    }

    method MaybeSyncKnownPeers(peer: Addr, theirFingerprint: U32, theirCount: U32)
      returns (finished: bool, ghost made: seq<Datagram>)
      requires !timeIsUp
      modifies this`attempts, this`timeIsUp
      ensures attempts == old(attempts) + made
      ensures made <= SyncRequest(old(State()), peer, theirFingerprint, theirCount)
      ensures finished ==> made == SyncRequest(old(State()), peer, theirFingerprint, theirCount)
      ensures finished <==> !timeIsUp
    {
      made := [];
      finished := Await();
      if !finished {
        return;
      }
      var ourFingerprint := Fingerprint.GenerateFingerprint(text, knownPeers.entries);
      var ourCount := CountOf(knownPeers.entries);
      if ourFingerprint == theirFingerprint || ourCount > theirCount {
        return;
      }
      finished, made := SendMessage(peer, KnownPeersRequest(ourFingerprint, ourCount));
    }

    method ForwardAck(observers: seq<Addr>, ack: SwimMessage)
      returns (finished: bool, ghost made: seq<Datagram>)
      requires !timeIsUp
      modifies this`attempts, this`timeIsUp
      ensures attempts == old(attempts) + made
      ensures made <= Forwards(old(State()), observers, ack)
      ensures finished ==> made == Forwards(old(State()), observers, ack)
      ensures |made| <= |observers|
      ensures forall i :: 0 <= i < |made| ==> made[i] == Unicast(selfAddr, observers[i], SwimEnvelope(identity, ack))
      ensures finished <==> !timeIsUp
    {
      ghost var n := State();
      ForwardsEach(n, observers, ack);
      made := [];
      for i := 0 to |observers|
        invariant !timeIsUp && attempts == old(attempts) + made && made == Forwards(n, observers[..i], ack)
      {
        PrefixStep(observers, i);
        ForwardsPrefix(n, observers, ack, i);
        ghost var more;
        finished, more := SendMessage(observers[i], ack);
        if !finished {
          return;
        }
        made := made + more;
      }
      assert observers[..|observers|] == observers;
      finished := true;
    }

    method HandleAck(peer: Addr, fingerprint: U32, count: U32)
      returns (finished: bool, ghost made: seq<Datagram>)
      requires !timeIsUp
      modifies this`curiousPeers, this`attempts, this`timeIsUp
      ensures State() == old(State()).(curious := old(curiousPeers) - {peer})
      ensures attempts == old(attempts) + made
      ensures var n := old(State());
              var full := Forwards(n, ObserversOf(n, peer), Ack(peer, fingerprint, count))
                          + SyncRequest(n, peer, fingerprint, count);
              made <= full && (finished ==> made == full)
      ensures finished <==> !timeIsUp
    {
      hide Forwards, SyncRequest;
      finished, made := true, [];
      ghost var n := State();
      SyncIgnoresNotes(n, curiousPeers - {peer}, peer, fingerprint, count);
      if peer in curiousPeers {
        var observers := curiousPeers[peer];
        finished, made := ForwardAck(observers, Ack(peer, fingerprint, count));
        curiousPeers := curiousPeers - {peer};
      } else {
        NoForwards(n, Ack(peer, fingerprint, count));
        assert curiousPeers == curiousPeers - {peer};
      }
      if !finished {
        return;
      }
      ghost var more;
      finished, more := MaybeSyncKnownPeers(peer, fingerprint, count);
      assert (old(attempts) + made) + more == old(attempts) + (made + more);
      made := made + more;
    }

    /** A peer we were told of. */
    method AddPeer(p: Addr, peerIdentity: Bytes, now: Time)
      requires Valid() && now <= clock
      modifies knownPeers
      ensures Valid()
      ensures knownPeers.entries
           == old(knownPeers.entries)[p := PeerInfo(peerIdentity, Known(now - MAX_PEER_SHARE_AGE), None)]
    {
      SetPeer(p, PeerInfo(peerIdentity, Known(now - MAX_PEER_SHARE_AGE), None));
    }

    /** Those of them that are new to us; nobody else is touched. */
    method AddNewPeers(peers: View, now: Time)
      requires Valid() && now <= clock
      modifies knownPeers
      ensures Valid() && knownPeers.entries == Merged(old(knownPeers.entries), peers, now)
    {
      hide Merged, Valid, ObservableHashMap.Quiet;
      ghost var known := knownPeers.entries;
      var left := peers.Keys - knownPeers.entries.Keys;
      NobodyNew(known, peers, now);
      while left != {}
        invariant Valid() && left <= peers.Keys - known.Keys
        invariant knownPeers.entries == Merged(known, peers - left, now)
        decreases |left|
      {
        var p :| p in left;
        MergeOne(known, peers, left, p, now);
        left := left - {p};
        AddPeer(p, peers[p], now);
      }
      assert peers - {} == peers;
    }

    /** New peers enter with a timestamp too old to be passed on. */
    method HandleKnownPeers(peers: View) returns (finished: bool, ghost merged: Option<Time>)
      requires Valid() && !timeIsUp
      modifies this`clock, this`timeIsUp, knownPeers
      ensures Valid() && old(clock) <= clock && (finished <==> merged.Some?)
      ensures merged.None? ==> State() == old(State())
      ensures merged.Some? ==>
                && old(clock) <= merged.value <= clock
                && State() == old(State()).(known := Merged(old(knownPeers.entries), peers, merged.value),
                                            clock := clock)
      ensures finished <==> !timeIsUp
    {
      hide Merged;
      merged := None;
      finished := Await();
      if finished {
        var now := ReadClock();
        AddNewPeers(peers, now);
        merged := Some(now);
      }
    }

    /** Everyone else whom we have heard from lately, and when that was decided for each. */
    method ListShareable(asker: Addr) returns (others: View, ghost readings: map<Addr, Time>)
      modifies this`clock
      ensures old(clock) <= clock && readings.Keys == knownPeers.entries.Keys
      ensures forall p :: p in readings ==> old(clock) <= readings[p] <= clock
      ensures others == Shareable(old(State()), asker, readings)
    {
      hide Shareable;
      ghost var n := State();
      others, readings := map[], map[];
      NothingShared(n, asker);
      var left := knownPeers.entries.Keys;
      while left != {}
        invariant left <= knownPeers.entries.Keys && readings.Keys == knownPeers.entries.Keys - left
        invariant old(clock) <= clock && forall p :: p in readings ==> old(clock) <= readings[p] <= clock
        invariant others == Shareable(n, asker, readings)
        decreases |left|
      {
        var p :| p in left;
        left := left - {p};
        var info := knownPeers.entries[p];
        var now, share := clock, false;
        if info.state.Known? && p != selfAddr && p != asker {
          now := ReadClock();
          share := Elapsed(now, info.state.since) < MAX_PEER_SHARE_AGE;
        }
        if share {
          others := others[p := info.identity];
        }
        ReadOne(n, asker, readings, p, now);
        readings := readings[p := now];
      }
    }

    method HandleKnownPeersRequest(sender: Addr, fingerprint: U32, count: U32)
      returns (finished: bool, ghost readings: map<Addr, Time>, ghost made: seq<Datagram>)
      requires !timeIsUp
      modifies this`clock, this`attempts, this`timeIsUp
      ensures old(clock) <= clock && readings.Keys == knownPeers.entries.Keys
      ensures forall p :: p in readings ==> old(clock) <= readings[p] <= clock
      ensures attempts == old(attempts) + made
      ensures var n := old(State());
              var full := [To(n, sender, KnownPeers(Shareable(n, sender, readings)))]
                          + SyncRequest(n, sender, fingerprint, count);
              made <= full && (finished ==> made == full)
      ensures finished <==> !timeIsUp
    {
      hide SyncRequest, Shareable;
      ghost var n := State();
      made := [];
      finished := Await();
      if !finished {
        readings := map p | p in knownPeers.entries :: clock;
        return;
      }
      var others;
      others, readings := ListShareable(sender);
      finished, made := SendMessage(sender, KnownPeers(others));
      if !finished {
        return;
      }
      SyncIgnoresClock(n, clock, sender, fingerprint, count);
      ghost var more;
      finished, more := MaybeSyncKnownPeers(sender, fingerprint, count);
      assert (old(attempts) + made) + more == old(attempts) + (made + more);
      made := made + more;
    }

    method HandlePing(sender: Addr) returns (finished: bool, ghost made: seq<Datagram>)
      requires !timeIsUp
      modifies this`attempts, this`timeIsUp
      ensures attempts == old(attempts) + made
      ensures var n := old(State());
              var full := [To(n, sender, Ack(n.self, FingerprintOf(n), CountOf(n.known)))];
              made <= full && (finished ==> made == full)
      ensures finished <==> !timeIsUp
    {
      made := [];
      finished := Await();
      if finished {
        var ourFingerprint := Fingerprint.GenerateFingerprint(text, knownPeers.entries);
        finished, made := SendMessage(sender, Ack(selfAddr, ourFingerprint, CountOf(knownPeers.entries)));
      }
    }

    /** `sender` will hear of the next Ack from `target`, and is noted at most once. */
    method HandlePingRequest(sender: Addr, target: Addr) returns (finished: bool, ghost made: seq<Datagram>)
      requires !timeIsUp
      modifies this`curiousPeers, this`attempts, this`timeIsUp
      ensures State() == old(State()).(curious := WithObserver(old(State()), target, sender))
      ensures attempts == old(attempts) + made
      ensures var full := [To(old(State()), target, Ping)];
              made <= full && (finished ==> made == full)
      ensures finished <==> !timeIsUp
    {
      var observers := if target in curiousPeers then curiousPeers[target] else [];
      curiousPeers := curiousPeers - {target};
      if sender !in observers {
        observers := observers + [sender];
      }
      curiousPeers := curiousPeers[target := observers];
      assert curiousPeers == WithObserver(old(State()), target, sender);
      finished, made := SendMessage(target, Ping);
    }

    /** What a message asks for, once its sender has been heard. */
    method HandleBody(sender: Addr, envelope: SwimEnvelope, ghost stamp: Time, ghost measured: Time)
      returns (finished: bool, ghost s: Step, ghost made: seq<Datagram>)
      requires Valid() && sender in knownPeers.entries && measured == clock && !timeIsUp
      modifies this`clock, this`curiousPeers, this`attempts, this`timeIsUp, knownPeers
      ensures Valid() && old(clock) <= clock
      ensures IsRecord(s, sender, envelope, stamp, measured) && ReadInOrder(s, old(State()), clock)
      ensures State() == AfterMessage(old(State()), s).(clock := clock)
      ensures attempts == old(attempts) + made && made <= Replies(old(State()), s)
      ensures finished ==> made == Replies(old(State()), s)
      ensures finished && envelope.msg.KnownPeers? ==> s.merged.Some?
      ensures finished <==> !timeIsUp
    {
      hide Forwards, SyncRequest, Shareable, Merged, WithObserver, FingerprintOf;
      ghost var readings := map p | p in knownPeers.entries :: clock;
      ghost var merged := None;
      made := [];
      match envelope.msg {
        case Ack(peer, fingerprint, count) =>
          finished, made := HandleAck(peer, fingerprint, count);
        case KnownPeers(peers) =>
          finished, merged := HandleKnownPeers(peers);
        case KnownPeersRequest(fingerprint, count) =>
          finished, readings, made := HandleKnownPeersRequest(sender, fingerprint, count);
        case Ping =>
          finished, made := HandlePing(sender);
        case PingRequest(target) =>
          finished, made := HandlePingRequest(sender, target);
      }
      s := Receive(sender, envelope, stamp, measured, merged, readings);
    }

    /** One message; when we are cut off before its sender is heard, nothing has happened. */
    method HandleMessage(sender: Addr, envelope: SwimEnvelope)
      returns (finished: bool, ghost done: seq<Timed>, ghost made: seq<Datagram>)
      requires Valid() && !timeIsUp
      modifies this`clock, this`curiousPeers, this`attempts, this`timeIsUp, knownPeers
      ensures Valid() && old(clock) <= clock && attempts == old(attempts) + made
      ensures Did(old(State()), State(), done, made, finished)
      ensures AreRecords(done, [(sender, envelope)]) && BeginAfter(done, old(clock))
      ensures finished ==> HandledWhole(done)
      ensures finished && envelope.msg.Ping? ==>
                |made| == 1 && made[0] == Unicast(selfAddr, sender, made[0].envelope)
                && made[0].envelope.identity == identity && made[0].envelope.msg.Ack?
                && made[0].envelope.msg.peer == selfAddr
      ensures finished <==> !timeIsUp
    {
      hide Enabled, After, Attempts, Replies, AfterMessage, Did;
      ghost var n := State();
      DidNothing(n);
      DidAtMost(n, n, [], [], false);
      made, done := [], [];
      finished := Await();
      if !finished {
        return;
      }
      ghost var stamp, measured := HearFrom(sender, envelope.identity);
      ghost var s;
      finished, s, made := HandleBody(sender, envelope, stamp, measured);
      ReceiptIsStep(n, clock, s);
      if envelope.msg.Ping? {
        PingIsAnswered(n, clock, s);
      }
      DidOne(n, Timed(n.clock, clock, s), made, finished);
      done := [Timed(old(clock), clock, s)];
    }

    /** Whatever messages have arrived, in turn, each read into the same buffer. */
    method HandleIncomingMessages(packets: seq<Packet>)
      returns (finished: bool, ghost done: seq<Timed>, ghost made: seq<Datagram>)
      requires Valid() && !timeIsUp
      modifies this`clock, this`curiousPeers, this`attempts, this`timeIsUp, knownPeers
      ensures Valid() && old(clock) <= clock && attempts == old(attempts) + made
      ensures Did(old(State()), State(), done, made, finished)
      ensures AreRecords(done, Messages(packets)) && (finished ==> |done| == |Messages(packets)|)
      ensures BeginAfter(done, old(clock))
      ensures finished <==> !timeIsUp
    {
      hide *;
      ghost var n := State();
      done, made := [], [];
      DidNothing(n);
      var buffer := BufferAfter([]);
      NothingRead(packets, clock);
      for i := 0 to |packets|
        invariant Valid() && !timeIsUp && old(clock) <= clock && attempts == old(attempts) + made
        invariant MessagesRead(packets, i, buffer, done, old(clock)) && Did(n, State(), done, made, true)
      {
        ghost var before, seen, begin, handled, more := buffer, done, clock, [], [];
        buffer := Codec.Fill(buffer, packets[i].bytes);
        var read := Codec.DecodeEnvelope(buffer);
        if read.Some? {
          ghost var n' := State();
          finished, handled, more := HandleMessage(packets[i].source, read.value);
          assert (old(attempts) + made) + more == old(attempts) + (made + more);
          DidMore(n, n', State(), done, made, handled, more, finished);
          done, made := done + handled, made + more;
          if !finished {
            ReadMessage(packets, i, before, seen, old(clock), handled, begin);
            return;
          }
        }
        ReadMessage(packets, i, before, seen, old(clock), handled, begin);
      }
      AllRead(packets, buffer, done, old(clock));
      finished := true;
    }

    // Handling broadcasts.

    /** Yes when there is nobody else to respond; else the luck of the draw. */
    method ShouldRespondToBroadcast() returns (yes: bool)
      ensures MustRespond(knownPeers.entries) ==> yes
    {
      var otherPeers: int := |knownPeers.entries| - 2;
      if otherPeers <= 0 {
        return true;
      }
      yes := *;
    }

    /** All the peers that fit into one message; `respond` says whether the draw was for responding. */
    method MaybeSendKnownPeersToPeer(addr: Addr)
      returns (finished: bool, ghost respond: bool, ghost listed: View, ghost made: seq<Datagram>)
      requires !panicked && !timeIsUp
      modifies this`attempts, this`panicked, this`timeIsUp
      ensures panicked ==> IdentityTooLong()
      ensures finished && respond && knownPeers.entries != map[] ==> !IdentityTooLong()
      ensures attempts == old(attempts) + made
      ensures (MustRespond(knownPeers.entries) ==> respond) && Submap(listed, ViewOf(knownPeers.entries))
      ensures var full := if respond then [ToPeer(addr, KnownPeers(listed))] else [];
              made <= full && (finished && knownPeers.entries != map[] ==> made == full)
      ensures made != [] ==> JoinReply.Trimmed(identity, ViewOf(knownPeers.entries), listed)
      ensures finished <==> !timeIsUp && !panicked
    {
      hide JoinReply.Trimmed;
      respond, listed, made := true, map[], [];
      finished := Await();
      if !finished {
        return;
      }
      var yes := ShouldRespondToBroadcast();
      respond := yes;
      if !yes {
        return;
      }
      finished := Await();
      if !finished {
        return;
      }
      var others := ViewOf(knownPeers.entries);
      if others != map[] {
        var trimmed;
        ghost var order;
        trimmed, order := JoinReply.TrimToFit(identity, others);
        match trimmed {
          case Panicked =>
            panicked, finished := true, false;
          case Done(reply) =>
            listed := reply.0;
            finished, made := SendMessage(addr, KnownPeers(reply.0));
        }
      } else {
        assert others.Keys == knownPeers.entries.Keys;
      }
    }

    method MaybeRespondToProbe(prober: Addr)
      returns (finished: bool, ghost respond: bool, ghost made: seq<Datagram>)
      requires !timeIsUp
      modifies this`attempts, this`timeIsUp
      ensures attempts == old(attempts) + made
      ensures MustRespond(knownPeers.entries) ==> respond
      ensures var full := if respond then [ProbeReply(selfAddr, prober, ProbeResponse(identity))] else [];
              made <= full && (finished ==> made == full)
      ensures finished <==> !timeIsUp
    {
      respond, made := true, [];
      finished := Await();
      if !finished {
        return;
      }
      var yes := ShouldRespondToBroadcast();
      respond := yes;
      if !yes {
        return;
      }
      finished := Await();
      if finished {
        var response := ProbeReply(selfAddr, prober, ProbeResponse(identity));
        var ok := SendTo(response);
        made := [response];
      }
    }

    method HandleFailed(source: Addr, peer: Addr) returns (finished: bool, ghost s: Step)
      requires Valid() && !timeIsUp
      modifies this`timeIsUp, knownPeers
      ensures Valid() && s == ReceiveBroadcast(source, Failed(peer), clock, finished, true, map[])
      ensures State() == AfterBroadcast(old(State()), s)
      ensures finished <==> !timeIsUp
    {
      finished := true;
      if peer != selfAddr {
        finished := Await();
        if finished && source in knownPeers.entries {
          RemovePeer(peer);
        }
      }
      s := ReceiveBroadcast(source, Failed(peer), clock, finished, true, map[]);
    }

    method HandleJoin(source: Addr, addr: Addr, newIdentity: Bytes)
      returns (finished: bool, ghost s: Step, ghost made: seq<Datagram>)
      requires Valid() && !panicked && !timeIsUp
      modifies this`clock, this`attempts, this`panicked, this`timeIsUp, knownPeers
      ensures Valid() && old(clock) <= clock
      ensures s.ReceiveBroadcast? && s.source == source && s.broadcast == Join(addr, newIdentity)
      ensures Enabled(old(State()), old(clock), clock, s)
      ensures State() == AfterBroadcast(old(State()), s).(clock := clock)
      ensures attempts == old(attempts) + made && made <= Attempts(old(State()), s)
      ensures finished ==> s.handled && made == Attempts(old(State()), s)
      ensures made != [] ==> JoinReply.Trimmed(identity, ViewOf(knownPeers.entries), s.listed)
      ensures panicked ==> IdentityTooLong()
      ensures finished <==> !timeIsUp && !panicked
    {
      hide JoinReply.Trimmed;
      finished, made := true, [];
      ghost var handled, stamp, respond, listed := true, clock, false, map[];
      if addr != selfAddr {
        finished := Await();
        handled := finished;
        if finished {
          var now := ReadClock();
          var isNewPeer := addr !in knownPeers.entries;
          var latency := if isNewPeer then None else knownPeers.entries[addr].latency;
          SetPeer(addr, PeerInfo(newIdentity, Known(now), latency));
          stamp := now;
          if isNewPeer {
            finished, respond, listed, made := MaybeSendKnownPeersToPeer(addr);
          }
        }
      }
      s := ReceiveBroadcast(source, Join(addr, newIdentity), stamp, handled, respond, listed);
    }

    method HandleBroadcast(source: Addr, broadcast: SwimBroadcast)
      returns (finished: bool, ghost done: seq<Timed>, ghost made: seq<Datagram>)
      requires Valid() && !panicked && !timeIsUp
      modifies this`clock, this`attempts, this`panicked, this`timeIsUp, knownPeers
      ensures Valid() && old(clock) <= clock && attempts == old(attempts) + made
      ensures Did(old(State()), State(), done, made, finished)
      ensures |done| == 1 && AreBroadcastRecords(done, [(source, broadcast)]) && BeginAfter(done, old(clock))
      ensures finished ==> HandledBroadcast(done)
      ensures panicked ==> IdentityTooLong()
      ensures finished <==> !timeIsUp && !panicked
    {
      hide Did;
      ghost var n := State();
      ghost var s;
      match broadcast {
        case Failed(peer) =>
          made := [];
          finished, s := HandleFailed(source, peer);
        case Join(addr, newIdentity) =>
          finished, s, made := HandleJoin(source, addr, newIdentity);
        case Probe(prober) =>
          ghost var respond;
          finished, respond, made := MaybeRespondToProbe(prober);
          s := ReceiveBroadcast(source, broadcast, clock, true, respond, map[]);
      }
      done := [Timed(old(clock), clock, s)];
      DidOne(n, Timed(n.clock, clock, s), made, finished);
    }

    method HandleIncomingBroadcasts(packets: seq<Packet>)
      returns (finished: bool, ghost done: seq<Timed>, ghost made: seq<Datagram>)
      requires Valid() && !panicked && !timeIsUp
      modifies this`clock, this`attempts, this`panicked, this`timeIsUp, knownPeers
      ensures Valid() && old(clock) <= clock && attempts == old(attempts) + made
      ensures Did(old(State()), State(), done, made, finished)
      ensures AreBroadcastRecords(done, Broadcasts(packets)) && (finished ==> |done| == |Broadcasts(packets)|)
      ensures BeginAfter(done, old(clock))
      ensures panicked ==> IdentityTooLong()
      ensures finished <==> !timeIsUp && !panicked
    {
      hide *;
      ghost var n := State();
      done, made := [], [];
      DidNothing(n);
      var buffer := BufferAfter([]);
      NothingRead(packets, clock);
      for i := 0 to |packets|
        invariant Valid() && !timeIsUp && !panicked && old(clock) <= clock && attempts == old(attempts) + made
        invariant BroadcastsRead(packets, i, buffer, done, old(clock)) && Did(n, State(), done, made, true)
      {
        ghost var before, seen, begin, handled, more := buffer, done, clock, [], [];
        buffer := Codec.Fill(buffer, packets[i].bytes);
        var read := Codec.DecodeBroadcast(buffer);
        if read.Some? {
          ghost var n' := State();
          finished, handled, more := HandleBroadcast(packets[i].source, read.value);
          assert (old(attempts) + made) + more == old(attempts) + (made + more);
          DidMore(n, n', State(), done, made, handled, more, finished);
          done, made := done + handled, made + more;
          if !finished {
            ReadBroadcast(packets, i, before, seen, old(clock), handled, begin);
            return;
          }
        }
        ReadBroadcast(packets, i, before, seen, old(clock), handled, begin);
      }
      AllRead(packets, buffer, done, old(clock));
      finished := true;
    }

    // Ticks.

    method HandleArrival(arrival: Arrival)
      returns (finished: bool, ghost done: seq<Timed>, ghost made: seq<Datagram>)
      requires Valid() && !panicked && !timeIsUp
      modifies this`clock, this`curiousPeers, this`attempts, this`panicked, this`timeIsUp, knownPeers
      ensures Valid() && old(clock) <= clock && attempts == old(attempts) + made
      ensures Did(old(State()), State(), done, made, finished)
      ensures Answers(done, arrival, finished) && ListeningAfter(done, old(clock))
      ensures panicked ==> IdentityTooLong()
      ensures finished <==> !timeIsUp && !panicked
    {
      match arrival {
        case Unicasts(packets) =>
          hide Did, Messages, AreRecords, BeginAfter, ListeningAfter;
          finished, done, made := HandleIncomingMessages(packets);
          AnswersListen(done, arrival, finished, old(clock));
        case Multicasts(packets) =>
          hide Did, Broadcasts, AreBroadcastRecords, BeginAfter, ListeningAfter;
          finished, done, made := HandleIncomingBroadcasts(packets);
          AnswersListen(done, arrival, finished, old(clock));
      }
    }

    /** Handles what arrives, in the order it arrives, until the time for listening is up. */
    method Listen(arrivals: seq<Arrival>)
      returns (finished: bool, ghost parts: seq<seq<Timed>>, ghost made: seq<Datagram>)
      requires Valid() && !panicked && !timeIsUp
      modifies this`clock, this`curiousPeers, this`attempts, this`panicked, this`timeIsUp, knownPeers
      ensures Valid() && old(clock) <= clock && attempts == old(attempts) + made
      ensures Did(old(State()), State(), Flat(parts), made, finished)
      ensures |parts| <= |arrivals| && (finished ==> |parts| == |arrivals|)
      ensures forall i :: 0 <= i < |parts| ==> Answers(parts[i], arrivals[i], finished || i < |parts| - 1)
      ensures ListeningAfter(Flat(parts), old(clock))
      ensures panicked ==> IdentityTooLong()
      ensures finished <==> !timeIsUp && !panicked
    {
      hide *;
      ghost var n := State();
      parts, made := [], [];
      DidNothing(n);
      NothingFlat(clock);
      for i := 0 to |arrivals|
        invariant Valid() && !timeIsUp && !panicked && old(clock) <= clock && attempts == old(attempts) + made
        invariant Did(n, State(), Flat(parts), made, true) && ListeningAfter(Flat(parts), old(clock))
        invariant |parts| == i && forall j :: 0 <= j < i ==> Answers(parts[j], arrivals[j], true)
      {
        ghost var n', begin := State(), clock;
        ghost var done, more;
        finished, done, more := HandleArrival(arrivals[i]);
        assert (old(attempts) + made) + more == old(attempts) + (made + more);
        DidMore(n, n', State(), Flat(parts), made, done, more, finished);
        ListeningMore(Flat(parts), done, old(clock), begin);
        FlatMore(parts, done);
        parts, made := parts + [done], made + more;
        if !finished {
          return;
        }
      }
      finished := true;
    }

    /** `timeout`: the listening ends no earlier than it should. */
    method WaitUntil(deadline: Time)
      requires Valid()
      modifies this`clock
      ensures Valid() && old(clock) <= clock && deadline <= clock
    {
      var now := ReadClock();
      if now < deadline {
        clock := deadline;
      }
    }

    method JoinAndSweep()
      returns (start: Time, ghost k: Tick, ghost s0: Node, ghost s1: Node, ghost made: seq<Datagram>)
      requires Valid()
      modifies this`clock, this`lastBroadcastTime, this`curiousPeers, this`attempts, knownPeers
      ensures Valid() && old(clock) <= start == k.start <= clock && attempts == old(attempts) + made
      ensures Lags(old(State()), s0) && JoinPart(k, s0, s1) && SweepPart(k, s1, State())
      ensures DidSince(old(State()), State(), Optional(k.join) + [k.sweep], made, true)
    {
      hide After, Enabled, Attempts, JoinDue, Did, DidSince, SweepPart;
      ghost var n := State();
      start := ReadClock();
      s0 := State();
      SinceStart(n, s0);
      var joinRead;
      ghost var join;
      joinRead, join := MaybeBroadcastJoin();
      s1 := State();
      SinceOptional(n, s0, s1, [], [], join);
      made := [] + if join.Some? then Attempts(s0, join.value.step) else [];
      ghost var sweep := HandleSuspectedPeers();
      ghost var more := Attempts(s1, sweep.step);
      k := Tick(start, joinRead, join, sweep, None, [], clock, []);
      SweptSince(n, k, s1, State(), [] + Optional(join), made, more);
      assert [] + Optional(join) == Optional(join);
      made := made + more;
    }

    /** The subtasks before listening; `s0`, `s1` and `s2` are the states between them. */
    method Maintain(targets: seq<Addr>)
      returns (start: Time, ghost k: Tick, ghost s0: Node, ghost s1: Node, ghost s2: Node,
               ghost made: seq<Datagram>)
      requires Valid()
      modifies this`clock, this`lastBroadcastTime, this`curiousPeers, this`attempts, knownPeers
      ensures Valid() && old(clock) <= start == k.start <= clock && attempts == old(attempts) + made
      ensures Lags(old(State()), s0) && JoinPart(k, s0, s1) && SweepPart(k, s1, s2)
      ensures PingPart(k, s2, State()) && ManualPart(k, State())
      ensures DidSince(old(State()), State(), Early(k), made, true)
      ensures |k.manual| == |targets|
      ensures forall i :: 0 <= i < |targets| ==> k.manual[i].step == ManualPing(targets[i])
    {
      hide After, Enabled, Attempts, NonSuspected, Did, DidSince, CanDoAll, DoAll, JoinPart, SweepPart;
      ghost var n := State();
      start, k, s0, s1, made := JoinAndSweep();
      s2 := State();
      ghost var k0, ping, manual, more := k, None, [], [];
      ping := PingRandomPeer();
      SinceOptional(n, s2, State(), Optional(k.join) + [k.sweep], made, ping);
      made := made + if ping.Some? then Attempts(s2, ping.value.step) else [];
      manual, more := HandleIncomingPingRequests(targets);
      DidSteps(State(), State(), manual, more, true);
      SinceMore(n, State(), State(), Optional(k.join) + [k.sweep] + Optional(ping), made, manual, more, true);
      made, k := made + more, k.(ping := ping, manual := manual);
      FirstPartsStay(k0, k, s0, s1, s2);
    }

    /** One tick: the subtasks, and then listening for what is left of the period. */
    method RunTick(targets: seq<Addr>, arrivals: seq<Arrival>)
      returns (finished: bool, ghost k: Tick, ghost parts: seq<seq<Timed>>, ghost made: seq<Datagram>)
      requires Valid() && !panicked
      modifies this, knownPeers
      ensures Valid() && IsTick(old(State()), k) && Lags(EndOf(old(State()), k), State())
      ensures old(clock) <= k.start && (panicked ==> IdentityTooLong())
      ensures finished <==> !timeIsUp && !panicked
      ensures !panicked ==> k.measured + RequiredDelay(k.start, k.measured) <= clock
      ensures |k.manual| == |targets|
      ensures forall i :: 0 <= i < |targets| ==> k.manual[i].step == ManualPing(targets[i])
      ensures k.heard == Flat(parts) && |parts| <= |arrivals| && (finished ==> |parts| == |arrivals|)
      ensures forall i :: 0 <= i < |parts| ==> Answers(parts[i], arrivals[i], finished || i < |parts| - 1)
      ensures attempts == old(attempts) + made && made <= AllAttempts(old(State()), StepsOf(k))
      ensures finished ==> made == AllAttempts(old(State()), StepsOf(k))
    {
      hide After, Enabled, Attempts, JoinDue, NonSuspected, Did, DidSince, CanDoAll, DoAll, EndOf, IsTick,
        JoinPart, SweepPart, PingPart, ManualPart, ListenPart, Answers, ListeningAfter, Flat;
      ghost var n := State();
      ghost var s0, s1, s2, more;
      var start;
      start, k, s0, s1, s2, made := Maintain(targets);
      ghost var s3 := State();
      var measured := ReadClock();
      ghost var s4 := State();
      var requiredDelay := RequiredDelay(start, measured);
      timeIsUp := false;
      finished, parts, more := Listen(arrivals);
      ghost var s5 := State();
      if !panicked {
        WaitUntil(measured + requiredDelay);
      }
      SinceLater(n, s3, s4, Early(k), made, true);
      SinceMore(n, s4, s5, Early(k), made, Flat(parts), more, finished);
      SinceSent(n, s5, Early(k) + Flat(parts), made + more, finished);
      ghost var k0 := k;
      k, made := k.(measured := measured, heard := Flat(parts)), made + more;
      PartsStay(k0, k, s0, s1, s2, s3);
      ListenedTo(k, s4, s5, more, finished);
      PartsMakeTick(n, k, s0, s1, s2, s3, s4, s5);
    }

    /**
     * `run`: tick after tick until told to stop, each with the pings asked for and what arrived.
     * Only the reply to a newcomer can end the task before that, and only with an overlong identity.
     */
    method Run(inputs: seq<(seq<Addr>, seq<Arrival>)>)
      returns (ghost ns: seq<Node>, ghost ks: seq<Tick>, ghost mades: seq<seq<Datagram>>)
      requires Valid() && !panicked
      modifies this, knownPeers
      ensures Valid() && |ks| <= |inputs| && |ns| == |ks| + 1 && AreTicks(ns, ks)
      ensures ns[0] == old(State()) && ns[|ks|] == State()
      ensures ServesEach(ks, inputs) && SentInTicks(ns, ks, mades) && attempts == old(attempts) + Flat(mades)
      ensures if panicked then IdentityTooLong() else |ks| == |inputs|
    {
      hide *;
      ns, ks, mades := [State()], [], [];
      NoTicks(State());
      NothingMade(attempts);
      var i := 0;
      while i < |inputs| && !panicked
        invariant Valid() && |ks| == i <= |inputs| && |ns| == i + 1 && AreTicks(ns, ks)
        invariant ns[0] == old(State()) && ns[i] == State()
        invariant ServesEach(ks, inputs) && SentInTicks(ns, ks, mades) && attempts == old(attempts) + Flat(mades)
        invariant panicked ==> IdentityTooLong()
        invariant i > 0 && !panicked ==>
                    ks[i - 1].measured + RequiredDelay(ks[i - 1].start, ks[i - 1].measured) <= clock
      {
        ghost var k, parts, made;
        var finished;
        finished, k, parts, made := RunTick(inputs[i].0, inputs[i].1);
        ServesAll(k, inputs[i].0, inputs[i].1, parts, finished);
        OneMoreTick(ns, ks, k, State());
        OneMoreServed(ns, ks, mades, inputs, State(), k, made);
        FlatMore(mades, made);
        assert (old(attempts) + Flat(mades)) + made == old(attempts) + (Flat(mades) + made);
        ns, ks, mades := ns + [State()], ks + [k], mades + [made];
        i := i + 1;
      }
    }
  }
}
