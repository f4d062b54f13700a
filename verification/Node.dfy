/**
 * One mesh member as a timed state machine: the state that `KaboodleInner` keeps, and what each
 * of its subtasks and message handlers does to it and tries to send. The random choices, the
 * order of map iteration and the clock readings that a step makes are recorded in the step, so
 * that `After` and `Attempts` are functions of them; `Enabled` says which records are possible.
 */
module Node {
  import opened Basics
  import opened Types
  import Fingerprint

  datatype Node = Node(
    self: Addr,
    broadcastSource: Addr,  // source address of our broadcasts: they leave from another socket
    identity: Bytes,
    text: Addr -> Bytes,  // how addresses are written out for the fingerprint
    known: PeerMap,
    curious: map<Addr, seq<Addr>>,
    lastBroadcast: Option<Time>,
    clock: Time  // the latest clock reading made so far
  )

  datatype Datagram =
    | Unicast(src: Addr, dst: Addr, envelope: SwimEnvelope)
    | Multicast(src: Addr, broadcast: SwimBroadcast)
    | ProbeReply(src: Addr, dst: Addr, response: ProbeResponse)

  /** What one sweep over the suspected peers read, drew and stamped. */
  datatype SweepPlan = SweepPlan(
    order: seq<Addr>,
    readings: map<Addr, Time>,
    helpers: map<Addr, seq<Addr>>,
    stamps: map<Addr, Time>
  )

  datatype Step =
    | BroadcastJoin(now: Time)
    | Sweep(plan: SweepPlan)
    | PingOne(target: Addr, stamp: Time, delivered: bool)
    | ManualPing(target: Addr)
    | Receive(sender: Addr, envelope: SwimEnvelope, stamp: Time, measured: Time,
              merged: Option<Time>, readings: map<Addr, Time>)
    | ReceiveBroadcast(source: Addr, broadcast: SwimBroadcast, stamp: Time,
                       handled: bool, respond: bool, listed: View)

  ghost function FingerprintOf(n: Node): U32 {
    Fingerprint.Of(n.text, ViewOf(n.known))
  }

  function Envelope(n: Node, msg: SwimMessage): SwimEnvelope {
    SwimEnvelope(n.identity, msg)
  }

  function To(n: Node, dst: Addr, msg: SwimMessage): Datagram {
    Unicast(n.self, dst, Envelope(n, msg))
  }

  /** The peers that are neither suspected nor ourselves. */
  ghost function NonSuspected(n: Node): set<Addr> {
    set p | p in n.known && p != n.self && n.known[p].state.Known?
  }

  // Joining.

  ghost predicate JoinDue(n: Node, now: Time) {
    n.lastBroadcast.Some? ==>
      Elapsed(now, n.lastBroadcast.value) >= REBROADCAST_INTERVAL && |n.known| <= 1
  }

  // The sweep over suspected peers.

  ghost predicate Expired(n: Node, plan: SweepPlan, p: Addr) {
    && p in n.known && p in plan.readings
    && !n.known[p].state.Known?
    && Elapsed(plan.readings[p], n.known[p].state.since) >= PING_TIMEOUT
  }

  /** Peers that get a second chance: others will be asked to ping them. */
  ghost predicate Demoted(n: Node, plan: SweepPlan, p: Addr) {
    Expired(n, plan, p) && n.known[p].state.WaitingForPing? && NonSuspected(n) != {}
  }

  ghost predicate Evicted(n: Node, plan: SweepPlan, p: Addr) {
    Expired(n, plan, p) && (n.known[p].state.WaitingForPing? ==> NonSuspected(n) == {})
  }

  ghost predicate ValidHelpers(n: Node, helpers: seq<Addr>) {
    && NoDuplicates(helpers)
    && Elements(helpers) <= NonSuspected(n)
    && |helpers| == if |NonSuspected(n)| < NUM_INDIRECT_PING_PEERS then |NonSuspected(n)|
                    else NUM_INDIRECT_PING_PEERS
  }

  ghost predicate ValidPlan(n: Node, begin: Time, end: Time, plan: SweepPlan) {
    && NoDuplicates(plan.order) && Elements(plan.order) == n.known.Keys
    && (forall p :: p in n.known && !n.known[p].state.Known? ==>
          p in plan.readings && begin <= plan.readings[p] <= end)
    && (forall p :: Demoted(n, plan, p) ==>
          && p in plan.helpers && ValidHelpers(n, plan.helpers[p])
          && p in plan.stamps && plan.readings[p] <= plan.stamps[p] <= end)
  }

  /** What the three passes amount to, peer by peer. */
  ghost function Swept(n: Node, plan: SweepPlan): PeerMap {
    map p | p in n.known && !Evicted(n, plan, p) ::
      if Demoted(n, plan, p) && p in plan.stamps then n.known[p].(state := WaitingForIndirectPing(plan.stamps[p]))
      else n.known[p]
  }

  ghost function EvictedPeers(n: Node, plan: SweepPlan): set<Addr> {
    set p | p in n.known && Evicted(n, plan, p)
  }

  function RequestsTo(n: Node, suspect: Addr, helpers: seq<Addr>): seq<Datagram> {
    if helpers == [] then []
    else
      RequestsTo(n, suspect, helpers[..|helpers| - 1])
      + [To(n, helpers[|helpers| - 1], PingRequest(suspect))]
  }

  ghost function Requests(n: Node, plan: SweepPlan, order: seq<Addr>): seq<Datagram> {
    if order == [] then []
    else
      var p := order[|order| - 1];
      Requests(n, plan, order[..|order| - 1])
      + (if Demoted(n, plan, p) && p in plan.helpers then RequestsTo(n, p, plan.helpers[p]) else [])
  }

  ghost function EvictedIn(n: Node, plan: SweepPlan, order: seq<Addr>): seq<Addr> {
    if order == [] then []
    else
      var p := order[|order| - 1];
      EvictedIn(n, plan, order[..|order| - 1]) + (if Evicted(n, plan, p) then [p] else [])
  }

  function FailuresOf(source: Addr, peers: seq<Addr>): seq<Datagram> {
    if peers == [] then []
    else FailuresOf(source, peers[..|peers| - 1]) + [Multicast(source, Failed(peers[|peers| - 1]))]
  }

  /** One announcement for each evicted peer, in the order of the sweep. */
  ghost function Failures(n: Node, plan: SweepPlan, order: seq<Addr>): seq<Datagram> {
    FailuresOf(n.broadcastSource, EvictedIn(n, plan, order))
  }

  // Choosing whom to ping.

  ghost function StrictlyOlder(n: Node, p: Addr): set<Addr>
    requires p in n.known
  {
    set q | q in NonSuspected(n) && n.known[q].state.since < n.known[p].state.since
  }

  /** The peers that some listing by age puts among the first `NUM_CANDIDATE_TARGET_PEERS`. */
  ghost predicate AmongOldest(n: Node, p: Addr) {
    p in NonSuspected(n) && |StrictlyOlder(n, p)| < NUM_CANDIDATE_TARGET_PEERS
  }

  // Hearing from a peer.

  function LatencyAfter(info: PeerInfo, measured: Time): Option<nat> {
    if info.state.Known? then info.latency
    else
      var sample := Elapsed(measured, info.state.since);
      match info.latency
      case None => Some(sample)
      case Some(previous) => Some((8 * sample + 2 * previous) / 10)
  }

  /** The sender of a datagram becomes Known, whatever it was. */
  function Heard(n: Node, sender: Addr, identity: Bytes, stamp: Time, measured: Time): Node {
    var latency := if sender in n.known then LatencyAfter(n.known[sender], measured) else None;
    n.(known := n.known[sender := PeerInfo(identity, Known(stamp), latency)], clock := measured)
  }

  /** Peers we are told about enter with a timestamp too old to be passed on. */
  function Merged(known: PeerMap, told: View, now: Time): PeerMap {
    known + map p | p in told && p !in known ::
              PeerInfo(told[p], Known(now - MAX_PEER_SHARE_AGE), None)
  }

  function WithObserver(n: Node, peer: Addr, observer: Addr): map<Addr, seq<Addr>> {
    var observers := if peer in n.curious then n.curious[peer] else [];
    n.curious[peer := if observer in observers then observers else observers + [observer]]
  }

  /** What we pass on when asked: everyone else that we have reason to think is up. */
  ghost predicate Shared(n: Node, asker: Addr, readings: map<Addr, Time>, p: Addr) {
    && p in n.known && p != n.self && p != asker
    && n.known[p].state.Known? && p in readings
    && Elapsed(readings[p], n.known[p].state.since) < MAX_PEER_SHARE_AGE
  }

  ghost function Shareable(n: Node, asker: Addr, readings: map<Addr, Time>): View {
    map p | p in n.known && Shared(n, asker, readings, p) :: n.known[p].identity
  }

  ghost predicate Asks(n: Node, theirFingerprint: U32, theirCount: U32) {
    FingerprintOf(n) != theirFingerprint && CountOf(n.known) <= theirCount
  }

  ghost function SyncRequest(n: Node, peer: Addr, theirFingerprint: U32, theirCount: U32): seq<Datagram> {
    if Asks(n, theirFingerprint, theirCount)
    then [To(n, peer, KnownPeersRequest(FingerprintOf(n), CountOf(n.known)))]
    else []
  }

  function Forwards(n: Node, observers: seq<Addr>, ack: SwimMessage): seq<Datagram> {
    if observers == [] then []
    else Forwards(n, observers[..|observers| - 1], ack) + [To(n, observers[|observers| - 1], ack)]
  }

  function ObserversOf(n: Node, peer: Addr): seq<Addr> {
    if peer in n.curious then n.curious[peer] else []
  }

  /** The state and the sends of the message-specific part, `n` having heard the sender already. */
  ghost function AfterMessage(n: Node, s: Step): Node
    requires s.Receive?
  {
    match s.envelope.msg
    case Ack(peer, _, _) => n.(curious := n.curious - {peer})
    case KnownPeers(peers) =>
      if s.merged.Some? then n.(known := Merged(n.known, peers, s.merged.value)) else n
    case PingRequest(target) => n.(curious := WithObserver(n, target, s.sender))
    case _ => n
  }

  ghost function Replies(n: Node, s: Step): seq<Datagram>
    requires s.Receive?
  {
    match s.envelope.msg
    case Ping => [To(n, s.sender, Ack(n.self, FingerprintOf(n), CountOf(n.known)))]
    case PingRequest(target) => [To(n, target, Ping)]
    case Ack(peer, fingerprint, count) =>
      Forwards(n, ObserversOf(n, peer), s.envelope.msg) + SyncRequest(n, peer, fingerprint, count)
    case KnownPeers(_) => []
    case KnownPeersRequest(fingerprint, count) =>
      [To(n, s.sender, KnownPeers(Shareable(n, s.sender, s.readings)))]
      + SyncRequest(n, s.sender, fingerprint, count)
  }

  // Hearing a broadcast.

  /** `should_respond_to_broadcast` has to say yes when nobody else is there to respond. */
  ghost predicate MustRespond(known: PeerMap) {
    |known| <= 2
  }

  function Joined(n: Node, addr: Addr, identity: Bytes, stamp: Time): PeerMap {
    var latency := if addr in n.known then n.known[addr].latency else None;
    n.known[addr := PeerInfo(identity, Known(stamp), latency)]
  }

  ghost predicate IsNewcomer(n: Node, s: Step)
    requires s.ReceiveBroadcast?
  {
    s.broadcast.Join? && s.broadcast.addr != n.self && s.broadcast.addr !in n.known
  }

  ghost predicate Submap(small: View, large: View) {
    forall p :: p in small ==> p in large && small[p] == large[p]
  }

  // The steps.

  ghost predicate Enabled(n: Node, begin: Time, end: Time, s: Step) {
    && n.clock <= begin <= end
    && match s
       case BroadcastJoin(now) => begin <= now <= end && JoinDue(n, now)
       case Sweep(plan) => ValidPlan(n, begin, end, plan)
       case PingOne(target, stamp, _) => begin <= stamp <= end && AmongOldest(n, target)
       case ManualPing(_) => true
       case Receive(sender, envelope, stamp, measured, merged, readings) =>
         && begin <= stamp <= measured <= end
         && (merged.Some? ==> measured <= merged.value <= end)
         && (forall p :: p in n.known || p == sender ==> p in readings && measured <= readings[p] <= end)
       case ReceiveBroadcast(source, broadcast, stamp, handled, respond, listed) =>
         && begin <= stamp <= end
         && (handled && IsNewcomer(n, s) ==>
               var known := Joined(n, broadcast.addr, broadcast.identity, stamp);
               (MustRespond(known) ==> respond) && Submap(listed, ViewOf(known)))
         && (handled && broadcast.Probe? && MustRespond(n.known) ==> respond)
  }

  ghost function AfterSweep(n: Node, plan: SweepPlan): Node {
    n.(known := Swept(n, plan), curious := n.curious - EvictedPeers(n, plan))
  }

  /** The target awaits its answer, or is forgotten when not even the ping could be sent. */
  function AfterPing(n: Node, target: Addr, stamp: Time, delivered: bool): Node {
    if !delivered then n.(known := n.known - {target})
    else if target !in n.known then n
    else n.(known := n.known[target := n.known[target].(state := WaitingForPing(stamp))])
  }

  ghost function AfterReceive(n: Node, s: Step): Node
    requires s.Receive?
  {
    AfterMessage(Heard(n, s.sender, s.envelope.identity, s.stamp, s.measured), s)
  }

  ghost function AfterBroadcast(n: Node, s: Step): Node
    requires s.ReceiveBroadcast?
  {
    if !s.handled then n
    else match s.broadcast
      case Failed(peer) =>
        if peer != n.self && s.source in n.known then n.(known := n.known - {peer}) else n
      case Join(addr, identity) =>
        if addr != n.self then n.(known := Joined(n, addr, identity, s.stamp)) else n
      case Probe(_) => n
  }

  ghost function After(n: Node, end: Time, s: Step): Node {
    var n' :=
      match s
      case BroadcastJoin(now) => n.(lastBroadcast := Some(now))
      case Sweep(plan) => AfterSweep(n, plan)
      case PingOne(target, stamp, delivered) => AfterPing(n, target, stamp, delivered)
      case ManualPing(_) => n
      case Receive(_, _, _, _, _, _) => AfterReceive(n, s)
      case ReceiveBroadcast(_, _, _, _, _, _) => AfterBroadcast(n, s);
    n'.(clock := end)
  }

  /** The datagrams a step tries to send, in order; it may be cut short, and sends can fail. */
  ghost function Attempts(n: Node, s: Step): seq<Datagram> {
    match s
    case BroadcastJoin(_) => [Multicast(n.broadcastSource, Join(n.self, n.identity))]
    case Sweep(plan) => Requests(n, plan, plan.order) + Failures(n, plan, plan.order)
    case PingOne(target, _, _) => [To(n, target, Ping)]
    case ManualPing(target) => [To(n, target, Ping)]
    case Receive(sender, envelope, stamp, measured, _, _) =>
      Replies(Heard(n, sender, envelope.identity, stamp, measured), s)
    case ReceiveBroadcast(_, broadcast, _, handled, respond, listed) =>
      if !handled || !respond then []
      else if IsNewcomer(n, s) then [To(n, broadcast.addr, KnownPeers(listed))]
      else if broadcast.Probe? then
        [ProbeReply(n.self, broadcast.prober, ProbeResponse(n.identity))]
      else []
  }

  /** A step with the clock window it ran in. */
  datatype Timed = Timed(begin: Time, end: Time, step: Step)

  ghost function Do(n: Node, t: Timed): Node {
    After(n, t.end, t.step)
  }

  ghost predicate CanDo(n: Node, t: Timed) {
    Enabled(n, t.begin, t.end, t.step)
  }

  // What every step of an honest run keeps.

  /** We know ourselves, remember no reading from the future, and list no observer twice. */
  ghost predicate Sound(n: Node) {
    && n.self in n.known && n.known[n.self].state.Known?
    && n.known[n.self].identity == n.identity
    && (forall p :: p in n.known ==> n.known[p].state.since <= n.clock)
    && (forall p :: p in n.curious ==> NoDuplicates(n.curious[p]))
  }

  ghost predicate Honest(n: Node, s: Step) {
    s.Receive? && s.sender == n.self ==> s.envelope.identity == n.identity
  }

  lemma StepKeepsSound(n: Node, begin: Time, end: Time, s: Step)
    requires Sound(n) && Enabled(n, begin, end, s) && Honest(n, s)
    ensures Sound(After(n, end, s))
  {
    match s {
      case Sweep(plan) => SweepKeepsSound(n, begin, end, plan);
      case Receive(_, _, _, _, _, _) => ReceiveKeepsSound(n, end, s);
      case _ =>
    }
  }

  lemma SweepKeepsSound(n: Node, begin: Time, end: Time, plan: SweepPlan)
    requires Sound(n) && n.clock <= end && ValidPlan(n, begin, end, plan)
    ensures Sound(AfterSweep(n, plan).(clock := end))
  {
    var n' := AfterSweep(n, plan);
    forall p | p in n'.known
      ensures n'.known[p].state.since <= end
    {
      assert p in n.known;
    }
  }

  lemma ReceiveKeepsSound(n: Node, end: Time, s: Step)
    requires Sound(n) && s.Receive? && Honest(n, s) && n.clock <= s.stamp <= s.measured <= end
    requires s.merged.Some? ==> s.merged.value <= end
    ensures Sound(AfterReceive(n, s).(clock := end))
  {
    var heard := Heard(n, s.sender, s.envelope.identity, s.stamp, s.measured).(clock := end);
    assert Sound(heard);
    match s.envelope.msg {
      case PingRequest(target) =>
        ElementsAppend(ObserversOf(n, target), s.sender);
      case _ =>
    }
  }

  /** The readings that would make `unwrap` panic in the latency computation cannot occur. */
  lemma LatencyNeverPanics(n: Node, begin: Time, end: Time, s: Step)
    requires Sound(n) && Enabled(n, begin, end, s) && s.Receive? && s.sender in n.known
    ensures n.known[s.sender].state.since <= s.measured
  {
  }

  /** No step changes who the node is. */
  lemma StepKeepsConstants(n: Node, begin: Time, end: Time, s: Step)
    requires Enabled(n, begin, end, s)
    ensures var n' := After(n, end, s);
            && n'.self == n.self && n'.identity == n.identity && n'.text == n.text
            && n'.broadcastSource == n.broadcastSource && n'.clock == end
  {
  }
}
