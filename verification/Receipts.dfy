/** What arrives at the sockets, and why a handler that may be cut off does part of one step. */
module Receipts {
  import opened Basics
  import opened Types
  import opened Node
  import Codec

  datatype Packet = Packet(source: Addr, bytes: Bytes)

  /** What is in the receive buffer after these packets: the ends of older ones stay behind the last. */
  function BufferAfter(packets: seq<Packet>): (buffer: Bytes)
    ensures |buffer| == INCOMING_BUFFER_SIZE
  {
    if packets == [] then seq(INCOMING_BUFFER_SIZE, i => 0)
    else Codec.Fill(BufferAfter(packets[..|packets| - 1]), packets[|packets| - 1].bytes)
  }

  /** The messages that can be made out in the buffer, packet by packet. */
  ghost function Messages(packets: seq<Packet>): seq<(Addr, SwimEnvelope)> {
    if packets == [] then []
    else
      var read := Codec.DecodeEnvelope(BufferAfter(packets));
      Messages(packets[..|packets| - 1])
      + (if read.Some? then [(packets[|packets| - 1].source, read.value)] else [])
  }

  ghost function Broadcasts(packets: seq<Packet>): seq<(Addr, SwimBroadcast)> {
    if packets == [] then []
    else
      var read := Codec.DecodeBroadcast(BufferAfter(packets));
      Broadcasts(packets[..|packets| - 1])
      + (if read.Some? then [(packets[|packets| - 1].source, read.value)] else [])
  }

  lemma {:induction false} PrefixOfMessages(packets: seq<Packet>, i: nat)
    requires i <= |packets|
    ensures Messages(packets[..i]) <= Messages(packets)
    decreases |packets|
  {
    if i == |packets| {
      assert packets[..i] == packets;
    } else {
      PrefixOfMessages(packets[..|packets| - 1], i);
      assert packets[..|packets| - 1][..i] == packets[..i];
    }
  }

  lemma {:induction false} PrefixOfBroadcasts(packets: seq<Packet>, i: nat)
    requires i <= |packets|
    ensures Broadcasts(packets[..i]) <= Broadcasts(packets)
    decreases |packets|
  {
    if i == |packets| {
      assert packets[..i] == packets;
    } else {
      PrefixOfBroadcasts(packets[..|packets| - 1], i);
      assert packets[..|packets| - 1][..i] == packets[..i];
    }
  }

  lemma {:induction false} ForwardsPrefix(n: Node, observers: seq<Addr>, ack: SwimMessage, i: nat)
    requires i <= |observers|
    ensures Forwards(n, observers[..i], ack) <= Forwards(n, observers, ack)
    decreases |observers|
  {
    if i == |observers| {
      assert observers[..i] == observers;
    } else {
      ForwardsPrefix(n, observers[..|observers| - 1], ack, i);
      assert observers[..|observers| - 1][..i] == observers[..i];
    }
  }

  /** The record of a handled message, the sender having been heard at `stamp` and `measured`. */
  ghost predicate IsRecord(s: Step, sender: Addr, envelope: SwimEnvelope, stamp: Time, measured: Time) {
    s.Receive? && s.sender == sender && s.envelope == envelope && s.stamp == stamp && s.measured == measured
  }

  /** Everything read after the sender was heard was read in order, and for every peer then known. */
  ghost predicate ReadInOrder(s: Step, heard: Node, end: Time)
    requires s.Receive?
  {
    && (s.merged.Some? ==> s.measured <= s.merged.value <= end)
    && (forall p :: p in heard.known ==> p in s.readings && s.measured <= s.readings[p] <= end)
  }

  lemma ReceiptIsStep(n: Node, end: Time, s: Step)
    requires s.Receive? && n.clock <= s.stamp <= s.measured <= end
    requires ReadInOrder(s, Heard(n, s.sender, s.envelope.identity, s.stamp, s.measured), end)
    ensures Enabled(n, n.clock, end, s)
    ensures After(n, end, s)
         == AfterMessage(Heard(n, s.sender, s.envelope.identity, s.stamp, s.measured), s).(clock := end)
    ensures Attempts(n, s) == Replies(Heard(n, s.sender, s.envelope.identity, s.stamp, s.measured), s)
  {
    var heard := Heard(n, s.sender, s.envelope.identity, s.stamp, s.measured);
    assert forall p :: p in n.known || p == s.sender ==> p in heard.known;
  }

  /** The step records that message. */
  ghost predicate Records(t: Timed, message: (Addr, SwimEnvelope)) {
    t.step.Receive? && t.step.sender == message.0 && t.step.envelope == message.1
  }

  ghost predicate RecordsBroadcast(t: Timed, message: (Addr, SwimBroadcast)) {
    t.step.ReceiveBroadcast? && t.step.source == message.0 && t.step.broadcast == message.1
  }

  /** One more of the listed peers: somebody new to us. */
  lemma MergeOne(known: PeerMap, told: View, left: set<Addr>, p: Addr, now: Time)
    requires p in told && p in left && p !in known
    ensures Merged(known, told - (left - {p}), now)
         == Merged(known, told - left, now)[p := PeerInfo(told[p], Known(now - MAX_PEER_SHARE_AGE), None)]
  {
  }

  lemma NobodyNew(known: PeerMap, told: View, now: Time)
    ensures Merged(known, told - (told.Keys - known.Keys), now) == known
  {
  }

  lemma SyncIgnoresNotes(n: Node, curious: map<Addr, seq<Addr>>, peer: Addr, fingerprint: U32, count: U32)
    ensures SyncRequest(n.(curious := curious), peer, fingerprint, count)
         == SyncRequest(n, peer, fingerprint, count)
  {
  }

  lemma NoForwards(n: Node, ack: SwimMessage)
    ensures Forwards(n, [], ack) == []
  {
  }

  lemma SyncIgnoresClock(n: Node, now: Time, peer: Addr, fingerprint: U32, count: U32)
    ensures SyncRequest(n.(clock := now), peer, fingerprint, count)
         == SyncRequest(n, peer, fingerprint, count)
  {
  }

  lemma NothingShared(n: Node, asker: Addr)
    ensures Shareable(n, asker, map[]) == map[]
  {
  }

  lemma ReadOne(n: Node, asker: Addr, readings: map<Addr, Time>, p: Addr, now: Time)
    requires p in n.known && p !in readings
    ensures Shareable(n, asker, readings[p := now])
         == if Shared(n, asker, readings[p := now], p)
            then Shareable(n, asker, readings)[p := n.known[p].identity]
            else Shareable(n, asker, readings)
  {
    assert forall q :: q != p ==> (Shared(n, asker, readings[p := now], q) <==> Shared(n, asker, readings, q));
  }

  ghost predicate BeginAfter(done: seq<Timed>, begin: Time) {
    forall t :: t in done ==> begin <= t.begin
  }

  /** What reading one more packet does to the buffer and to the list of messages. */
  lemma NextMessage(packets: seq<Packet>, i: nat)
    requires i < |packets|
    ensures BufferAfter(packets[..i + 1]) == Codec.Fill(BufferAfter(packets[..i]), packets[i].bytes)
    ensures var read := Codec.DecodeEnvelope(BufferAfter(packets[..i + 1]));
            Messages(packets[..i + 1])
            == if read.Some? then Messages(packets[..i]) + [(packets[i].source, read.value)]
               else Messages(packets[..i])
    ensures Messages(packets[..i + 1]) <= Messages(packets)
  {
    hide Codec.DecodeEnvelope, Codec.Fill;
    assert packets[..i + 1][..i] == packets[..i];
    PrefixOfMessages(packets, i + 1);
  }

  lemma NextBroadcast(packets: seq<Packet>, i: nat)
    requires i < |packets|
    ensures BufferAfter(packets[..i + 1]) == Codec.Fill(BufferAfter(packets[..i]), packets[i].bytes)
    ensures var read := Codec.DecodeBroadcast(BufferAfter(packets[..i + 1]));
            Broadcasts(packets[..i + 1])
            == if read.Some? then Broadcasts(packets[..i]) + [(packets[i].source, read.value)]
               else Broadcasts(packets[..i])
    ensures Broadcasts(packets[..i + 1]) <= Broadcasts(packets)
  {
    assert packets[..i + 1][..i] == packets[..i];
    PrefixOfBroadcasts(packets, i + 1);
  }

  ghost predicate AreRecords(done: seq<Timed>, messages: seq<(Addr, SwimEnvelope)>) {
    |done| <= |messages| && forall i :: 0 <= i < |done| ==> Records(done[i], messages[i])
  }

  /** One message handled, a list of peers included, to the end. */
  ghost predicate HandledWhole(done: seq<Timed>) {
    |done| == 1 && done[0].step.Receive? &&
    (done[0].step.envelope.msg.KnownPeers? ==> done[0].step.merged.Some?)
  }

  ghost predicate AreBroadcastRecords(done: seq<Timed>, messages: seq<(Addr, SwimBroadcast)>) {
    |done| <= |messages| && forall i :: 0 <= i < |done| ==> RecordsBroadcast(done[i], messages[i])
  }

  /** The first `i` packets have been read, and what could be made out in them was handled. */
  ghost predicate MessagesRead(packets: seq<Packet>, i: nat, buffer: Bytes, done: seq<Timed>, begin: Time) {
    && i <= |packets| && buffer == BufferAfter(packets[..i])
    && AreRecords(done, Messages(packets[..i])) && |done| == |Messages(packets[..i])|
    && BeginAfter(done, begin)
  }

  lemma ReadMessage(packets: seq<Packet>, i: nat, buffer: Bytes, done: seq<Timed>, begin: Time,
              more: seq<Timed>, later: Time)
    requires MessagesRead(packets, i, buffer, done, begin) && i < |packets|
    requires begin <= later
    requires var read := Codec.DecodeEnvelope(Codec.Fill(buffer, packets[i].bytes));
             if read.Some? then AreRecords(more, [(packets[i].source, read.value)]) && BeginAfter(more, later)
             else more == []
    ensures AreRecords(done + more, Messages(packets)) && BeginAfter(done + more, begin)
    ensures more == [] ==> done + more == done
    ensures var buffer' := Codec.Fill(buffer, packets[i].bytes);
            Codec.DecodeEnvelope(buffer').None? || HandledWhole(more) ==>
              MessagesRead(packets, i + 1, buffer', done + more, begin)
  {
    hide Codec.DecodeEnvelope, Codec.Fill, BufferAfter, Messages;
    NextMessage(packets, i);
    if more == [] {
      assert done + more == done;
    }
    hide Records, RecordsBroadcast;
  }

  ghost predicate HandledBroadcast(done: seq<Timed>) {
    |done| == 1 && done[0].step.ReceiveBroadcast? && done[0].step.handled
  }

  /** The first `i` packets have been read, and what could be made out in them was handled. */
  ghost predicate BroadcastsRead(packets: seq<Packet>, i: nat, buffer: Bytes, done: seq<Timed>, begin: Time) {
    && i <= |packets| && buffer == BufferAfter(packets[..i])
    && AreBroadcastRecords(done, Broadcasts(packets[..i])) && |done| == |Broadcasts(packets[..i])|
    && BeginAfter(done, begin)
  }

  lemma ReadBroadcast(packets: seq<Packet>, i: nat, buffer: Bytes, done: seq<Timed>, begin: Time,
              more: seq<Timed>, later: Time)
    requires BroadcastsRead(packets, i, buffer, done, begin) && i < |packets|
    requires begin <= later
    requires var read := Codec.DecodeBroadcast(Codec.Fill(buffer, packets[i].bytes));
             if read.Some? then AreBroadcastRecords(more, [(packets[i].source, read.value)]) && BeginAfter(more, later)
             else more == []
    ensures AreBroadcastRecords(done + more, Broadcasts(packets)) && BeginAfter(done + more, begin)
    ensures more == [] ==> done + more == done
    ensures var buffer' := Codec.Fill(buffer, packets[i].bytes);
            Codec.DecodeBroadcast(buffer').None? || HandledBroadcast(more) ==>
              BroadcastsRead(packets, i + 1, buffer', done + more, begin)
  {
    hide Codec.DecodeBroadcast, Codec.Fill, BufferAfter, Broadcasts;
    NextBroadcast(packets, i);
    if more == [] {
      assert done + more == done;
    }
    hide Records, RecordsBroadcast;
  }

  lemma NothingRead(packets: seq<Packet>, begin: Time)
    ensures MessagesRead(packets, 0, BufferAfter([]), [], begin)
    ensures BroadcastsRead(packets, 0, BufferAfter([]), [], begin)
  {
    assert packets[..0] == [];
  }

  lemma AllRead(packets: seq<Packet>, buffer: Bytes, done: seq<Timed>, begin: Time)
    ensures MessagesRead(packets, |packets|, buffer, done, begin) ==>
              AreRecords(done, Messages(packets)) && |done| == |Messages(packets)| && BeginAfter(done, begin)
    ensures BroadcastsRead(packets, |packets|, buffer, done, begin) ==>
              && AreBroadcastRecords(done, Broadcasts(packets)) && |done| == |Broadcasts(packets)|
              && BeginAfter(done, begin)
  {
    assert packets[..|packets|] == packets;
  }

  /** What one call of a handler finds at its socket. */
  datatype Arrival = Unicasts(packets: seq<Packet>) | Multicasts(packets: seq<Packet>)

  ghost predicate Answers(steps: seq<Timed>, arrival: Arrival, finished: bool) {
    match arrival
    case Unicasts(packets) =>
      AreRecords(steps, Messages(packets)) && (finished ==> |steps| == |Messages(packets)|)
    case Multicasts(packets) =>
      AreBroadcastRecords(steps, Broadcasts(packets)) && (finished ==> |steps| == |Broadcasts(packets)|)
  }

  ghost function Flat<T>(parts: seq<seq<T>>): seq<T> {
    if parts == [] then [] else Flat(parts[..|parts| - 1]) + parts[|parts| - 1]
  }

  lemma FlatMore<T>(parts: seq<seq<T>>, more: seq<T>)
    ensures Flat(parts + [more]) == Flat(parts) + more
  {
    assert (parts + [more])[..|parts|] == parts;
  }

  ghost predicate ListeningAfter(steps: seq<Timed>, begin: Time) {
    forall t :: t in steps ==> (t.step.Receive? || t.step.ReceiveBroadcast?) && begin <= t.begin
  }

  lemma AnswersListen(steps: seq<Timed>, arrival: Arrival, finished: bool, begin: Time)
    requires Answers(steps, arrival, finished) && BeginAfter(steps, begin)
    ensures ListeningAfter(steps, begin)
  {
  }

  lemma ListeningMore(steps: seq<Timed>, more: seq<Timed>, begin: Time, later: Time)
    requires ListeningAfter(steps, begin) && ListeningAfter(more, later) && begin <= later
    ensures ListeningAfter(steps + more, begin)
  {
  }

  lemma NothingFlat(begin: Time)
    ensures Flat<Timed>([]) == [] && ListeningAfter([], begin)
  {
  }

  lemma NothingMade(attempts: seq<Datagram>)
    ensures attempts == attempts + Flat<Datagram>([])
  {
  }
}
