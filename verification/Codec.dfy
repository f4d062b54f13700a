/**
 * The wire layout: fixed-width little-endian integers, 64-bit lengths, 32-bit variant tags, and
 * bytes after the end of a value ignored (bincode 1.3 with its default functions). Maps are
 * written in whatever order they are iterated, which is a parameter.
 */
module Codec {
  import opened Basics
  import opened Types

  // Integers.

  ghost function Power256(k: nat): nat {
    if k == 0 then 1 else 256 * Power256(k - 1)
  }

  function Little(n: nat, k: nat): (r: Bytes)
    ensures |r| == k
  {
    if k == 0 then [] else [(n % 256) as Byte] + Little(n / 256, k - 1)
  }

  function FromLittle(bytes: Bytes): nat {
    if bytes == [] then 0 else bytes[0] as int + 256 * FromLittle(bytes[1..])
  }

  lemma {:induction false} LittleRoundTrip(n: nat, k: nat)
    requires n < Power256(k)
    ensures FromLittle(Little(n, k)) == n
  {
    if k > 0 {
      LittleRoundTrip(n / 256, k - 1);
      assert Little(n, k)[1..] == Little(n / 256, k - 1);
    }
  }

  lemma Power256Values()
    ensures Power256(2) == 0x1_0000 && Power256(4) == 0x1_0000_0000
    ensures Power256(8) == 0x1_0000_0000_0000_0000
  {
    assert Power256(6) == 0x1_0000_0000_0000;
  }

  const MAX_LENGTH: nat := 0x1_0000_0000_0000_0000

  // Encoding.

  function EncodeBytes(bytes: Bytes): Bytes {
    Little(|bytes|, 8) + bytes
  }

  function EncodeAddr(a: Addr): Bytes {
    match a
    case V4(ip, port) => Little(0, 4) + ip + Little(port, 2)
    case V6(ip, port) => Little(1, 4) + ip + Little(port, 2)
  }

  function EncodeEntry(a: Addr, identity: Bytes): Bytes {
    EncodeAddr(a) + EncodeBytes(identity)
  }

  function EncodeEntries(view: View, order: seq<Addr>): Bytes
    requires forall p :: p in order ==> p in view
  {
    if order == [] then []
    else EncodeEntry(order[0], view[order[0]]) + EncodeEntries(view, order[1..])
  }

  /** An order in which a map can be iterated. */
  ghost predicate IsOrder(view: View, order: seq<Addr>) {
    NoDuplicates(order) && Elements(order) == view.Keys
  }

  predicate Lists(msg: SwimMessage, order: seq<Addr>) {
    msg.KnownPeers? ==> forall p :: p in order ==> p in msg.peers
  }

  function EncodeMessage(msg: SwimMessage, order: seq<Addr>): Bytes
    requires Lists(msg, order)
  {
    match msg
    case Ping => Little(0, 4)
    case PingRequest(target) => Little(1, 4) + EncodeAddr(target)
    case Ack(peer, fingerprint, count) =>
      Little(2, 4) + (EncodeAddr(peer) + (Little(fingerprint, 4) + Little(count, 4)))
    case KnownPeers(peers) => Little(3, 4) + (Little(|order|, 8) + EncodeEntries(peers, order))
    case KnownPeersRequest(fingerprint, count) =>
      Little(4, 4) + (Little(fingerprint, 4) + Little(count, 4))
  }

  function EncodeEnvelope(e: SwimEnvelope, order: seq<Addr>): Bytes
    requires Lists(e.msg, order)
  {
    EncodeBytes(e.identity) + EncodeMessage(e.msg, order)
  }

  function EncodeBroadcast(b: SwimBroadcast): Bytes {
    match b
    case Join(addr, identity) => Little(0, 4) + EncodeEntry(addr, identity)
    case Failed(peer) => Little(1, 4) + EncodeAddr(peer)
    case Probe(prober) => Little(2, 4) + EncodeAddr(prober)
  }

  function EncodeProbeResponse(r: ProbeResponse): Bytes {
    EncodeBytes(r.identity)
  }

  // Decoding: the value and the bytes left over.

  function DecodeNumber(k: nat, bytes: Bytes): (r: Option<(nat, Bytes)>) {
    if |bytes| < k then None else Some((FromLittle(bytes[..k]), bytes[k..]))
  }

  function DecodeBytes(bytes: Bytes): Option<(Bytes, Bytes)> {
    match DecodeNumber(8, bytes)
    case None => None
    case Some((length, rest)) =>
      if |rest| < length then None else Some((rest[..length], rest[length..]))
  }

  function DecodePort(bytes: Bytes): Option<(Port, Bytes)> {
    match DecodeNumber(2, bytes)
    case None => None
    case Some((port, rest)) => Some((port % 0x1_0000, rest))
  }

  function DecodeAddr(bytes: Bytes): Option<(Addr, Bytes)> {
    match DecodeNumber(4, bytes)
    case None => None
    case Some((tag, rest)) =>
      var width := if tag == 0 then 4 else 16;
      if tag > 1 || |rest| < width then None
      else
        match DecodePort(rest[width..])
        case None => None
        case Some((port, left)) =>
          Some((if tag == 0 then V4(rest[..4], port) else V6(rest[..16], port), left))
  }

  function DecodeEntries(count: nat, bytes: Bytes): Option<(View, Bytes)> {
    if count == 0 then Some((map[], bytes))
    else
      match DecodeAddr(bytes)
      case None => None
      case Some((a, rest)) =>
        match DecodeBytes(rest)
        case None => None
        case Some((identity, left)) =>
          match DecodeEntries(count - 1, left)
          case None => None
          case Some((view, end)) => Some((map[a := identity] + view, end))
  }

  function DecodeU32(bytes: Bytes): Option<(U32, Bytes)> {
    match DecodeNumber(4, bytes)
    case None => None
    case Some((n, rest)) => Some((n % 0x1_0000_0000, rest))
  }

  function DecodeCounts(bytes: Bytes): Option<((U32, U32), Bytes)> {
    match DecodeU32(bytes)
    case None => None
    case Some((fingerprint, rest)) =>
      match DecodeU32(rest)
      case None => None
      case Some((count, left)) => Some(((fingerprint, count), left))
  }

  function DecodeAck(bytes: Bytes): Option<(SwimMessage, Bytes)> {
    match DecodeAddr(bytes)
    case None => None
    case Some((peer, rest)) =>
      match DecodeCounts(rest)
      case None => None
      case Some((counts, left)) => Some((Ack(peer, counts.0, counts.1), left))
  }

  function DecodePeers(bytes: Bytes): Option<(SwimMessage, Bytes)> {
    match DecodeNumber(8, bytes)
    case None => None
    case Some((count, rest)) =>
      match DecodeEntries(count, rest)
      case None => None
      case Some((view, left)) => Some((KnownPeers(view), left))
  }

  function DecodeRequest(bytes: Bytes): Option<(SwimMessage, Bytes)> {
    match DecodeCounts(bytes)
    case None => None
    case Some((counts, left)) => Some((KnownPeersRequest(counts.0, counts.1), left))
  }

  function DecodePingRequest(bytes: Bytes): Option<(SwimMessage, Bytes)> {
    match DecodeAddr(bytes)
    case None => None
    case Some((target, left)) => Some((PingRequest(target), left))
  }

  function DecodeMessage(bytes: Bytes): Option<(SwimMessage, Bytes)> {
    match DecodeNumber(4, bytes)
    case None => None
    case Some((tag, rest)) =>
      if tag == 0 then Some((Ping, rest))
      else if tag == 1 then DecodePingRequest(rest)
      else if tag == 2 then DecodeAck(rest)
      else if tag == 3 then DecodePeers(rest)
      else if tag == 4 then DecodeRequest(rest)
      else None
  }

  /** `bincode::deserialize::<SwimEnvelope>`: whatever follows the value is ignored. */
  function DecodeEnvelope(bytes: Bytes): Option<SwimEnvelope> {
    match DecodeBytes(bytes)
    case None => None
    case Some((identity, rest)) =>
      match DecodeMessage(rest)
      case None => None
      case Some((msg, _)) => Some(SwimEnvelope(identity, msg))
  }

  function DecodeJoin(bytes: Bytes): Option<SwimBroadcast> {
    match DecodeAddr(bytes)
    case None => None
    case Some((addr, rest)) =>
      match DecodeBytes(rest)
      case None => None
      case Some((identity, _)) => Some(Join(addr, identity))
  }

  function DecodeBroadcast(bytes: Bytes): Option<SwimBroadcast> {
    match DecodeNumber(4, bytes)
    case None => None
    case Some((tag, rest)) =>
      if tag == 0 then DecodeJoin(rest)
      else if tag > 2 then None
      else
        match DecodeAddr(rest)
        case None => None
        case Some((a, _)) => Some(if tag == 1 then Failed(a) else Probe(a))
  }

  // Round trips, whatever follows.

  lemma NumberRoundTrip(n: nat, k: nat, tail: Bytes)
    requires n < Power256(k)
    ensures DecodeNumber(k, Little(n, k) + tail) == Some((n, tail))
  {
    LittleRoundTrip(n, k);
    assert (Little(n, k) + tail)[..k] == Little(n, k);
    assert (Little(n, k) + tail)[k..] == tail;
  }

  lemma Assoc(a: Bytes, b: Bytes, c: Bytes)
    ensures (a + b) + c == a + (b + c)
  {
  }

  lemma BytesRoundTrip(bytes: Bytes, tail: Bytes)
    requires |bytes| < MAX_LENGTH
    ensures DecodeBytes(EncodeBytes(bytes) + tail) == Some((bytes, tail))
  {
    Power256Values();
    Assoc(Little(|bytes|, 8), bytes, tail);
    NumberRoundTrip(|bytes|, 8, bytes + tail);
    assert (bytes + tail)[..|bytes|] == bytes && (bytes + tail)[|bytes|..] == tail;
  }

  lemma AddrParts(tag: nat, ip: Bytes, port: Port, tail: Bytes)
    requires tag <= 1
    ensures DecodeNumber(4, (Little(tag, 4) + ip + Little(port, 2)) + tail)
         == Some((tag, ip + (Little(port, 2) + tail)))
    ensures (ip + (Little(port, 2) + tail))[..|ip|] == ip
    ensures DecodePort((ip + (Little(port, 2) + tail))[|ip|..]) == Some((port, tail))
  {
    Power256Values();
    hide Little, DecodeNumber;
    Assoc(Little(tag, 4), ip, Little(port, 2) + tail);
    Assoc(Little(tag, 4) + ip, Little(port, 2), tail);
    NumberRoundTrip(tag, 4, ip + (Little(port, 2) + tail));
    NumberRoundTrip(port, 2, tail);
    assert (ip + (Little(port, 2) + tail))[|ip|..] == Little(port, 2) + tail;
  }

  lemma AddrRoundTrip(a: Addr, tail: Bytes)
    ensures DecodeAddr(EncodeAddr(a) + tail) == Some((a, tail))
  {
    match a {
      case V4(ip, port) => AddrParts(0, ip, port, tail);
      case V6(ip, port) => AddrParts(1, ip, port, tail);
    }
  }

  lemma FitsU32(n: U32)
    ensures n < Power256(4) && n % 0x1_0000_0000 == n
  {
    Power256Values();
  }

  lemma U32FromNumber(n: U32, bytes: Bytes, tail: Bytes)
    requires DecodeNumber(4, bytes) == Some((n, tail))
    ensures DecodeU32(bytes) == Some((n, tail))
  {
    FitsU32(n);
  }

  lemma U32RoundTrip(n: U32, tail: Bytes)
    ensures DecodeU32(Little(n, 4) + tail) == Some((n, tail))
  {
    FitsU32(n);
    NumberRoundTrip(n, 4, tail);
    U32FromNumber(n, Little(n, 4) + tail, tail);
  }

  lemma CountsRoundTrip(fingerprint: U32, count: U32, tail: Bytes)
    ensures DecodeCounts((Little(fingerprint, 4) + Little(count, 4)) + tail)
         == Some(((fingerprint, count), tail))
  {
    Assoc(Little(fingerprint, 4), Little(count, 4), tail);
    U32RoundTrip(fingerprint, Little(count, 4) + tail);
    U32RoundTrip(count, tail);
  }

  ghost function Restricted(view: View, order: seq<Addr>): View {
    map p | p in view && p in order :: view[p]
  }

  lemma RestrictedHead(view: View, order: seq<Addr>)
    requires NoDuplicates(order) && order != [] && order[0] in view
    ensures Restricted(view, order) == map[order[0] := view[order[0]]] + Restricted(view, order[1..])
  {
    assert order == [order[0]] + order[1..];
  }

  ghost predicate Sendable(view: View) {
    |view| < MAX_LENGTH && forall p :: p in view ==> |view[p]| < MAX_LENGTH
  }

  lemma EntryRoundTrip(a: Addr, identity: Bytes, rest: Bytes, tail: Bytes)
    requires |identity| < MAX_LENGTH
    ensures DecodeAddr((EncodeEntry(a, identity) + rest) + tail)
         == Some((a, EncodeBytes(identity) + (rest + tail)))
    ensures DecodeBytes(EncodeBytes(identity) + (rest + tail)) == Some((identity, rest + tail))
  {
    hide EncodeAddr, EncodeBytes, DecodeAddr, DecodeBytes;
    Assoc(EncodeAddr(a), EncodeBytes(identity), rest);
    Assoc(EncodeAddr(a), EncodeBytes(identity) + rest, tail);
    Assoc(EncodeBytes(identity), rest, tail);
    AddrRoundTrip(a, EncodeBytes(identity) + (rest + tail));
    BytesRoundTrip(identity, rest + tail);
  }

  lemma EntriesStep(view: View, order: seq<Addr>, tail: Bytes)
    requires Sendable(view) && NoDuplicates(order) && order != [] && forall p :: p in order ==> p in view
    requires DecodeEntries(|order| - 1, EncodeEntries(view, order[1..]) + tail)
          == Some((Restricted(view, order[1..]), tail))
    ensures DecodeEntries(|order|, EncodeEntries(view, order) + tail)
         == Some((Restricted(view, order), tail))
  {
    EntryRoundTrip(order[0], view[order[0]], EncodeEntries(view, order[1..]), tail);
    RestrictedHead(view, order);
  }

  lemma {:induction false} EntriesRoundTrip(view: View, order: seq<Addr>, tail: Bytes)
    requires Sendable(view) && NoDuplicates(order) && forall p :: p in order ==> p in view
    ensures DecodeEntries(|order|, EncodeEntries(view, order) + tail)
         == Some((Restricted(view, order), tail))
  {
    if order == [] {
      assert [] + tail == tail;
      assert Restricted(view, order) == map[];
    } else {
      EntriesRoundTrip(view, order[1..], tail);
      EntriesStep(view, order, tail);
    }
  }

  ghost predicate SendableMessage(msg: SwimMessage, order: seq<Addr>) {
    msg.KnownPeers? ==> Sendable(msg.peers) && IsOrder(msg.peers, order)
  }

  lemma PeersRoundTrip(view: View, order: seq<Addr>, tail: Bytes)
    requires Sendable(view) && IsOrder(view, order) && forall p :: p in order ==> p in view
    ensures DecodePeers((Little(|order|, 8) + EncodeEntries(view, order)) + tail)
         == Some((KnownPeers(view), tail))
  {
    Power256Values();
    ElementsCount(order);
    assert |view.Keys| == |view|;
    Assoc(Little(|order|, 8), EncodeEntries(view, order), tail);
    NumberRoundTrip(|order|, 8, EncodeEntries(view, order) + tail);
    EntriesRoundTrip(view, order, tail);
    RestrictedToAll(view, order);
  }

  lemma RestrictedToAll(view: View, order: seq<Addr>)
    requires IsOrder(view, order)
    ensures Restricted(view, order) == view
  {
    forall p | p in view
      ensures p in order
    {
      assert p in Elements(order);
    }
  }

  lemma TagRoundTrip(tag: nat, body: Bytes, tail: Bytes)
    requires tag < 256
    ensures DecodeNumber(4, (Little(tag, 4) + body) + tail) == Some((tag, body + tail))
  {
    Power256Values();
    Assoc(Little(tag, 4), body, tail);
    NumberRoundTrip(tag, 4, body + tail);
  }

  lemma AckRoundTrip(peer: Addr, fingerprint: U32, count: U32, tail: Bytes)
    ensures DecodeAck((EncodeAddr(peer) + (Little(fingerprint, 4) + Little(count, 4))) + tail)
         == Some((Ack(peer, fingerprint, count), tail))
  {
    Assoc(EncodeAddr(peer), Little(fingerprint, 4) + Little(count, 4), tail);
    AddrRoundTrip(peer, (Little(fingerprint, 4) + Little(count, 4)) + tail);
    CountsRoundTrip(fingerprint, count, tail);
  }

  lemma MessageRoundTrip(msg: SwimMessage, order: seq<Addr>, tail: Bytes)
    requires Lists(msg, order) && SendableMessage(msg, order)
    ensures DecodeMessage(EncodeMessage(msg, order) + tail) == Some((msg, tail))
  {
    match msg {
      case Ping =>
        Power256Values();
        NumberRoundTrip(0, 4, tail);
      case PingRequest(target) =>
        TagRoundTrip(1, EncodeAddr(target), tail);
        AddrRoundTrip(target, tail);
      case Ack(peer, fingerprint, count) =>
        TagRoundTrip(2, EncodeAddr(peer) + (Little(fingerprint, 4) + Little(count, 4)), tail);
        AckRoundTrip(peer, fingerprint, count, tail);
      case KnownPeers(peers) =>
        TagRoundTrip(3, Little(|order|, 8) + EncodeEntries(peers, order), tail);
        PeersRoundTrip(peers, order, tail);
      case KnownPeersRequest(fingerprint, count) =>
        TagRoundTrip(4, Little(fingerprint, 4) + Little(count, 4), tail);
        CountsRoundTrip(fingerprint, count, tail);
    }
  }

  /** An envelope survives the wire, in whatever order its map is written and whatever follows it. */
  lemma EnvelopeRoundTrip(e: SwimEnvelope, order: seq<Addr>, tail: Bytes)
    requires Lists(e.msg, order) && SendableMessage(e.msg, order) && |e.identity| < MAX_LENGTH
    ensures DecodeEnvelope(EncodeEnvelope(e, order) + tail) == Some(e)
  {
    Assoc(EncodeBytes(e.identity), EncodeMessage(e.msg, order), tail);
    BytesRoundTrip(e.identity, EncodeMessage(e.msg, order) + tail);
    MessageRoundTrip(e.msg, order, tail);
  }

  lemma BroadcastRoundTrip(b: SwimBroadcast, tail: Bytes)
    requires b.Join? ==> |b.identity| < MAX_LENGTH
    ensures DecodeBroadcast(EncodeBroadcast(b) + tail) == Some(b)
  {
    match b {
      case Join(addr, identity) =>
        TagRoundTrip(0, EncodeEntry(addr, identity), tail);
        EntryRoundTrip(addr, identity, [], tail);
        assert EncodeEntry(addr, identity) + [] == EncodeEntry(addr, identity);
      case Failed(peer) =>
        TagRoundTrip(1, EncodeAddr(peer), tail);
        AddrRoundTrip(peer, tail);
      case Probe(prober) =>
        TagRoundTrip(2, EncodeAddr(prober), tail);
        AddrRoundTrip(prober, tail);
    }
  }

  /**
   * A probe response read as an envelope: it has the responder's identity whenever it can be read
   * at all, which is when what follows it can be read as a message.
   */
  lemma ProbeResponseAsEnvelope(r: ProbeResponse, tail: Bytes)
    requires |r.identity| < MAX_LENGTH
    ensures DecodeEnvelope(EncodeProbeResponse(r) + tail).Some? <==> DecodeMessage(tail).Some?
    ensures DecodeEnvelope(EncodeProbeResponse(r) + tail).Some? ==>
              DecodeEnvelope(EncodeProbeResponse(r) + tail).value.identity == r.identity
  {
    BytesRoundTrip(r.identity, tail);
  }

  /** Four zero bytes after it are enough. */
  lemma ProbeResponseThenZeros(r: ProbeResponse, tail: Bytes)
    requires |r.identity| < MAX_LENGTH && |tail| >= 4 && tail[..4] == [0, 0, 0, 0]
    ensures DecodeEnvelope(EncodeProbeResponse(r) + tail) == Some(SwimEnvelope(r.identity, Ping))
  {
    BytesRoundTrip(r.identity, tail);
    assert FromLittle([0, 0, 0, 0]) == 0;
  }

  // What cannot be read to its end is not read at all.

  lemma NumberExtends(k: nat, bytes: Bytes, more: Bytes)
    requires DecodeNumber(k, bytes).Some?
    ensures var (n, rest) := DecodeNumber(k, bytes).value;
            DecodeNumber(k, bytes + more) == Some((n, rest + more))
  {
    assert (bytes + more)[..k] == bytes[..k];
    assert (bytes + more)[k..] == bytes[k..] + more;
  }

  lemma BytesExtend(bytes: Bytes, more: Bytes)
    requires DecodeBytes(bytes).Some?
    ensures var (value, rest) := DecodeBytes(bytes).value;
            DecodeBytes(bytes + more) == Some((value, rest + more))
  {
    NumberExtends(8, bytes, more);
    var (length, rest) := DecodeNumber(8, bytes).value;
    assert (rest + more)[..length] == rest[..length];
    assert (rest + more)[length..] == rest[length..] + more;
  }

  lemma AddrExtends(bytes: Bytes, more: Bytes)
    requires DecodeAddr(bytes).Some?
    ensures var (a, rest) := DecodeAddr(bytes).value;
            DecodeAddr(bytes + more) == Some((a, rest + more))
  {
    NumberExtends(4, bytes, more);
    var (tag, rest) := DecodeNumber(4, bytes).value;
    var width := if tag == 0 then 4 else 16;
    assert (rest + more)[..width] == rest[..width];
    assert (rest + more)[width..] == rest[width..] + more;
    NumberExtends(2, rest[width..], more);
  }

  lemma {:induction false} EntriesExtend(count: nat, bytes: Bytes, more: Bytes)
    requires DecodeEntries(count, bytes).Some?
    ensures var (view, rest) := DecodeEntries(count, bytes).value;
            DecodeEntries(count, bytes + more) == Some((view, rest + more))
    decreases count
  {
    if count > 0 {
      AddrExtends(bytes, more);
      var (a, rest) := DecodeAddr(bytes).value;
      BytesExtend(rest, more);
      var (identity, left) := DecodeBytes(rest).value;
      EntriesExtend(count - 1, left, more);
    }
  }

  lemma CountsExtend(bytes: Bytes, more: Bytes)
    requires DecodeCounts(bytes).Some?
    ensures var (counts, rest) := DecodeCounts(bytes).value;
            DecodeCounts(bytes + more) == Some((counts, rest + more))
  {
    NumberExtends(4, bytes, more);
    NumberExtends(4, DecodeU32(bytes).value.1, more);
  }

  lemma MessageExtends(bytes: Bytes, more: Bytes)
    requires DecodeMessage(bytes).Some?
    ensures var (msg, rest) := DecodeMessage(bytes).value;
            DecodeMessage(bytes + more) == Some((msg, rest + more))
  {
    NumberExtends(4, bytes, more);
    var (tag, rest) := DecodeNumber(4, bytes).value;
    if tag == 1 {
      AddrExtends(rest, more);
    } else if tag == 2 {
      AddrExtends(rest, more);
      CountsExtend(DecodeAddr(rest).value.1, more);
    } else if tag == 3 {
      NumberExtends(8, rest, more);
      EntriesExtend(DecodeNumber(8, rest).value.0, DecodeNumber(8, rest).value.1, more);
    } else if tag == 4 {
      CountsExtend(rest, more);
    }
  }

  /** A message cut off anywhere before its end is rejected, never taken for another. */
  lemma TruncatedIsRejected(e: SwimEnvelope, order: seq<Addr>, k: nat)
    requires Lists(e.msg, order) && SendableMessage(e.msg, order) && |e.identity| < MAX_LENGTH
    requires k < |EncodeEnvelope(e, order)|
    ensures DecodeEnvelope(EncodeEnvelope(e, order)[..k]) == None
  {
    var all := EncodeEnvelope(e, order);
    var cut, more := all[..k], all[k..];
    assert cut + more == all;
    assert EncodeMessage(e.msg, order) + [] == EncodeMessage(e.msg, order);
    if DecodeEnvelope(cut).Some? {
      BytesExtend(cut, more);
      var (identity, rest) := DecodeBytes(cut).value;
      MessageExtends(rest, more);
      var (msg, left) := DecodeMessage(rest).value;
      BytesRoundTrip(e.identity, EncodeMessage(e.msg, order));
      MessageRoundTrip(e.msg, order, []);
    }
  }

  // The receive buffer.

  /** What a reused buffer holds after a datagram came in: too long ones are cut off. */
  function Fill(buffer: Bytes, datagram: Bytes): (r: Bytes)
    ensures |r| == |buffer|
  {
    if |datagram| >= |buffer| then datagram[..|buffer|] else datagram + buffer[|datagram|..]
  }

  /** A datagram is read correctly from a reused buffer, whatever it held before, iff it fits. */
  lemma ReadFromBufferIff(buffer: Bytes, e: SwimEnvelope, order: seq<Addr>)
    requires Lists(e.msg, order) && SendableMessage(e.msg, order) && |e.identity| < MAX_LENGTH
    ensures DecodeEnvelope(Fill(buffer, EncodeEnvelope(e, order))) == Some(e)
       <==> |EncodeEnvelope(e, order)| <= |buffer|
    ensures |EncodeEnvelope(e, order)| > |buffer| ==>
              DecodeEnvelope(Fill(buffer, EncodeEnvelope(e, order))) == None
  {
    var bytes := EncodeEnvelope(e, order);
    if |bytes| > |buffer| {
      TruncatedIsRejected(e, order, |buffer|);
    } else {
      var tail := if |bytes| == |buffer| then [] else buffer[|bytes|..];
      assert Fill(buffer, bytes) == bytes + tail;
      EnvelopeRoundTrip(e, order, tail);
    }
  }

  // The layout in bytes.

  lemma SmallLittle(n: nat)
    requires n < 256
    ensures Little(n, 2) == [n as Byte, 0] && Little(n, 4) == [n as Byte, 0, 0, 0]
    ensures Little(n, 8) == [n as Byte, 0, 0, 0, 0, 0, 0, 0]
  {
    assert Little(n, 1) == [n as Byte];
    assert forall k: nat :: Little(0, k + 1) == [0] + Little(0, k);
    var zero := Little(0, 1);
    assert zero == [0] && Little(0, 2) == [0, 0] && Little(0, 3) == [0, 0, 0];
    assert Little(0, 7) == [0, 0, 0, 0, 0, 0, 0];
  }

  /** Each kind of message and of broadcast has its tag, in the order of their declarations. */
  lemma Tags(m: SwimMessage, order: seq<Addr>, b: SwimBroadcast)
    requires Lists(m, order)
    ensures |EncodeMessage(m, order)| >= 4 && |EncodeBroadcast(b)| >= 4
    ensures EncodeMessage(m, order)[..4] ==
              match m
              case Ping => [0, 0, 0, 0]
              case PingRequest(_) => [1, 0, 0, 0]
              case Ack(_, _, _) => [2, 0, 0, 0]
              case KnownPeers(_) => [3, 0, 0, 0]
              case KnownPeersRequest(_, _) => [4, 0, 0, 0]
    ensures EncodeBroadcast(b)[..4] ==
              match b
              case Join(_, _) => [0, 0, 0, 0]
              case Failed(_) => [1, 0, 0, 0]
              case Probe(_) => [2, 0, 0, 0]
  {
    hide Little, EncodeAddr, EncodeEntry, EncodeEntries;
    SmallLittle(0);
    SmallLittle(1);
    SmallLittle(2);
    SmallLittle(3);
    SmallLittle(4);
  }

  /** Addresses: the family, the octets in their order, and the port with its low byte first. */
  lemma AddrLayout(a: Addr)
    ensures EncodeAddr(a) ==
              match a
              case V4(ip, port) => [0, 0, 0, 0] + ip + [(port % 256) as Byte, (port / 256) as Byte]
              case V6(ip, port) => [1, 0, 0, 0] + ip + [(port % 256) as Byte, (port / 256) as Byte]
  {
    SmallLittle(0);
    SmallLittle(1);
    assert Little(a.port, 2) == [(a.port % 256) as Byte] + Little(a.port / 256, 1);
    assert Little(a.port / 256, 1) == [(a.port / 256) as Byte] + Little(a.port / 256 / 256, 0);
  }

  /** An Ack, a list of one peer and a Join, byte for byte. */
  lemma Example()
    ensures var peer := V4([192, 168, 0, 7], 0x1D33);
            EncodeEnvelope(SwimEnvelope([9], Ack(peer, 0x01020304, 5)), [])
            == [1, 0, 0, 0, 0, 0, 0, 0, 9] + [2, 0, 0, 0] + [0, 0, 0, 0, 192, 168, 0, 7, 0x33, 0x1D]
               + [4, 3, 2, 1] + [5, 0, 0, 0]
    ensures var peer := V4([192, 168, 0, 7], 0x1D33);
            EncodeEnvelope(SwimEnvelope([], KnownPeers(map[peer := [6]])), [peer])
            == [0, 0, 0, 0, 0, 0, 0, 0] + [3, 0, 0, 0] + [1, 0, 0, 0, 0, 0, 0, 0]
               + [0, 0, 0, 0, 192, 168, 0, 7, 0x33, 0x1D] + [1, 0, 0, 0, 0, 0, 0, 0, 6]
    ensures EncodeBroadcast(Join(V4([192, 168, 0, 7], 0x1D33), [6]))
            == [0, 0, 0, 0] + [0, 0, 0, 0, 192, 168, 0, 7, 0x33, 0x1D] + [1, 0, 0, 0, 0, 0, 0, 0, 6]
  {
    ExampleNumbers();
    hide Little, Power256;
    SmallLittle(0);
    SmallLittle(1);
    SmallLittle(2);
    SmallLittle(3);
    SmallLittle(5);
  }

  lemma ExampleNumbers()
    ensures Little(0x1D33, 2) == [0x33, 0x1D] && Little(0x01020304, 4) == [4, 3, 2, 1]
  {
  }
}
