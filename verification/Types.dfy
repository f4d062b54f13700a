/** The entities of src/structs.rs: peers and their states, and the three families of messages. */
module Types {
  import opened Basics

  /** A reading of one host's monotonic clock, in milliseconds. It is signed, as on Linux. */
  type Time = int

  newtype Byte = x: int | 0 <= x < 256
  type Bytes = seq<Byte>
  type U32 = x: int | 0 <= x < 0x1_0000_0000
  type Port = x: int | 0 <= x < 0x1_0000

  type Octets4 = s: Bytes | |s| == 4 witness [0, 0, 0, 0]
  type Octets16 = s: Bytes | |s| == 16 witness [0, 0, 0, 0, 0, 0, 0, 0, 0, 0, 0, 0, 0, 0, 0, 0]

  /** A socket address; flow information and scope of IPv6 are not modelled. */
  datatype Addr = V4(ip4: Octets4, port: Port) | V6(ip6: Octets16, port: Port)

  /** The addresses one node knows, with the identity it holds for each. */
  type View = map<Addr, Bytes>

  datatype PeerState =
    | Known(since: Time)
    | WaitingForPing(since: Time)
    | WaitingForIndirectPing(since: Time)

  datatype PeerInfo = PeerInfo(identity: Bytes, state: PeerState, latency: Option<nat>)

  type PeerMap = map<Addr, PeerInfo>

  datatype SwimBroadcast =
    | Join(addr: Addr, identity: Bytes)
    | Failed(peer: Addr)
    | Probe(prober: Addr)

  datatype SwimMessage =
    | Ping
    | PingRequest(target: Addr)
    | Ack(peer: Addr, fingerprint: U32, numPeers: U32)
    | KnownPeers(peers: View)
    | KnownPeersRequest(fingerprint: U32, numPeers: U32)

  datatype SwimEnvelope = SwimEnvelope(identity: Bytes, msg: SwimMessage)

  datatype ProbeResponse = ProbeResponse(identity: Bytes)

  // The constants of src/kaboodle.rs, durations in milliseconds.

  const PROTOCOL_PERIOD: nat := 1000
  const MIN_LISTEN: nat := 10
  const INCOMING_BUFFER_SIZE: nat := 10240
  const MAX_PEER_SHARE_AGE: nat := 10000
  const NUM_INDIRECT_PING_PEERS: nat := 3
  const NUM_CANDIDATE_TARGET_PEERS: nat := 5
  const PING_TIMEOUT: nat := 2000
  const REBROADCAST_INTERVAL: nat := 10000

  /** `later.duration_since(earlier)`: zero when the arguments are out of order. */
  function Elapsed(later: Time, earlier: Time): (d: nat)
  {
    if later >= earlier then later - earlier else 0
  }

  /** The view that a peer map amounts to: states and latencies dropped. */
  function ViewOf(known: PeerMap): View {
    map p | p in known :: known[p].identity
  }

  function CountOf(known: PeerMap): U32 {
    |known| % 0x1_0000_0000
  }
}
