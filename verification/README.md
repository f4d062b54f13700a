# Kaboodle in Dafny

Kaboodle keeps a list of peers on a local network with a variant of the SWIM membership protocol
(Das, Gupta and Motivala, DSN 2002). This project models what its instances do and proves what
they can rely on, from one message handler up to whole runs of a mesh.

There are four layers.

1. **A node as a timed state machine.** `Node.dfy` says, for every subtask of a tick and every
   kind of message or broadcast, when it can happen (`Enabled`), what state it leaves (`After`) and
   what it tries to send (`Attempts`). Random choices, the iteration order of maps and clock
   readings are recorded in the step, so they are arbitrary within what the code allows. A handler
   can be cut off at any await: then it sends only a first part of its attempts. `Ticks.dfy` strings
   steps together to ticks.
2. **The node as it is programmed.** `Kaboodle.dfy` is the class: its loops over the shared map,
   its fields, its sends, awaits and panics, from `maybe_broadcast_join` to `run`. Every method is
   proved to do exactly a step (or a sequence of steps) of layer 1; `Run` is proved to produce
   consecutive ticks. `Passes.dfy`, `Receipts.dfy` and `TickParts.dfy` hold the lemmas for its loops.
3. **A mesh.** `Mesh.dfy` puts any number of nodes over a network that loses, delays, reorders and
   duplicates datagrams. Its runs are the subject of the theorems in `Truth`, `History`, `Accuracy`,
   `Eviction`, `Relay`, `Deliveries`, `Window` and, for ticks and pairs of nodes, `Candidates`,
   `Announcements`, `AntiEntropy` and `RequestLoop`. `Sends` says, datagram by datagram, what each
   step puts on the network.
4. **What surrounds the protocol.** The observable map (`Channels`, `ObservableHashMap`,
   `EventLog`), the task that turns its events into notifications (`Events`, `EventTask`), the wire
   format (`Codec`), the trimmed reply to newcomers (`JoinReply`), the probe loop (`Discovery`), and
   the fingerprint with its CRC-32 (section 8 of RFC 1952; `Crc`, `CrcCheck`, `Order`, `Fingerprint`).

To verify: `dafny verify dfyconfig.toml`.

## What is assumed

- Time is in milliseconds on a monotonic clock whose readings are signed, so that going back ten
  seconds from a reading is always possible, as on Linux. All clocks of a mesh use one scale.
- Broadcasts leave from another socket than unicast messages (src/networking.rs:74-121), so a node
  has two source addresses, and no node's broadcast address is another's unicast address.
- The wire format is that of bincode 1.3 with its default functions: fixed-width little-endian
  integers, 64-bit lengths, 32-bit variant tags, trailing bytes allowed. An address is an IP
  address and a port.
- How an address is written out for the fingerprint is a parameter, the same for all nodes.
- The map is observed by at most one task, registered before the modelled run begins.
- A mesh run starts from nodes that know only themselves. A node that has stopped or crashed is one
  that takes no more steps; no node has to take any.

## Where the code differs from its comments

The model follows the code.

- A `Failed` broadcast is accepted only from a known address, and broadcasts come from no known
  address. So no `Failed` is ever accepted (`Mesh.FailedNeverAccepted`), and a failure is noticed
  by every node on its own.
- A forwarded Ack makes the relay Known to its receiver, not the peer that was asked about
  (src/kaboodle.rs:406-415 against 564). A waiting peer becomes Known exactly when a datagram from
  it, or a Join for it, is handled (`History.SuspicionClearedIff`).
- The comment on choosing targets promises detection within 2 N ticks (src/kaboodle.rs:656-660).
  A silent peer can go without a ping for any number of ticks (`Candidates.NeverPinged`); it has to
  be picked exactly when it is the only non-suspected peer (`Candidates.OnlyTargetIff`). What is
  bounded is when it becomes a candidate (`Candidates.CandidateWithinNTicks`).
- Two nodes can ask each other for peers without end. A request leads to the next exactly while
  both know equally many peers and the answer names nobody new (`RequestLoop.NextRequestIff`);
  while that lasts, nothing ends it (`RequestLoop.PingPongNeverEnds`), and it takes no more than a
  stale peer on each side (`RequestLoop.LostPeersMakeStuck`).
- Closed channels are removed by ascending index from a list that gets shorter
  (src/events.rs:36-38, src/observable_hashmap.rs:62-64). `Channels.PrunesAsMeantIff` and
  `Channels.SendPanicsIff` say exactly when that removes the right ones and when it panics.
- An instance whose identity has 10,220 bytes or more panics when it answers a newcomer
  (`JoinReply.TrimToFit`, `Kaboodle.KaboodleInner.Run`).

## Model

| member | source | states |
|---|---|---|
| `Mesh.RunIsSafe` | src/kaboodle.rs:256-472 | in every state of every run every identity held or in flight is its owner's, every node knows itself as Known with its own identity, no timestamp is in the future, and no list of observers holds a duplicate |
| `Mesh.SameKeysSameFingerprint` | src/kaboodle.rs:71-83 | nodes that know the same addresses hold the same view and compute the same fingerprint |
| `Mesh.ConvergedAckAsksNothing` | src/kaboodle.rs:406-447 | in every run, a step that handles an Ack with a fingerprint some node had by then sends no request for peers, if with the sender heard the receiver knows the same addresses as that node did |
| `Mesh.FailedNeverAccepted` | src/kaboodle.rs:268-283 | in every run, handling a Failed broadcast changes nobody's map |
| `History.OriginOf` | src/kaboodle.rs:558-703 | in every run, a waiting peer has a step that pinged or demoted it at its timestamp, and has not been heard since that step |
| `History.SuspicionClearedIff` | src/kaboodle.rs:406-415 | a step leaves a waiting peer Known if and only if it handles a datagram from that peer or a Join for it; an Ack about it from a relay does not |
| `History.HeardBeforePing` | src/kaboodle.rs:406-415 | whatever was heard from a peer that awaits a ping was heard before that ping |
| `History.NoPrematureTimeout` | src/kaboodle.rs:583-643 | a peer evicted after an indirect ping has been silent for two timeouts, and one evicted right after a ping for one timeout with no non-suspected helper available |
| `Accuracy.LivePeerNeverExpires` | src/kaboodle.rs:579-629 | if pings to live peers are sent and answered within the timeout, no sweep of any node finds a live peer overdue |
| `Accuracy.LivePeerNeverDemoted` | src/kaboodle.rs:631-639 | under the same condition nobody ever waits for an indirect ping of a live peer |
| `Accuracy.LivePeerStays` | src/kaboodle.rs:558-703 | under the same condition a live peer once known is never removed, by whatever steps, received Failed broadcasts included |
| `Accuracy.OnlySweepsAnnounceFailure` | src/kaboodle.rs:641-652 | the only steps that try to announce a failure are sweeps, and only about peers they evict |
| `Accuracy.NoFailureAnnounced` | src/kaboodle.rs:641-652 | under the same condition no Failed broadcast about a live peer is ever on the network |
| `Eviction.SilentPeerIsStale` | src/kaboodle.rs:448-472 | nobody holds a peer as Known with a timestamp both later than it was last heard and fresh enough to be shared |
| `Eviction.NamingSteps` | src/kaboodle.rs:356-512 | the only messages that name peers are answers to requests, which name shareable ones, and replies to newcomers |
| `Eviction.NoLateReplyNames` | src/kaboodle.rs:473-512 | from the share age after a peer was last heard, nothing that a node sends names it, unless a newcomer is told while it is still held |
| `Eviction.EvictedForGood` | src/kaboodle.rs:448-512 | once lists naming a silent peer have drained, a node without it never learns of it again |
| `Relay.RelayConservation` | src/kaboodle.rs:417-443 | over any stretch of any run, forwarded Acks plus outstanding notes at its end are at most the outstanding notes at its beginning plus the ping requests handled |
| `Relay.ForwardsArePaidFor` | src/kaboodle.rs:533-545 | from the start on, forwarded Acks plus outstanding notes never exceed the ping requests handled |
| `Relay.CascadesEnd` | src/kaboodle.rs:417-443 | while no ping request is handled, at most as many Acks are forwarded as notes were outstanding, even when nodes are curious in a cycle |
| `Window.NobodyBecomesOlder` | src/kaboodle.rs:406-414 | no step but taking in a list of peers makes anybody strictly older than a silent peer that is held |
| `Window.NobodyGetsAheadIff` | src/kaboodle.rs:406-414 | but for such a list, a step gets somebody ahead of a silent peer, ties counted, if and only if it hears a peer that was not ahead at the very reading at which the silent one was heard |
| `Window.PingTakesFromAhead` | src/kaboodle.rs:671-685 | while five or more are strictly older than a peer, or five or more at least as old, every ping that does not pick it takes one of those away |
| `Window.AmongOldestWithinNPings` | src/kaboodle.rs:671-680 | after as many pings as peers were known, less six, a silent peer not yet picked is among the candidates, and stays so |
| `Window.FirstInEveryListingWithinNPings` | src/kaboodle.rs:671-680 | if moreover nobody draws level with it, it is then among the first five of every listing by age, however ties are listed |
| `Candidates.CandidateWithinNTicks` | src/kaboodle.rs:655-690 | a silent peer not picked in as many ticks as peers were known, less six, is a candidate in the next tick, because every tick pings somebody |
| `Candidates.TargetIff` | src/kaboodle.rs:661-680 | a peer can be picked if and only if it is non-suspected with fewer than five others strictly older |
| `Candidates.OnlyTargetIff` | src/kaboodle.rs:671-680 | a peer is the only one that can be picked if and only if it is the only non-suspected one |
| `Candidates.NeverPinged` | src/kaboodle.rs:656-660 | there are runs of any number of ticks in which a silent peer is never pinged: of two candidates the one that answers is picked every time |
| `AntiEntropy.ListOnlyAdds` | src/kaboodle.rs:448-472 | a received list drops no entry, changes none but the sender's, and adds only what it lists |
| `AntiEntropy.AnswerCovers` | src/kaboodle.rs:473-507 | the answer to a request names every fresh peer but the two talking, and only peers held |
| `AntiEntropy.ExchangeComputesUnion` | src/kaboodle.rs:448-512 | one request and answer each way leaves both nodes with the union of their views, if what each held was Known and fresh when it answered |
| `AntiEntropy.ExchangeIsPossible` | src/kaboodle.rs:448-512 | any two nodes that hold only fresh peers can go through such an exchange |
| `RequestLoop.SomebodyAsks` | src/kaboodle.rs:417-447 | when two nodes with different fingerprints handle each other's Acks, at least one sends a request, and if one knows fewer peers it is that one alone |
| `RequestLoop.NextRequestIff` | src/kaboodle.rs:448-512 | between two nodes that know each other and differ, a handled request leads to a request back and that to the next one, the answer between them handled, if and only if both know equally many peers and the answer names nobody new |
| `RequestLoop.RequestBegetsRequest` | src/kaboodle.rs:473-512 | in a pair with nothing new to pass on, a request is answered with a list the asker knows and with a request back |
| `RequestLoop.NoNewsKeepsStuck` | src/kaboodle.rs:448-512 | handling a request, or a list without news, leaves such a pair as stuck as it was |
| `RequestLoop.PingPongNeverEnds` | src/kaboodle.rs:722-740 | however many requests and answers a stuck pair has handled, in any order and with answers late, lost or doubled, each would answer the next request of the other with one of its own |
| `RequestLoop.LostPeersMakeStuck` | src/kaboodle.rs:71-83 | two nodes that each hold one stale peer the other lacks, on one host with different ports, are stuck |
| `Ticks.SilentPeerRemovedWithinSixTicks` | src/kaboodle.rs:746-779 | a peer pinged in one tick and not heard since is gone after the sweep of one of the next six, however long the ticks last |
| `Ticks.WaitRunsOut` | src/kaboodle.rs:579-629 | a wait that began before a tick is over in the sweep of that tick or of one of the next two |
| `Announcements.AnnouncesIff` | src/kaboodle.rs:228-251 | a node that never announced itself does so in its first tick; later ticks do exactly if ten seconds have passed since the last announcement and it knows nobody else |
| `Announcements.ListensToEndOfPeriod` | src/kaboodle.rs:755-768 | a tick listens until its period of one second is over, or for ten milliseconds if that comes later |
| `Ticks.StepsInTurn` | src/kaboodle.rs:746-779 | steps taken in two portions have the states, conditions and sends of all of them in a row |
| `Node.StepKeepsSound` | src/kaboodle.rs:228-703 | every step keeps: self present, Known and with its own identity; timestamps not in the future; observers listed once |
| `Node.LatencyNeverPanics` | src/kaboodle.rs:789-802 | the reading made when a waiting peer is heard is never before its timestamp, so the unwrap succeeds |
| `Node.StepKeepsConstants` | src/kaboodle.rs:91-112 | no step changes a node's addresses or identity |
| `Truth.StepKeepsTruth` | src/kaboodle.rs:284-303 | a node that hears only true identities holds only true identities, and only of nodes |
| `Truth.AttemptsAreTruthful` | src/kaboodle.rs:187-226 | whatever a node tries to send carries its own address and identity, and lists only true identities |
| `Truth.FailedIgnored` | src/kaboodle.rs:267-283 | a Failed broadcast from an address that no node's unicast socket has leaves a node as it is |
| `Truth.FailuresForm` | src/kaboodle.rs:641-652 | a sweep announces exactly the peers it evicts, each once |
| `Truth.RequestsForm` | src/kaboodle.rs:606-618 | a sweep sends ping requests only, and only about peers that it demotes |
| `Sends.SweepAsksExactly` | src/kaboodle.rs:606-618 | the unicast datagrams of a sweep are exactly the ping requests to the helpers chosen for each demoted peer, about that peer, and nothing is sent twice |
| `Sends.DemotedAreAskedAbout` | src/kaboodle.rs:594-618 | about every demoted peer three different non-suspected peers are asked, or all if fewer, never the node itself or that peer |
| `Sends.SweepForgetsNotes` | src/kaboodle.rs:641-644 | a sweep drops the notes about the peers it evicts and leaves the others as they are |
| `Sends.AckIsForwarded` | src/kaboodle.rs:417-447 | handling an Ack sends it first to those noted for its peer, in order and unchanged, then at most a request for peers to that peer; the notes are used up |
| `Sends.AckGoesToNoted` | src/kaboodle.rs:423-441 | an Ack is tried for a peer if and only if that peer is noted, with the same content and once |
| `Sends.PingGoesToTarget` | src/kaboodle.rs:682-702 | a ping step sends one Ping, to its target, which then waits, or is forgotten when it could not be sent |
| `Sends.ManualPingGoesToTarget` | src/kaboodle.rs:550-556 | a requested ping is one Ping to the requested address |
| `Sends.PingIsAnswered` | src/kaboodle.rs:513-532 | a Ping is answered to its sender alone, by an Ack naming the node, with the fingerprint and count of what it knows with the sender heard |
| `Sends.RelayPings` | src/kaboodle.rs:533-545 | a ping request makes the node ping the target and note the asker behind those noted before, at most once |
| `Sends.RequestIsAnswered` | src/kaboodle.rs:473-512 | a request for peers is answered to its sender, and returned, if at all, to the sender too |
| `Sends.ListIsNotAnswered` | src/kaboodle.rs:448-472 | a list of peers is answered by nothing |
| `Sends.JoinIsAnnounced` | src/kaboodle.rs:241-250 | an announcement is one Join with the node's own address and identity, and is remembered |
| `Sends.BroadcastIsAnswered` | src/kaboodle.rs:267-331 | a newcomer is sent peers, at its own address, a prober the node's identity, and nobody anything else |
| `Sends.NobodyElseToRespond` | src/kaboodle.rs:333-354 | a node that is alone with a newcomer, or knows at most one other when probed, responds |
| `Sends.LatencyMovesTowardSample` | src/kaboodle.rs:789-817 | a latency changes only when a peer that was waited for is heard, from the old one four fifths of the way to the time waited |
| `Deliveries.PingIsOnTheNetwork` | src/kaboodle.rs:691-702 | in every run, a ping that can be sent puts one datagram on the network, a Ping from the node to the target, and otherwise none |
| `Deliveries.AnswerIsOnTheNetwork` | src/kaboodle.rs:513-532 | in every run, a Ping handled to the end puts one datagram on the network, the Ack back to its sender |
| `Deliveries.RoundTripsSuffice` | src/kaboodle.rs:406-415 | if every ping of a live peer and what is sent in answer are delivered and handled in time, live peers are heard in time |
| `Deliveries.AnsweredPingsKeepPeers` | src/kaboodle.rs:558-703 | in such a run a live peer once known stays known, and waits for no indirect ping |
| `Deliveries.AnsweredPingsAnnounceNoFailure` | src/kaboodle.rs:641-652 | in such a run no failure of a live peer is on the network |
| `Deliveries.AskerIsTold` | src/kaboodle.rs:417-443 | in every run, after a handled ping request about a peer, with no Ack about it and no eviction of it since, the next Ack about it that is handled to the end is sent to the asker |
| `Passes.SweepIsDone` | src/kaboodle.rs:558-653 | the three passes together are the one pointwise transform of the map, with the announcements and requests in order |
| `Passes.FirstAreOldest` | src/kaboodle.rs:671-680 | whoever stands among the first five of a list sorted by age has fewer than five strictly older peers |
| `Kaboodle.KaboodleInner.constructor` | src/kaboodle.rs:142-172 | a new instance knows itself, in state Known, on top of whatever the map held |
| `Kaboodle.KaboodleInner.SetState` | src/kaboodle.rs:631-639 | updating a held peer to another state always succeeds, so the warnings about programming errors in the sweep and the ping are never reached |
| `Kaboodle.KaboodleInner.MaybeBroadcastJoin` | src/kaboodle.rs:228-251 | announces itself exactly when it never did, or did ten seconds ago and knows nobody else |
| `Kaboodle.KaboodleInner.ChooseHelpers` | src/kaboodle.rs:594-606 | three, or all if fewer, different non-suspected peers |
| `Kaboodle.KaboodleInner.Examine` | src/kaboodle.rs:579-629 | the first pass extends its lists and sends by exactly what the peer at hand calls for |
| `Kaboodle.KaboodleInner.Restamp` | src/kaboodle.rs:631-639 | exactly the listed peers now wait for indirect pings, each since a reading made in this pass; the update never fails |
| `Kaboodle.KaboodleInner.RemoveAndAnnounce` | src/kaboodle.rs:641-652 | exactly the listed peers are gone from the map and from the notes, each announced once in order |
| `Kaboodle.KaboodleInner.HandleSuspectedPeers` | src/kaboodle.rs:558-653 | is one sweep step, with all its sends |
| `Kaboodle.KaboodleInner.ChooseTarget` | src/kaboodle.rs:661-680 | one of the five oldest non-suspected peers, or nobody exactly if there is none |
| `Kaboodle.KaboodleInner.PingRandomPeer` | src/kaboodle.rs:655-703 | is one ping step: the target waits, or is forgotten if the ping cannot be sent; the update never fails |
| `Kaboodle.KaboodleInner.HandleIncomingPingRequests` | src/kaboodle.rs:550-556 | pings the requested addresses in order and changes nothing |
| `Kaboodle.KaboodleInner.CalculatePeerLatency` | src/kaboodle.rs:789-817 | the smoothed latency of the specification; the time since the ping is never negative |
| `Kaboodle.KaboodleInner.HearFrom` | src/kaboodle.rs:406-415 | the sender is Known from now on, with the identity it gave, and everybody else is untouched |
| `Kaboodle.KaboodleInner.ForwardAck` | src/kaboodle.rs:423-441 | the Ack goes to the observers in order, or to the first of them when cut off |
| `Kaboodle.KaboodleInner.HandleAck` | src/kaboodle.rs:417-447 | the notes about the peer are used up, the Ack forwarded, and then a request made if views differ |
| `Kaboodle.KaboodleInner.HandleKnownPeers` | src/kaboodle.rs:448-472 | new peers enter with a timestamp too old to share, nobody else changes, or nothing happens when cut off |
| `Kaboodle.KaboodleInner.ListShareable` | src/kaboodle.rs:479-502 | exactly the Known peers, but for self and asker, heard within the share age at their own reading |
| `Kaboodle.KaboodleInner.HandleKnownPeersRequest` | src/kaboodle.rs:473-512 | answers with the shareable peers and then asks back if views differ |
| `Kaboodle.KaboodleInner.HandlePing` | src/kaboodle.rs:513-532 | answers with an Ack carrying its own fingerprint and count |
| `Kaboodle.KaboodleInner.HandlePingRequest` | src/kaboodle.rs:533-545 | notes the asker, at most once, and pings the target |
| `Kaboodle.KaboodleInner.MaybeSyncKnownPeers` | src/kaboodle.rs:707-740 | asks exactly when fingerprints differ and it knows no more peers |
| `Kaboodle.KaboodleInner.HandleMessage` | src/kaboodle.rs:405-546 | is one receive step, cut off or not; when cut off before the sender was heard, nothing has happened |
| `Kaboodle.KaboodleInner.HandleIncomingMessages` | src/kaboodle.rs:394-404 | handles in order exactly the packets that decode, each in a buffer that still holds the ends of earlier ones |
| `Kaboodle.KaboodleInner.ShouldRespondToBroadcast` | src/kaboodle.rs:333-354 | certainly yes when nobody else is there to respond |
| `Kaboodle.KaboodleInner.MaybeSendKnownPeersToPeer` | src/kaboodle.rs:356-392 | if the draw is for responding it sends a part of its view that fits the buffer, and would not with the peer dropped last; panics only with an overlong identity |
| `Kaboodle.KaboodleInner.MaybeRespondToProbe` | src/kaboodle.rs:313-331 | answers with its identity if the draw is for responding |
| `Kaboodle.KaboodleInner.HandleFailed` | src/kaboodle.rs:268-283 | removes the peer if the source is known and the peer is not itself |
| `Kaboodle.KaboodleInner.HandleJoin` | src/kaboodle.rs:284-304 | the newcomer is Known from now on, a latency it had is kept, and only one new to the map is sent peers |
| `Kaboodle.KaboodleInner.HandleBroadcast` | src/kaboodle.rs:267-309 | is one broadcast step, cut off or not |
| `Kaboodle.KaboodleInner.HandleIncomingBroadcasts` | src/kaboodle.rs:256-266 | handles in order exactly the packets that decode |
| `Kaboodle.KaboodleInner.Listen` | src/kaboodle.rs:767-778 | handles what arrives in order, until cut off; what it sends is a first part of what those steps try to send |
| `Kaboodle.KaboodleInner.RunTick` | src/kaboodle.rs:746-779 | is one tick: join, sweep, ping, requested pings, then listening for at least the rest of the period; everything that arrived is handled unless the time for listening was up |
| `Kaboodle.KaboodleInner.Run` | src/kaboodle.rs:781-786 | produces consecutive ticks, one per round, each pinging what was asked for and hearing what arrived or a first part of it, with everything sent being those ticks' attempts up to where each was cut, unless an overlong identity ends the task |
| `TickParts.LagDo` | src/kaboodle.rs:746-779 | a step possible now was possible at any earlier reading of the clock, with the same effect and sends |
| `TickParts.PartsMakeTick` | src/kaboodle.rs:746-779 | the calls of a tick, with clock readings between them, make up a tick |
| `TickParts.StepsReachEnd` | src/kaboodle.rs:746-779 | the steps of a tick in a row lead where its parts lead one after the other |
| `Channels.SendToAll` | src/events.rs:25-39 | the loop sends to every channel, notes the closed ones and prunes, as specified |
| `Channels.PrunesAsMeantIff` | src/events.rs:36-38 | pruning leaves exactly the open channels if and only if at most one is closed |
| `Channels.SendPanicsIff` | src/events.rs:36-38 | it panics if and only if more channels are closed, besides the last closed one, than follow that one |
| `Channels.SendWithOneClosed` | src/observable_hashmap.rs:51-65 | with at most one closed channel every open one gets the payload and only those remain |
| `Channels.TwoClosedPanic` | src/observable_hashmap.rs:62-64 | two closed channels at the end of the list are enough for a panic |
| `ObservableHashMap.ObservableHashMap.NotifyObservers` | src/observable_hashmap.rs:51-65 | observers get the event and are pruned, or nothing but a panic once the lock is poisoned |
| `ObservableHashMap.ObservableHashMap.AddObserver` | src/observable_hashmap.rs:67-74 | a new observer has seen nothing yet |
| `ObservableHashMap.ObservableHashMap.Insert` | src/observable_hashmap.rs:84-96 | sets the entry, reports Added or Updated with both values, returns what was there |
| `ObservableHashMap.ObservableHashMap.Remove` | src/observable_hashmap.rs:114-122 | removes the entry and reports it exactly if it was there |
| `ObservableHashMap.ObservableHashMap.Update` | src/observable_hashmap.rs:124-142 | changes and reports exactly if the key is there and the value changes, and says so |
| `ObservableHashMap.SingleObserver` | src/observable_hashmap.rs:51-65 | with one observer nothing panics, and an open one sees every event |
| `EventLog.PerformAll` | src/observable_hashmap.rs:84-142 | after any operations the map is that of the specification, and every observer that was open, of any number with at most one closed, has been told its log |
| `EventLog.LogReplaysToMap` | src/observable_hashmap.rs:84-142 | replaying an observer's log over the keys at its start gives the keys now |
| `EventLog.ToldIsHeld` | src/observable_hashmap.rs:124-142 | the value told last about a key is the value held |
| `EventLog.EveryEventFits` | src/observable_hashmap.rs:84-142 | every event was reported by one operation and is true of the map before and after it: additions come when the key is absent, the others when it is present, and an update's old value is the one held |
| `EventLog.UpdatesChain` | src/observable_hashmap.rs:124-142 | an update starts from the value that the update before it told |
| `EventLog.AddedAndRemovedAlternate` | src/observable_hashmap.rs:84-122 | between two additions of a key there is a removal, and the other way round |
| `Events.NotificationsConverge` | src/events.rs:49-100 | under every interleaving, once the queue is drained the last notification about an address that came or went is its discovery if and only if it is in the map |
| `Events.AlwaysAgrees` | src/events.rs:57-101 | at every point the unseen events, the pending discovery or the last notification, in that order, agree with the map |
| `Events.DiscoveredWasLookedUp` | src/events.rs:59-78 | every discovery sent carries the identity under which the map held the peer when the task looked it up for an addition |
| `Events.IdentitiesConverge` | src/events.rs:59-78 | if no operation changes the identity of a peer from its addition on, then once the queue is drained its last discovery carries the identity that the map holds |
| `Events.FingerprintConverges` | src/events.rs:103-122 | with a listener throughout, once the queue is drained after some event and the map is not empty, the fingerprint sent last is the map's |
| `EventTask.EventTask.TakeBatch` | src/events.rs:49-55 | takes every event that is ready, in order |
| `EventTask.EventTask.LookAtNext` | src/events.rs:57-100 | is one look at the current map for the next event; a departure goes out exactly if the peer is absent now |
| `EventTask.EventTask.AnnounceDiscovery` | src/events.rs:71-79 | sends the discovery looked up earlier, whatever the map holds by now |
| `EventTask.EventTask.FinishBatch` | src/events.rs:103-122 | tells listeners the current fingerprint exactly if the map is not empty and they were told another |
| `EventTask.EventTask.HandleBatch` | src/events.rs:49-123 | one undisturbed round of the loop drains the queue and keeps notifications in agreement |
| `Codec.EnvelopeRoundTrip` | src/structs.rs:77-116 | any envelope, its map written in any order and followed by any bytes, decodes to itself |
| `Codec.BroadcastRoundTrip` | src/structs.rs:64-73 | any broadcast followed by any bytes decodes to itself |
| `Codec.ProbeResponseAsEnvelope` | src/discovery.rs:80-87 | a probe response followed by other bytes decodes as an envelope exactly if those decode as a message, and then with the same identity |
| `Codec.ProbeResponseThenZeros` | src/discovery.rs:46-87 | followed by four zero bytes it decodes as an envelope with the same identity |
| `Codec.TruncatedIsRejected` | src/kaboodle.rs:396-404 | no proper first part of an encoded envelope decodes |
| `Codec.ReadFromBufferIff` | src/kaboodle.rs:395-403 | an envelope read into a used buffer comes out as it was if and only if it fits |
| `Codec.Tags` | src/structs.rs:64-116 | messages and broadcasts start with their tags, numbered in the order of declaration |
| `Codec.AddrLayout` | src/structs.rs:12 | an address is written as its family, its octets and its port, low byte first |
| `Codec.Example` | src/structs.rs:64-116 | an Ack, a list of one peer and a Join, byte for byte |
| `JoinReply.TrimToFit` | src/kaboodle.rs:372-383 | for every choice of peers to drop it ends with a part of the view that fits, having dropped none after it first fitted; it panics exactly when not even the empty list fits |
| `JoinReply.Serialize` | src/kaboodle.rs:220-226 | writes the map in some order, each entry once |
| `JoinReply.SizeIsOrderFree` | src/kaboodle.rs:220-226 | all orders of writing a map take the same number of bytes |
| `JoinReply.ReplyArrives` | src/kaboodle.rs:372-392 | the trimmed reply, read into the receiver's buffer, decodes to the list that was sent |
| `Discovery.DiscoverMeshMember` | src/discovery.rs:44-89 | for every script of timeouts, errors and datagrams: the first probe goes out at once, every interval is the one the timeouts so far call for, intervals never shrink or exceed ten seconds, gaps between probes are at least the interval and below twenty seconds, every probe decodes to one that names the prober, and it ends with the first readable datagram or with a probe that could not be sent |
| `Discovery.ProbeIfDue` | src/discovery.rs:52-58 | a probe goes out exactly if the interval has passed since the last one, and only a probe can fail |
| `Discovery.TimeoutsReachMaximum` | src/discovery.rs:61-70 | every timeout adds at least a quarter of a second to the interval until it is ten seconds |
| `Discovery.NextIntervalExactly` | src/discovery.rs:63-68 | the next interval is a quarter longer, in whole milliseconds, or ten seconds if that is less |
| `Discovery.IntervalByTimeouts` | src/discovery.rs:60-70 | the interval depends on the number of timeouts only |
| `Discovery.Schedule` | src/discovery.rs:18-25 | the intervals: eleven timeouts lead from one second to ten |
| `Discovery.FirstAnswerUnderstood` | src/discovery.rs:60-87 | a first datagram that is a probe response, with room for four more bytes, is understood |
| `Fingerprint.SortedPeers` | src/kaboodle.rs:72-73 | whatever order the map is iterated in, the result is the one ascending list of its keys |
| `Fingerprint.GenerateFingerprint` | src/kaboodle.rs:71-83 | the hash fed piece by piece is the checksum of the whole view written in address order, whatever the iteration order, states or latencies |
| `Fingerprint.IdentityChangeDetected` | src/kaboodle.rs:76-80 | a change within four consecutive bytes of one identity of the same length always changes the fingerprint |
| `Fingerprint.FieldsNotSeparated` | src/kaboodle.rs:76-80 | an identity that spells out another peer gives a different view the same fingerprint |
| `Crc.UpdateInPieces` | src/kaboodle.rs:75-82 | feeding in pieces is feeding the whole |
| `Crc.BurstDetected` | src/kaboodle.rs:75-82 | a change confined to four consecutive bytes always changes the checksum |
| `CrcCheck.ChecksumInHex` | src/kaboodle.rs:75-82 | the checksum by bits is the checksum by hexadecimal digits, on every input |
| `CrcCheck.CheckValues` | src/kaboodle.rs:75-82 | the CRC-32 of the empty string is 0, and that of the letter a is 0xE8B7BE43 |
| `Order.SortByKey` | src/kaboodle.rs:675 | sorts: ascending by the key, and a permutation |
| `Order.SortIsStable` | src/kaboodle.rs:675 | the entries with any one key keep their order |
| `Order.AscendingListUnique` | src/kaboodle.rs:72-73 | a set of addresses has only one ascending list, so sorting forgets the iteration order |

## Left out

- Sockets, interfaces and multicast set-up (src/networking.rs): operating-system calls.
- The demo application (src/main.rs) and the wiring in src/lib.rs: they delegate to what is modelled.
- Randomness as probability: a draw is any value the code can draw; the percentage with which broadcasts are answered is not modelled beyond the case that forces a yes.
- Kaboodle.KaboodleInner.CalculatePeerLatency: smooths in whole milliseconds, rounding eight tenths and two tenths down together; the rounding of 64-bit floats, and of the first sample's fraction of a millisecond, is not modelled.
- Kaboodle.KaboodleInner.ShouldRespondToBroadcast: gives the one case in which the answer is forced; the percentage that it is drawn with otherwise is not modelled.
- RequestLoop.NextRequestIff: assumes fewer than 2^32 known peers, the most that the count in a message can tell.
- Floating point: latencies are smoothed in whole milliseconds and the probe interval grows by exactly a quarter, rounded down; the rounding of 64-bit floats is not modelled.
- Eviction within a bounded time of the last contact: false, by `Candidates.NeverPinged`; what holds is in `Window`, `Candidates` and `Ticks`.
- Fingerprints of different views being different in general: false for any checksum, and false for short views because fields are not separated.
- AntiEntropy.ExchangeComputesUnion: assumes that requests and answers are handled to the end; a list too long for the receiver's buffer is not (`Codec.TruncatedIsRejected`).
- EventTask.EventTask.HandleBatch: is about a round in which nobody else changes the map; all interleavings are covered by the lemmas of `Events`. A panic while sending is recorded, not modelled as the end of the task.
- Discovery.DiscoverMeshMember: timers fire exactly, and the errors of setting up its sockets are not modelled.
- Kaboodle.KaboodleInner.RunTick: the order in which the two sockets are served is arbitrary, but what they hold is given beforehand.
- Messages to a node's broadcast port by unicast, probe responses sent to mesh members, and the flow and scope of IPv6 addresses.
- Restarting an instance with peers left over from before: mesh runs start afresh, though the class accepts such a map.
- Logging, error texts and the public methods that only read the map.
