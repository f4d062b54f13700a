/**
 * The probe loop of src/discovery.rs: probes go out at growing intervals until something that
 * reads as an envelope arrives. What the socket does is a script; timers fire exactly.
 */
module Discovery {
  import opened Basics
  import opened Types
  import opened Codec

  const START_REBROADCAST_INTERVAL: nat := 1000
  const MAX_REBROADCAST_INTERVAL: nat := 10000
  const BUFFER_SIZE: nat := 1024

  function NewBuffer(): (r: Bytes)
    ensures |r| == BUFFER_SIZE && forall i :: 0 <= i < |r| ==> r[i] == 0
  {
    seq(BUFFER_SIZE, i => 0)
  }

  /** One wait on the socket: nothing in time, an error, or a datagram after `delay`. */
  datatype Wait =
    | TimedOut
    | ReadError(delay: nat)
    | Arrived(delay: nat, sender: Addr, datagram: Bytes)

  /** A quarter more than before, in whole milliseconds, up to the maximum. */
  function NextInterval(interval: nat): nat {
    var longer := interval * 5 / 4;
    if longer < MAX_REBROADCAST_INTERVAL then longer else MAX_REBROADCAST_INTERVAL
  }

  /** A probe handed to the socket: when, under which interval, after how many waits, and its bytes. */
  datatype Sent = Sent(at: Time, interval: nat, waits: nat, bytes: Bytes)

  /** How the loop ends: with an answer, with a probe that could not be sent, or not yet. */
  datatype Ending = Found(sender: Addr, identity: Bytes) | SendFailed | StillWaiting

  function CountTimeouts(waits: seq<Wait>): nat {
    if waits == [] then 0
    else CountTimeouts(waits[..|waits| - 1]) + (if waits[|waits| - 1].TimedOut? then 1 else 0)
  }

  /** The interval after these waits: only timeouts make it longer. */
  function IntervalAfter(waits: seq<Wait>): nat {
    if waits == [] then START_REBROADCAST_INTERVAL
    else
      var before := IntervalAfter(waits[..|waits| - 1]);
      if waits[|waits| - 1].TimedOut? then NextInterval(before) else before
  }

  ghost predicate IntervalsFit(script: seq<Wait>, probes: seq<Sent>) {
    forall i :: 0 <= i < |probes| ==>
      probes[i].waits <= |script| && probes[i].interval == IntervalAfter(script[..probes[i].waits])
  }

  /** The gap before probe `i` is at least the interval in force, and below twice the maximum. */
  ghost predicate SpacedAt(probes: seq<Sent>, i: nat) {
    && i < |probes|
    && START_REBROADCAST_INTERVAL <= probes[i].interval <= MAX_REBROADCAST_INTERVAL
    && (i > 0 ==>
          && probes[i - 1].interval <= probes[i].interval
          && probes[i].interval <= probes[i].at - probes[i - 1].at < 2 * MAX_REBROADCAST_INTERVAL)
  }

  ghost predicate WellSpaced(probes: seq<Sent>) {
    forall i: nat :: i < |probes| ==> SpacedAt(probes, i)
  }

  /** The first wait of the script that delivers something readable, given the buffer before it. */
  function FirstReadable(script: seq<Wait>, buffer: Bytes): Option<(Addr, Bytes)>
    decreases |script|
  {
    if script == [] then None
    else if script[0].Arrived? then
      var filled := Fill(buffer, script[0].datagram);
      var read := DecodeEnvelope(filled);
      if read.Some? then Some((script[0].sender, read.value.identity))
      else FirstReadable(script[1..], filled)
    else FirstReadable(script[1..], buffer)
  }

  /** No wait outlasts its timeout: a datagram or an error comes before the interval is over. */
  function Delay(wait: Wait, interval: nat): nat {
    match wait
    case TimedOut => interval
    case ReadError(delay) => if delay <= interval then delay else interval
    case Arrived(delay, _, _) => if delay <= interval then delay else interval
  }

  lemma ProbeAdded(probes: seq<Sent>, probe: Sent)
    requires WellSpaced(probes)
    requires START_REBROADCAST_INTERVAL <= probe.interval <= MAX_REBROADCAST_INTERVAL
    requires probes != [] ==>
               var last := probes[|probes| - 1];
               last.interval <= probe.interval <= probe.at - last.at < 2 * MAX_REBROADCAST_INTERVAL
    ensures WellSpaced(probes + [probe])
  {
    forall i: nat | i < |probes + [probe]|
      ensures SpacedAt(probes + [probe], i)
    {
      if i < |probes| {
        assert SpacedAt(probes, i);
      }
    }
  }

  lemma StartsEmpty(script: seq<Wait>)
    ensures WellSpaced([]) && IntervalsFit(script, [])
    ensures IntervalAfter([]) == START_REBROADCAST_INTERVAL
    ensures forall buffer :: FirstReadable([], buffer) == None
  {
  }

  lemma NextWait(script: seq<Wait>, i: nat)
    requires i < |script|
    ensures var before := IntervalAfter(script[..i]);
            IntervalAfter(script[..i + 1]) == if script[i].TimedOut? then NextInterval(before) else before
  {
    assert script[..i + 1][..i] == script[..i];
  }

  lemma FitAdded(script: seq<Wait>, probes: seq<Sent>, probe: Sent)
    requires IntervalsFit(script, probes) && probe.waits <= |script|
    requires probe.interval == IntervalAfter(script[..probe.waits])
    ensures IntervalsFit(script, probes + [probe])
  {
    hide IntervalAfter;
  }

  lemma ReadableFrom(script: seq<Wait>, i: nat, buffer: Bytes)
    requires i < |script|
    ensures script[i].Arrived? ==>
              var filled := Fill(buffer, script[i].datagram);
              var read := DecodeEnvelope(filled);
              FirstReadable(script[i..], buffer) ==
                if read.Some? then Some((script[i].sender, read.value.identity))
                else FirstReadable(script[i + 1..], filled)
    ensures !script[i].Arrived? ==>
              FirstReadable(script[i..], buffer) == FirstReadable(script[i + 1..], buffer)
  {
    assert script[i..][0] == script[i] && script[i..][1..] == script[i + 1..];
  }

  lemma NextIntervalGrows(interval: nat)
    requires START_REBROADCAST_INTERVAL <= interval <= MAX_REBROADCAST_INTERVAL
    ensures interval <= NextInterval(interval) <= MAX_REBROADCAST_INTERVAL
  {
  }

  /** Since the last probe at `last`, sent under `interval` or a shorter one, less than two maxima have passed. */
  ghost predicate Recent(probes: seq<Sent>, last: Time, interval: nat, now: Time) {
    && probes != [] && probes[|probes| - 1].at == last && probes[|probes| - 1].interval <= interval
    && 0 <= now - last < 2 * MAX_REBROADCAST_INTERVAL
  }

  /**
   * Plays the script from time `start`. Returns the probes sent and how it ended; the loop itself
   * goes on when the script ends.
   */
  method DiscoverMeshMember(selfAddr: Addr, start: Time, script: seq<Wait>)
    returns (ending: Ending, probes: seq<Sent>, now: Time)
    ensures WellSpaced(probes) && probes != [] && probes[0].at == start
    ensures IntervalsFit(script, probes)
    ensures forall i :: 0 <= i < |probes| ==> DecodeBroadcast(probes[i].bytes) == Some(Probe(selfAddr))
    ensures match ending
            case Found(sender, identity) => FirstReadable(script, NewBuffer()) == Some((sender, identity))
            case StillWaiting => FirstReadable(script, NewBuffer()) == None
            case SendFailed => probes[|probes| - 1].at == now
    ensures now - probes[|probes| - 1].at < 2 * MAX_REBROADCAST_INTERVAL
  {
    hide DecodeEnvelope, DecodeBroadcast, EncodeBroadcast, Fill, WellSpaced, IntervalsFit, IntervalAfter,
      FirstReadable, NextInterval;
    now := start;
    var interval := START_REBROADCAST_INTERVAL;
    var buffer := NewBuffer();
    ghost var goal := FirstReadable(script, buffer);
    var lastBroadcast := now - interval - 1000;
    var ok;
    probes := [];
    var outBytes := EncodeBroadcast(Probe(selfAddr));
    assert outBytes + [] == outBytes;
    BroadcastRoundTrip(Probe(selfAddr), []);
    StartsEmpty(script);
    assert script[0..] == script;
    for i := 0 to |script|
      invariant START_REBROADCAST_INTERVAL <= interval <= MAX_REBROADCAST_INTERVAL
      invariant interval == IntervalAfter(script[..i])
      invariant WellSpaced(probes) && IntervalsFit(script, probes)
      invariant probes == [] ==> i == 0 && now == start && lastBroadcast <= now - interval
      invariant probes != [] ==> probes[0].at == start && Recent(probes, lastBroadcast, interval, now)
      invariant FirstReadable(script[i..], buffer) == goal
      invariant forall j :: 0 <= j < |probes| ==> probes[j].bytes == outBytes
    {
      NextWait(script, i);
      ok, lastBroadcast, probes := ProbeIfDue(outBytes, lastBroadcast, interval, now, script, i, probes);
      if !ok {
        return SendFailed, probes, now;
      }
      now := now + Delay(script[i], interval);
      ReadableFrom(script, i, buffer);
      match script[i] {
        case TimedOut =>
          NextIntervalGrows(interval);
          interval := NextInterval(interval);
        case ReadError(_) =>
        case Arrived(_, sender, datagram) =>
          buffer := Fill(buffer, datagram);
          var read := DecodeEnvelope(buffer);
          if read.Some? {
            return Found(sender, read.value.identity), probes, now;
          }
      }
    }
    assert script[|script|..] == [];
    ok, lastBroadcast, probes := ProbeIfDue(outBytes, lastBroadcast, interval, now, script, |script|, probes);
    ending := if ok then StillWaiting else SendFailed;
  }

  /** The head of the loop: a probe goes out when the interval has passed since the last one. */
  method ProbeIfDue(outBytes: Bytes, lastBroadcast: Time, interval: nat, now: Time,
                    ghost script: seq<Wait>, waits: nat, probes: seq<Sent>)
    returns (ok: bool, last: Time, sent: seq<Sent>)
    requires START_REBROADCAST_INTERVAL <= interval <= MAX_REBROADCAST_INTERVAL && WellSpaced(probes)
    requires probes == [] ==> lastBroadcast <= now - interval
    requires probes != [] ==> Recent(probes, lastBroadcast, interval, now)
    requires waits <= |script| && interval == IntervalAfter(script[..waits]) && IntervalsFit(script, probes)
    ensures sent == if lastBroadcast <= now - interval
                    then probes + [Sent(now, interval, waits, outBytes)] else probes
    ensures WellSpaced(sent) && Recent(sent, last, interval, now) && now - last < interval
    ensures IntervalsFit(script, sent) && (!ok ==> last == now)
  {
    hide IntervalsFit, WellSpaced, IntervalAfter;
    ok, last, sent := true, lastBroadcast, probes;
    if lastBroadcast <= now - interval {
      ProbeAdded(probes, Sent(now, interval, waits, outBytes));
      FitAdded(script, probes, Sent(now, interval, waits, outBytes));
      last, sent := now, probes + [Sent(now, interval, waits, outBytes)];
      ok := *;
    }
  }

  lemma {:induction false} IntervalInRange(waits: seq<Wait>)
    ensures START_REBROADCAST_INTERVAL <= IntervalAfter(waits) <= MAX_REBROADCAST_INTERVAL
  {
    if waits != [] {
      IntervalInRange(waits[..|waits| - 1]);
    }
  }

  /** A quarter more, without the fraction of a millisecond, or the maximum if that is less. */
  lemma NextIntervalExactly(interval: nat)
    ensures var next := NextInterval(interval);
            if 5 * interval < 40000 then 4 * next <= 5 * interval < 4 * next + 4 else next == 10000
  {
  }

  /** The interval after this many timeouts. */
  function AfterTimeouts(count: nat): nat {
    if count == 0 then START_REBROADCAST_INTERVAL else NextInterval(AfterTimeouts(count - 1))
  }

  /** Only the number of timeouts matters. */
  lemma {:induction false} IntervalByTimeouts(waits: seq<Wait>)
    ensures IntervalAfter(waits) == AfterTimeouts(CountTimeouts(waits))
  {
    if waits != [] {
      IntervalByTimeouts(waits[..|waits| - 1]);
    }
  }

  /** The intervals in milliseconds: eleven timeouts lead from one second to ten. */
  lemma Schedule()
    ensures AfterTimeouts(0) == 1000 && AfterTimeouts(1) == 1250 && AfterTimeouts(2) == 1562
    ensures AfterTimeouts(3) == 1952 && AfterTimeouts(4) == 2440 && AfterTimeouts(5) == 3050
    ensures AfterTimeouts(6) == 3812 && AfterTimeouts(7) == 4765 && AfterTimeouts(8) == 5956
    ensures AfterTimeouts(9) == 7445 && AfterTimeouts(10) == 9306 && AfterTimeouts(11) == 10000
  {
  }

  /** Every timeout adds at least a quarter of a second, until the maximum is reached. */
  lemma {:induction false} TimeoutsReachMaximum(waits: seq<Wait>)
    ensures IntervalAfter(waits) == MAX_REBROADCAST_INTERVAL
         || IntervalAfter(waits) >= START_REBROADCAST_INTERVAL + 250 * CountTimeouts(waits)
  {
    if waits != [] {
      TimeoutsReachMaximum(waits[..|waits| - 1]);
      IntervalInRange(waits[..|waits| - 1]);
    }
  }

  /** Whatever timed out or failed before it: the first datagram, if a node's answer, is understood. */
  lemma {:induction false} FirstAnswerUnderstood(script: seq<Wait>, i: nat, response: ProbeResponse)
    requires i < |script| && script[i].Arrived? && script[i].datagram == EncodeProbeResponse(response)
    requires forall j :: 0 <= j < i ==> !script[j].Arrived?
    requires |response.identity| + 12 <= BUFFER_SIZE
    ensures FirstReadable(script, NewBuffer()) == Some((script[i].sender, response.identity))
    decreases i
  {
    if i == 0 {
      var buffer := NewBuffer();
      var tail := buffer[|response.identity| + 8..];
      assert Fill(buffer, script[0].datagram) == EncodeProbeResponse(response) + tail;
      assert tail[..4] == [0, 0, 0, 0];
      ProbeResponseThenZeros(response, tail);
    } else {
      FirstAnswerUnderstood(script[1..], i - 1, response);
    }
  }
}
