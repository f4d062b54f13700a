/**
 * Lists of channel senders, and the send-and-prune loop that `notify_observers` and
 * `broadcast_to_channels` share: it remembers the indices of closed channels and then removes
 * those indices in ascending order, each from a list that the removals before have shortened.
 */
module Channels {
  import opened Basics

  /** The sending end of an unbounded channel: whether the receiver is still there, and what was sent. */
  datatype Sender<T> = Sender(isOpen: bool, log: seq<T>)

  /** What pruning leaves, and whether it ended in an index out of range. */
  datatype Pruned<T> = Pruned(left: seq<Sender<T>>, panicked: bool)

  function Send<T>(tx: Sender<T>, payload: T): Sender<T> {
    if tx.isOpen then tx.(log := tx.log + [payload]) else tx
  }

  function SendEach<T>(channels: seq<Sender<T>>, payload: T): (r: seq<Sender<T>>)
    ensures |r| == |channels|
    ensures forall i :: 0 <= i < |r| ==> r[i] == Send(channels[i], payload)
  {
    if channels == [] then []
    else SendEach(channels[..|channels| - 1], payload) + [Send(channels[|channels| - 1], payload)]
  }

  /** The indices of the closed channels, ascending. */
  function ClosedAt<T>(channels: seq<Sender<T>>): (r: seq<nat>)
    ensures |r| <= |channels|
    ensures forall j :: 0 <= j < |r| ==> r[j] < |channels| && !channels[r[j]].isOpen
    ensures forall i, j :: 0 <= i < j < |r| ==> r[i] < r[j]
    ensures forall i :: 0 <= i < |channels| && !channels[i].isOpen ==> i in r
  {
    if channels == [] then []
    else
      var last := |channels| - 1;
      ClosedAt(channels[..last]) + (if channels[last].isOpen then [] else [last])
  }

  function OpenOnes<T>(channels: seq<Sender<T>>): (r: seq<Sender<T>>)
    ensures forall i :: 0 <= i < |r| ==> r[i].isOpen
  {
    if channels == [] then []
    else
      var last := |channels| - 1;
      OpenOnes(channels[..last]) + (if channels[last].isOpen then [channels[last]] else [])
  }

  function RemoveAt<T>(s: seq<T>, i: nat): seq<T>
    requires i < |s|
  {
    s[..i] + s[i + 1..]
  }

  /** Removing one index after the other; an index out of range panics. */
  function RemoveEach<T>(channels: seq<Sender<T>>, indices: seq<nat>): Pruned<T>
    decreases |indices|
  {
    if indices == [] then Pruned(channels, false)
    else if indices[0] >= |channels| then Pruned(channels, true)
    else RemoveEach(RemoveAt(channels, indices[0]), indices[1..])
  }

  function AfterSend<T>(channels: seq<Sender<T>>, payload: T): Pruned<T> {
    RemoveEach(SendEach(channels, payload), ClosedAt(channels))
  }

  method SendToAll<T>(channels: seq<Sender<T>>, payload: T) returns (r: Pruned<T>)
    ensures r == AfterSend(channels, payload)
  {
    var txs := channels;
    var closed: seq<nat> := [];
    for i := 0 to |channels|
      invariant |txs| == |channels| && forall j :: i <= j < |channels| ==> txs[j] == channels[j]
      invariant txs[..i] == SendEach(channels[..i], payload)
      invariant closed == ClosedAt(channels[..i])
    {
      assert channels[..i + 1][..i] == channels[..i];
      if !txs[i].isOpen {
        closed := closed + [i];
      }
      txs := txs[i := Send(txs[i], payload)];
    }
    assert txs == txs[..|channels|] && channels == channels[..|channels|];
    r := Prune(txs, closed);
  }

  /** The removals, in place and in the order given. */
  method Prune<T>(channels: seq<Sender<T>>, indices: seq<nat>) returns (r: Pruned<T>)
    ensures r == RemoveEach(channels, indices)
  {
    var txs := channels;
    for j := 0 to |indices|
      invariant RemoveEach(txs, indices[j..]) == RemoveEach(channels, indices)
    {
      assert indices[j..][0] == indices[j] && indices[j..][1..] == indices[j + 1..];
      if indices[j] >= |txs| {
        return Pruned(txs, true);
      }
      txs := RemoveAt(txs, indices[j]);
    }
    return Pruned(txs, false);
  }

  // What the loop is meant to do, and when it does that.

  ghost predicate Rising(indices: seq<nat>) {
    forall i, j :: 0 <= i < j < |indices| ==> indices[i] < indices[j]
  }

  /** The loop panics exactly when an index reaches past what is left at its turn: the last one decides. */
  lemma {:induction false} PanicsIff<T>(channels: seq<Sender<T>>, indices: seq<nat>)
    requires Rising(indices)
    ensures RemoveEach(channels, indices).panicked
       <==> indices != [] && indices[|indices| - 1] + |indices| > |channels|
    decreases |indices|
  {
    if indices != [] && indices[0] < |channels| {
      PanicsIff(RemoveAt(channels, indices[0]), indices[1..]);
    }
  }

  /** Removing indices above `q` does not move what is at `q`. */
  lemma {:induction false} BelowStays<T>(channels: seq<Sender<T>>, indices: seq<nat>, q: nat)
    requires q < |channels| && forall j :: 0 <= j < |indices| ==> q < indices[j]
    ensures var left := RemoveEach(channels, indices).left;
            q < |left| && left[q] == channels[q]
    decreases |indices|
  {
    if indices != [] && indices[0] < |channels| {
      BelowStays(RemoveAt(channels, indices[0]), indices[1..], q);
    }
  }

  lemma {:induction false} OpenOnesAll<T>(channels: seq<Sender<T>>)
    requires forall i :: 0 <= i < |channels| ==> channels[i].isOpen
    ensures OpenOnes(channels) == channels
  {
    if channels != [] {
      OpenOnesAll(channels[..|channels| - 1]);
    }
  }

  lemma {:induction false} OpenOnesWithout<T>(channels: seq<Sender<T>>, i: nat)
    requires i < |channels| && !channels[i].isOpen
    requires forall j :: 0 <= j < |channels| && j != i ==> channels[j].isOpen
    ensures OpenOnes(channels) == RemoveAt(channels, i)
  {
    var last := |channels| - 1;
    if i == last {
      OpenOnesAll(channels[..last]);
    } else {
      OpenOnesWithout(channels[..last], i);
    }
  }

  lemma {:induction false} ClosedAtSent<T>(channels: seq<Sender<T>>, payload: T)
    ensures ClosedAt(SendEach(channels, payload)) == ClosedAt(channels)
  {
    if channels != [] {
      var last := |channels| - 1;
      ClosedAtSent(channels[..last], payload);
      assert SendEach(channels, payload)[..last] == SendEach(channels[..last], payload);
    }
  }

  /**
   * The loop prunes the closed channels, and only those, exactly when at most one is closed: the
   * second closed channel is never removed.
   */
  lemma PrunesAsMeantIff<T>(channels: seq<Sender<T>>)
    ensures RemoveEach(channels, ClosedAt(channels)) == Pruned(OpenOnes(channels), false)
       <==> |ClosedAt(channels)| <= 1
  {
    var closed := ClosedAt(channels);
    if closed == [] {
      OpenOnesAll(channels);
    } else if |closed| == 1 {
      OpenOnesWithout(channels, closed[0]);
      assert closed[1..] == [];
    } else {
      SecondClosedStays(channels);
    }
  }

  /** What the second index points at is still there after all removals. */
  lemma SecondStays<T>(channels: seq<Sender<T>>, indices: seq<nat>)
    requires Rising(indices) && |indices| >= 2 && indices[1] < |channels|
    ensures var left := RemoveEach(channels, indices).left;
            indices[1] - 1 < |left| && left[indices[1] - 1] == channels[indices[1]]
  {
    BelowStays(RemoveAt(channels, indices[0]), indices[1..], indices[1] - 1);
  }

  lemma SecondClosedStays<T>(channels: seq<Sender<T>>)
    requires |ClosedAt(channels)| >= 2
    ensures RemoveEach(channels, ClosedAt(channels)).left != OpenOnes(channels)
  {
    SecondStays(channels, ClosedAt(channels));
  }

  /**
   * Sending panics exactly when more channels are closed, besides the last closed one, than open
   * channels follow it.
   */
  lemma SendPanicsIff<T>(channels: seq<Sender<T>>, payload: T)
    ensures AfterSend(channels, payload).panicked <==>
              && ClosedAt(channels) != []
              && |ClosedAt(channels)| - 1 > |channels| - 1 - ClosedAt(channels)[|ClosedAt(channels)| - 1]
  {
    var sent, closed := SendEach(channels, payload), ClosedAt(channels);
    PanicsIff(sent, closed);
    assert |sent| == |channels|;
  }

  /** With at most one closed channel, every open one gets the payload and only they remain. */
  lemma SendWithOneClosed<T>(channels: seq<Sender<T>>, payload: T)
    requires |ClosedAt(channels)| <= 1
    ensures AfterSend(channels, payload) == Pruned(OpenOnes(SendEach(channels, payload)), false)
  {
    ClosedAtSent(channels, payload);
    PrunesAsMeantIff(SendEach(channels, payload));
  }

  /** Two closed channels at the end of the list bring the sender down. */
  lemma TwoClosedPanic(payload: int)
    ensures AfterSend([Sender(false, []), Sender(false, [])], payload).panicked
  {
    var channels: seq<Sender<int>> := [Sender(false, []), Sender(false, [])];
    assert 0 in ClosedAt(channels) && 1 in ClosedAt(channels);
    SendPanicsIff(channels, payload);
  }
}
