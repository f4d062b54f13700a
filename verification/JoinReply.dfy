/**
 * The reply to a newcomer (`maybe_send_known_peers_to_peer`): a list of all peers, from which
 * peers are dropped at random until the message fits the receivers' buffers.
 */
module JoinReply {
  import opened Basics
  import opened Types
  import opened Codec

  /** Writes an envelope, iterating its map in some order. */
  method Serialize(identity: Bytes, peers: View) returns (bytes: Bytes, order: seq<Addr>)
    ensures IsOrder(peers, order) && Lists(KnownPeers(peers), order)
    ensures bytes == EncodeEnvelope(SwimEnvelope(identity, KnownPeers(peers)), order)
  {
    order := [];
    var left := peers.Keys;
    while left != {}
      invariant NoDuplicates(order) && left !! Elements(order)
      invariant Elements(order) + left == peers.Keys
      decreases |left|
    {
      var p :| p in left;
      ElementsAppend(order, p);
      left, order := left - {p}, order + [p];
    }
    assert forall p :: p in order ==> p in Elements(order);
    bytes := EncodeEnvelope(SwimEnvelope(identity, KnownPeers(peers)), order);
  }

  ghost predicate Fits(identity: Bytes, peers: View, order: seq<Addr>)
    requires Lists(KnownPeers(peers), order)
  {
    |EncodeEnvelope(SwimEnvelope(identity, KnownPeers(peers)), order)| < INCOMING_BUFFER_SIZE
  }

  ghost predicate FitsInSomeOrder(identity: Bytes, peers: View) {
    exists order :: IsOrder(peers, order) && Lists(KnownPeers(peers), order) && Fits(identity, peers, order)
  }

  /** A part of the view that fits: all of it, or one that would not fit with the peer dropped last. */
  ghost predicate Trimmed(identity: Bytes, view: View, listed: View) {
    && (forall p :: p in listed ==> p in view && listed[p] == view[p])
    && FitsInSomeOrder(identity, listed)
    && (listed != view ==>
          exists x :: x in view && x !in listed && !FitsInSomeOrder(identity, listed[x := view[x]]))
  }

  /** The bytes an entry takes. */
  function EntrySize(p: Addr, identity: Bytes): nat {
    |EncodeEntry(p, identity)|
  }

  lemma {:induction false} EntriesSize(peers: View, order: seq<Addr>, x: Addr, i: nat)
    requires i < |order| && order[i] == x && forall p :: p in order ==> p in peers
    ensures forall p :: p in order[..i] + order[i + 1..] ==> p in peers
    ensures |EncodeEntries(peers, order)|
         == |EncodeEntries(peers, order[..i] + order[i + 1..])| + EntrySize(x, peers[x])
  {
    hide EncodeEntry;
    if i == 0 {
      assert order[..0] + order[1..] == order[1..];
    } else {
      EntriesSize(peers, order[1..], x, i - 1);
      assert (order[..i] + order[i + 1..])[1..] == order[1..][..i - 1] + order[1..][i..];
    }
  }

  /** All orders take the same number of bytes. */
  lemma {:induction false} SizeIsOrderFree(peers: View, s: seq<Addr>, t: seq<Addr>)
    requires NoDuplicates(s) && NoDuplicates(t) && Elements(s) == Elements(t)
    requires (forall p :: p in s ==> p in peers) && (forall p :: p in t ==> p in peers)
    ensures |EncodeEntries(peers, s)| == |EncodeEntries(peers, t)|
    decreases |s|
  {
    if s == [] {
      HeadIsElement(t);
    } else {
      HeadIsElement(s);
      var i :| 0 <= i < |t| && t[i] == s[0];
      var rest := t[..i] + t[i + 1..];
      EntriesSize(peers, t, s[0], i);
      ElementsWithout(t, i);
      ElementsWithout(s, 0);
      assert s[..0] + s[1..] == s[1..];
      SizeIsOrderFree(peers, s[1..], rest);
    }
  }

  lemma SameSize(identity: Bytes, peers: View, s: seq<Addr>, t: seq<Addr>)
    requires IsOrder(peers, s) && IsOrder(peers, t)
    requires Lists(KnownPeers(peers), s) && Lists(KnownPeers(peers), t)
    ensures Fits(identity, peers, s) <==> Fits(identity, peers, t)
  {
    SizeIsOrderFree(peers, s, t);
  }

  lemma LeastSize(identity: Bytes, peers: View, order: seq<Addr>)
    requires Lists(KnownPeers(peers), order)
    ensures |EncodeEnvelope(SwimEnvelope(identity, KnownPeers(peers)), order)| >= |identity| + 20
    ensures order == [] ==>
              |EncodeEnvelope(SwimEnvelope(identity, KnownPeers(peers)), order)| == |identity| + 20
  {
  }

  /**
   * The trimming loop. It panics, picking a peer from an empty list, exactly when our identity is
   * so long that not even the empty list fits. Otherwise it ends, for every choice of peers to
   * drop, with a part of the view that fits; and it stopped dropping as soon as it could.
   */
  method TrimToFit(identity: Bytes, view: View)
    returns (r: Outcome<(View, Bytes)>, ghost order: seq<Addr>)
    ensures r.Panicked? <==> |identity| >= 10220
    ensures r.Done? ==>
              var (listed, bytes) := r.value;
              && (forall p :: p in listed ==> p in view && listed[p] == view[p])
              && IsOrder(listed, order) && Lists(KnownPeers(listed), order)
              && bytes == EncodeEnvelope(SwimEnvelope(identity, KnownPeers(listed)), order)
              && |bytes| < INCOMING_BUFFER_SIZE
              && Trimmed(identity, view, listed)
  {
    hide EncodeEnvelope, FitsInSomeOrder;
    var others := view;
    ghost var dropped: Option<Addr> := None;
    while true
      invariant forall p :: p in others ==> p in view && others[p] == view[p]
      invariant others == view || (dropped.Some? && dropped.value in view && dropped.value !in others
                && !FitsInSomeOrder(identity, others[dropped.value := view[dropped.value]]))
      invariant others != view ==> dropped.Some?
      decreases |others|
    {
      var bytes, iterated := Serialize(identity, others);
      LeastSize(identity, others, iterated);
      if |bytes| < INCOMING_BUFFER_SIZE {
        FitsThisWay(identity, others, iterated);
        return Done((others, bytes)), iterated;
      }
      if others == map[] {
        HeadIsElement(iterated);
        return Panicked, [];
      }
      var peer :| peer in others;
      NoOrderFits(identity, others, iterated);
      assert (others - {peer})[peer := view[peer]] == others;
      dropped := Some(peer);
      others := others - {peer};
    }
  }

  lemma FitsThisWay(identity: Bytes, peers: View, order: seq<Addr>)
    requires IsOrder(peers, order) && Lists(KnownPeers(peers), order) && Fits(identity, peers, order)
    ensures FitsInSomeOrder(identity, peers)
  {
  }

  lemma NoOrderFits(identity: Bytes, peers: View, order: seq<Addr>)
    requires IsOrder(peers, order) && Lists(KnownPeers(peers), order) && !Fits(identity, peers, order)
    ensures !FitsInSomeOrder(identity, peers)
  {
    forall other | IsOrder(peers, other) && Lists(KnownPeers(peers), other)
      ensures !Fits(identity, peers, other)
    {
      SameSize(identity, peers, order, other);
    }
  }

  /** What the trimmed reply decodes to, in a buffer of the receivers' size, is the list that was sent. */
  lemma ReplyArrives(identity: Bytes, listed: View, order: seq<Addr>, buffer: Bytes)
    requires |buffer| == INCOMING_BUFFER_SIZE
    requires Sendable(listed) && |identity| < MAX_LENGTH
    requires IsOrder(listed, order) && Lists(KnownPeers(listed), order) && Fits(identity, listed, order)
    ensures DecodeEnvelope(Fill(buffer, EncodeEnvelope(SwimEnvelope(identity, KnownPeers(listed)), order)))
         == Some(SwimEnvelope(identity, KnownPeers(listed)))
  {
    ReadFromBufferIff(buffer, SwimEnvelope(identity, KnownPeers(listed)), order);
  }
}
