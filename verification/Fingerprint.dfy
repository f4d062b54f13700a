/**
 * The mesh fingerprint (`generate_fingerprint`). How an address is written out is a parameter:
 * `text` is what `SocketAddr::to_string` gives, and every result holds for every such function.
 */
module Fingerprint {
  import opened Basics
  import opened Types
  import Crc
  import opened Order

  /** What is hashed: each address of the list as text, followed by its identity. */
  ghost function Written(text: Addr -> Bytes, view: View, order: seq<Addr>): Bytes
    requires Elements(order) <= view.Keys
  {
    if order == [] then []
    else
      var last := |order| - 1;
      assert order[last] in Elements(order);
      Written(text, view, order[..last]) + (text(order[last]) + view[order[last]])
  }

  /** The checksum of the view, written in ascending order of address. */
  ghost function Of(text: Addr -> Bytes, view: View): U32 {
    Crc.Checksum(Written(text, view, SortedKeys(view.Keys)))
  }

  method CollectKeys(known: PeerMap) returns (peers: seq<Addr>)
    ensures NoDuplicates(peers) && Elements(peers) == known.Keys
  {
    peers := [];
    var left := known.Keys;
    while left != {}
      invariant NoDuplicates(peers) && left !! Elements(peers)
      invariant Elements(peers) + left == known.Keys
      decreases |left|
    {
      var peer :| peer in left;
      ElementsAppend(peers, peer);
      left := left - {peer};
      peers := peers + [peer];
    }
  }

  method SortedPeers(known: PeerMap) returns (peers: seq<Addr>)
    ensures peers == SortedKeys(ViewOf(known).Keys)
  {
    var collected := CollectKeys(known);
    peers := SortByKey(AddrKey, collected);
    PermutationFacts(collected, peers);
    AscendingIsStrict(peers);
    AscendingListUnique(peers, SortedKeys(ViewOf(known).Keys));
  }

  /** The result is a function of the view alone: not of states, latencies or iteration order. */
  method GenerateFingerprint(text: Addr -> Bytes, known: PeerMap) returns (fingerprint: U32)
    ensures fingerprint == Of(text, ViewOf(known))
  {
    var peers := SortedPeers(known);
    ghost var view := ViewOf(known);
    var hasher := Crc.ONES;
    for i := 0 to |peers|
      invariant Hashed(hasher, text, view, peers, i)
    {
      assert peers[i] in Elements(peers);
      HashStep(hasher, text, view, peers, i);
      hasher := Crc.Update(hasher, text(peers[i]));
      hasher := Crc.Update(hasher, known[peers[i]].identity);
    }
    assert peers[..|peers|] == peers;
    fingerprint := Crc.Finalize(hasher);
  }

  ghost predicate Hashed(hasher: Crc.Register, text: Addr -> Bytes, view: View, peers: seq<Addr>, i: nat)
    requires Elements(peers) <= view.Keys && i <= |peers|
  {
    PrefixElements(peers, i);
    hasher == Crc.Update(Crc.ONES, Written(text, view, peers[..i]))
  }

  lemma PrefixElements(peers: seq<Addr>, i: nat)
    requires i <= |peers|
    ensures Elements(peers[..i]) <= Elements(peers)
  {
  }

  lemma HashStep(hasher: Crc.Register, text: Addr -> Bytes, view: View, peers: seq<Addr>, i: nat)
    requires Elements(peers) <= view.Keys && i < |peers| && peers[i] in view
    requires Hashed(hasher, text, view, peers, i)
    ensures Hashed(Crc.Update(Crc.Update(hasher, text(peers[i])), view[peers[i]]),
                   text, view, peers, i + 1)
  {
    PrefixElements(peers, i);
    PrefixElements(peers, i + 1);
    assert peers[..i + 1][..i] == peers[..i];
    Crc.UpdateInPieces(Crc.ONES, Written(text, view, peers[..i]), text(peers[i]) + view[peers[i]]);
    Crc.UpdateInPieces(hasher, text(peers[i]), view[peers[i]]);
  }

  lemma {:induction false} WrittenSame(text: Addr -> Bytes, v: View, w: View, order: seq<Addr>)
    requires Elements(order) <= v.Keys && Elements(order) <= w.Keys
    requires forall p :: p in order ==> v[p] == w[p]
    ensures Written(text, v, order) == Written(text, w, order)
  {
    if order != [] {
      WrittenSame(text, v, w, order[..|order| - 1]);
    }
  }

  lemma {:induction false} WrittenSplit(text: Addr -> Bytes, v: View, a: seq<Addr>, b: seq<Addr>)
    requires Elements(a + b) <= v.Keys
    ensures Elements(a) <= v.Keys && Elements(b) <= v.Keys
    ensures Written(text, v, a + b) == Written(text, v, a) + Written(text, v, b)
  {
    assert forall p :: p in a ==> p in Elements(a + b);
    assert forall p :: p in b ==> p in Elements(a + b);
    if b == [] {
      assert a + b == a;
    } else {
      assert (a + b)[..|a + b| - 1] == a + b[..|b| - 1];
      WrittenSplit(text, v, a, b[..|b| - 1]);
    }
  }

  lemma WrittenOne(text: Addr -> Bytes, view: View, p: Addr)
    requires p in view
    ensures Written(text, view, [p]) == text(p) + view[p]
  {
    assert [p][..0] == [];
    assert Written(text, view, [p]) == [] + (text(p) + view[p]);
  }

  lemma WrittenAt(text: Addr -> Bytes, view: View, keys: seq<Addr>, i: nat)
    requires Elements(keys) <= view.Keys && i < |keys| && keys[i] in view
    requires Elements(keys[..i]) <= view.Keys && Elements(keys[i + 1..]) <= view.Keys
    ensures Written(text, view, keys)
         == ((Written(text, view, keys[..i]) + text(keys[i])) + view[keys[i]])
          + Written(text, view, keys[i + 1..])
  {
    var before, p, after := keys[..i], keys[i], keys[i + 1..];
    assert keys == (before + [p]) + after;
    ElementsAppend(before, p);
    WrittenSplit(text, view, before + [p], after);
    WrittenSplit(text, view, before, [p]);
    WrittenOne(text, view, p);
    Regroup(Written(text, view, before), text(p), view[p]);
  }

  /** Changing one identity changes one stretch of what is written. */
  lemma WrittenAround(text: Addr -> Bytes, view: View, p: Addr, identity: Bytes)
    returns (front: Bytes, back: Bytes)
    requires p in view
    ensures Written(text, view, SortedKeys(view.Keys)) == (front + view[p]) + back
    ensures Written(text, view[p := identity], SortedKeys(view.Keys)) == (front + identity) + back
  {
    var changed := view[p := identity];
    var keys := SortedKeys(view.Keys);
    assert p in Elements(keys);
    var i :| 0 <= i < |keys| && keys[i] == p;
    StrictlyOnce(keys, i);
    PrefixElements(keys, i);
    WrittenAt(text, view, keys, i);
    WrittenAt(text, changed, keys, i);
    WrittenSame(text, view, changed, keys[..i]);
    WrittenSame(text, view, changed, keys[i + 1..]);
    front, back := Written(text, view, keys[..i]) + text(p), Written(text, view, keys[i + 1..]);
  }

  lemma Regroup(a: Bytes, b: Bytes, c: Bytes)
    ensures a + (b + c) == (a + b) + c
  {
  }

  lemma RegroupFive(front: Bytes, head: Bytes, a: Bytes, tail: Bytes, back: Bytes)
    ensures (front + (head + a + tail)) + back == (front + head) + a + (tail + back)
  {
  }

  /**
   * Replacing up to four consecutive bytes of one peer's identity by as many others always
   * changes the fingerprint.
   */
  lemma IdentityChangeDetected(text: Addr -> Bytes, view: View, p: Addr,
                               head: Bytes, a: Bytes, b: Bytes, tail: Bytes)
    requires p in view && view[p] == head + a + tail
    requires |a| == |b| <= 4 && a != b
    ensures Of(text, view) != Of(text, view[p := head + b + tail])
  {
    var changed := view[p := head + b + tail];
    assert changed.Keys == view.Keys;
    var front, back := WrittenAround(text, view, p, head + b + tail);
    RegroupFive(front, head, a, tail, back);
    RegroupFive(front, head, b, tail, back);
    Crc.BurstDetected(front + head, a, b, tail + back);
  }

  lemma StrictlyOnce(keys: seq<Addr>, i: nat)
    requires StrictlyAscending(keys) && i < |keys|
    ensures keys[i] !in keys[..i] && keys[i] !in keys[i + 1..]
  {
    forall j | 0 <= j < |keys| && j != i
      ensures keys[j] != keys[i]
    {
      LexLessIrreflexive(AddrKey(keys[i]));
    }
  }

  lemma OnlyPeer(text: Addr -> Bytes, view: View, a: Addr, identity: Bytes)
    requires view == map[a := identity]
    ensures Written(text, view, SortedKeys(view.Keys)) == text(a) + identity
  {
    assert view.Keys == {a};
    AscendingListUnique([a], SortedKeys(view.Keys));
    WrittenOne(text, view, a);
  }

  lemma TwoPeers(text: Addr -> Bytes, view: View, a: Addr, b: Addr, x: Bytes, y: Bytes)
    requires AddrLess(a, b) && a != b && view == map[a := x, b := y]
    ensures Written(text, view, SortedKeys(view.Keys)) == (text(a) + x) + (text(b) + y)
  {
    hide Written, AddrKey, LexLess, SortedKeys;
    assert view.Keys == {a, b} && Elements([a]) == {a} && Elements([b]) == {b} && Elements([a, b]) == {a, b};
    AscendingListUnique([a, b], SortedKeys(view.Keys));
    assert [a] + [b] == [a, b];
    WrittenSplit(text, view, [a], [b]);
    WrittenOne(text, view, a);
    WrittenOne(text, view, b);
  }

  /**
   * Different views can share a fingerprint whatever the checksum: nothing separates the fields,
   * so an identity can spell out another peer.
   */
  lemma FieldsNotSeparated(text: Addr -> Bytes, a: Addr, b: Addr, x: Bytes, y: Bytes)
    requires AddrLess(a, b)
    ensures a != b
    ensures Of(text, map[a := x + text(b) + y]) == Of(text, map[a := x, b := y])
  {
    LexLessIrreflexive(AddrKey(a));
    hide Written, SortedKeys, AddrKey, LexLess;
    OnlyPeer(text, map[a := x + text(b) + y], a, x + text(b) + y);
    TwoPeers(text, map[a := x, b := y], a, b, x, y);
    RegroupFour(text(a), x, text(b), y);
  }

  lemma RegroupFour(a: Bytes, x: Bytes, b: Bytes, y: Bytes)
    ensures a + (x + b + y) == (a + x) + (b + y)
  {
  }
}
