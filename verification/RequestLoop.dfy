/**
 * Two nodes that ask each other for peers: when one request leads to the next, exactly, and that
 * the exchange can go on for ever.
 */
module RequestLoop {
  import opened Basics
  import opened Types
  import opened Node
  import opened Truth
  import opened AntiEntropy
  import Crc
  import Fingerprint
  import Order

  /** Handling the step, the node tries to ask for peers. */
  ghost predicate RequestsPeers(n: Node, s: Step) {
    exists d :: d in Attempts(n, s) && d.Unicast? && d.envelope.msg.KnownPeersRequest?
  }

  /** Two nodes that know each other. */
  ghost predicate Acquainted(a: Node, b: Node) {
    && a.self != b.self
    && a.self in b.known && b.known[a.self].identity == a.identity
    && b.self in a.known && a.known[b.self].identity == b.identity
  }

  // What handling a message of an acquaintance changes, when it has no news.

  /** `n'` is `n` at a later time, with at most the entry of `partner` having changed its state. */
  ghost predicate NothingLearned(n: Node, n': Node, partner: Addr) {
    && n'.self == n.self && n'.identity == n.identity && n'.text == n.text && n.clock <= n'.clock
    && n'.known.Keys == n.known.Keys
    && (forall p :: p in n.known ==> n'.known[p].identity == n.known[p].identity)
    && (forall p :: p in n.known && p != partner ==> n'.known[p] == n.known[p])
  }

  lemma NothingLearnedSameView(n: Node, n': Node, partner: Addr)
    requires NothingLearned(n, n', partner)
    ensures FingerprintOf(n') == FingerprintOf(n) && CountOf(n'.known) == CountOf(n.known)
  {
    hide Fingerprint.Of;
    SameSize(n'.known, n.known);
    var v, w := ViewOf(n'.known), ViewOf(n.known);
    assert v.Keys == w.Keys && forall p :: p in v ==> v[p] == w[p];
    assert v == w;
  }

  lemma SameSize(known: PeerMap, others: PeerMap)
    requires known.Keys == others.Keys
    ensures |known| == |others| && CountOf(known) == CountOf(others)
  {
    assert |known| == |known.Keys| && |others| == |others.Keys|;
  }

  lemma LargerSize(known: PeerMap, more: PeerMap)
    requires known.Keys <= more.Keys && Countable(known) && Countable(more)
    ensures CountOf(known) == |known| <= |more| == CountOf(more)
    ensures known.Keys != more.Keys ==> |known| < |more|
  {
    assert |known| == |known.Keys| && |more| == |more.Keys|;
    SubsetCount(known.Keys, more.Keys);
  }

  lemma HeardAgain(n: Node, from: Node, stamp: Time, measured: Time)
    requires from.self in n.known && n.known[from.self].identity == from.identity && n.clock <= measured
    ensures NothingLearned(n, Heard(n, from.self, from.identity, stamp, measured), from.self)
  {
  }

  ghost predicate BringsNoNews(n: Node, msg: SwimMessage) {
    msg.KnownPeersRequest? || (msg.KnownPeers? && msg.peers.Keys <= n.known.Keys)
  }

  lemma NoNews(n: Node, t: Timed, from: Node, msg: SwimMessage)
    requires Handles(n, t, from, msg) && BringsNoNews(n, msg)
    requires from.self in n.known && n.known[from.self].identity == from.identity
    ensures NothingLearned(n, Do(n, t), from.self)
  {
    var heard := Heard(n, from.self, from.identity, t.step.stamp, t.step.measured);
    HeardAgain(n, from, t.step.stamp, t.step.measured);
    assert AfterMessage(heard, t.step).known == heard.known;
  }

  // What handling a request sends.

  lemma AnswerAndRequest(n: Node, t: Timed, from: Node, msg: SwimMessage)
    requires Handles(n, t, from, msg) && msg.KnownPeersRequest?
    requires from.self in n.known && n.known[from.self].identity == from.identity
    ensures Attempts(n, t.step) ==
              [To(n, from.self, KnownPeers(AnswerOf(n, t)))]
              + (if Asks(n, msg.fingerprint, msg.numPeers)
                 then [To(n, from.self, KnownPeersRequest(FingerprintOf(n), CountOf(n.known)))] else [])
  {
    hide Shareable, FingerprintOf, CountOf;
    var heard := Heard(n, from.self, from.identity, t.step.stamp, t.step.measured);
    HeardAgain(n, from, t.step.stamp, t.step.measured);
    NothingLearnedSameView(n, heard, from.self);
  }

  lemma RequestsBackIff(n: Node, t: Timed, from: Node, msg: SwimMessage)
    requires Handles(n, t, from, msg) && msg.KnownPeersRequest?
    requires from.self in n.known && n.known[from.self].identity == from.identity
    ensures RequestsPeers(n, t.step) <==> Asks(n, msg.fingerprint, msg.numPeers)
  {
    hide Asks, Attempts, Handles, AnswerOf;
    AnswerAndRequest(n, t, from, msg);
    if Asks(n, msg.fingerprint, msg.numPeers) {
      assert Attempts(n, t.step)[1].envelope.msg.KnownPeersRequest?;
    }
  }

  lemma AckAsksIff(n: Node, t: Timed, from: Node, msg: SwimMessage)
    requires Handles(n, t, from, msg) && msg.Ack?
    requires from.self in n.known && n.known[from.self].identity == from.identity
    ensures RequestsPeers(n, t.step) <==> Asks(n, msg.fingerprint, msg.numPeers)
  {
    hide FingerprintOf, CountOf, Forwards;
    var heard := Heard(n, from.self, from.identity, t.step.stamp, t.step.measured);
    HeardAgain(n, from, t.step.stamp, t.step.measured);
    NothingLearnedSameView(n, heard, from.self);
    ForwardsForm(heard, ObserversOf(heard, msg.peer), msg);
    if Asks(n, msg.fingerprint, msg.numPeers) {
      var request := To(heard, msg.peer, KnownPeersRequest(FingerprintOf(heard), CountOf(heard.known)));
      assert request in SyncRequest(heard, msg.peer, msg.fingerprint, msg.numPeers);
      assert request in Attempts(n, t.step);
    }
  }

  ghost predicate IsAckOf(msg: SwimMessage, n: Node) {
    msg == Ack(n.self, FingerprintOf(n), CountOf(n.known))
  }

  /**
   * When two nodes with different fingerprints handle each other's Acks, at least one asks for
   * peers; and if one knows fewer peers, it is that one alone.
   */
  lemma SomebodyAsks(a: Node, b: Node, atA: Timed, atB: Timed, ackOfA: SwimMessage, ackOfB: SwimMessage)
    requires Acquainted(a, b) && FingerprintOf(a) != FingerprintOf(b)
    requires IsAckOf(ackOfA, a) && IsAckOf(ackOfB, b)
    requires Handles(a, atA, b, ackOfB) && Handles(b, atB, a, ackOfA)
    ensures RequestsPeers(a, atA.step) || RequestsPeers(b, atB.step)
    ensures CountOf(a.known) < CountOf(b.known) ==>
              RequestsPeers(a, atA.step) && !RequestsPeers(b, atB.step)
  {
    hide RequestsPeers, FingerprintOf, CountOf, Handles;
    AckAsksIff(a, atA, b, ackOfB);
    AckAsksIff(b, atB, a, ackOfA);
  }

  // When one request leads to the next.

  /** Fewer peers than the 32-bit count on the wire can tell. */
  ghost predicate Countable(known: PeerMap) {
    |known| < 0x1_0000_0000
  }

  lemma NewsRaisesCount(n: Node, t: Timed, from: Node, answer: View)
    requires Handles(n, t, from, KnownPeers(answer)) && from.self in n.known
    requires Countable(n.known) && Countable(Do(n, t).known)
    ensures CountOf(Do(n, t).known) >= CountOf(n.known)
    ensures !(answer.Keys <= n.known.Keys) ==> CountOf(Do(n, t).known) > CountOf(n.known)
  {
    hide After, CountOf;
    ToldKeys(n, t);
    LargerSize(n.known, Do(n, t).known);
  }

  /**
   * `a` has asked `b`, `b` handles that as `asked`, and `a` handles the answer as `told` and a
   * request of `b` as `back`. Between nodes that know each other but differ, both of these steps
   * try to ask for peers again if and only if the two know equally many peers and the answer told
   * `a` of nobody new. So an exchange goes on exactly as long as this holds.
   */
  lemma NextRequestIff(a: Node, b: Node, asked: Timed, told: Timed, back: Timed,
                       request: SwimMessage, reply: SwimMessage)
    requires Acquainted(a, b) && FingerprintOf(a) != FingerprintOf(b)
    requires IsRequestOf(request, a) && Handles(b, asked, a, request)
    requires Handles(a, told, b, KnownPeers(AnswerOf(b, asked)))
    requires IsRequestOf(reply, Do(b, asked)) && Handles(Do(a, told), back, Do(b, asked), reply)
    requires Countable(a.known) && Countable(b.known) && Countable(Do(a, told).known)
    ensures RequestsPeers(b, asked.step) && RequestsPeers(Do(a, told), back.step)
       <==> |a.known| == |b.known| && AnswerOf(b, asked).Keys <= a.known.Keys
  {
    hide After, Enabled, RequestsPeers, FingerprintOf, Shareable;
    LargerSize(a.known, a.known);
    LargerSize(b.known, b.known);
    var a', b' := Do(a, told), Do(b, asked);
    NoNews(b, asked, a, request);
    NothingLearnedSameView(b, b', a.self);
    RequestsBackIff(b, asked, a, request);
    StillAcquainted(a, told, b, AnswerOf(b, asked));
    RequestsBackIff(a', back, b', reply);
    NewsRaisesCount(a, told, b, AnswerOf(b, asked));
    if AnswerOf(b, asked).Keys <= a.known.Keys {
      NoNews(a, told, b, KnownPeers(AnswerOf(b, asked)));
      NothingLearnedSameView(a, a', b.self);
    }
  }

  lemma StillAcquainted(n: Node, t: Timed, from: Node, answer: View)
    requires Handles(n, t, from, KnownPeers(answer)) && from.self in n.known
    ensures from.self in Do(n, t).known && Do(n, t).known[from.self].identity == from.identity
    ensures Do(n, t).self == n.self && Do(n, t).identity == n.identity
  {
  }

  /** Whatever `n` could still pass on, now or later, `other` already holds. */
  ghost predicate PassesOnNothingNew(n: Node, other: Node) {
    forall p :: p in n.known && p != n.self && p != other.self && n.known[p].state.Known?
                && n.known[p].state.since > n.clock - MAX_PEER_SHARE_AGE ==>
      p in other.known
  }

  lemma AnswerHasNoNews(n: Node, t: Timed, from: Node, msg: SwimMessage)
    requires Handles(n, t, from, msg) && PassesOnNothingNew(n, from)
    ensures AnswerOf(n, t).Keys <= from.known.Keys
  {
    hide FingerprintOf;
    forall p | p in AnswerOf(n, t)
      ensures p in from.known
    {
      assert n.clock <= t.step.readings[p];
    }
  }

  // Pairs for which it always holds.

  /** Equally many peers, different fingerprints, and nothing new to tell each other. */
  ghost predicate Stuck(a: Node, b: Node) {
    && Acquainted(a, b)
    && FingerprintOf(a) != FingerprintOf(b) && CountOf(a.known) == CountOf(b.known)
    && PassesOnNothingNew(a, b) && PassesOnNothingNew(b, a)
  }

  lemma StuckIsMutual(a: Node, b: Node)
    requires Stuck(a, b)
    ensures Stuck(b, a)
  {
  }

  /** In a stuck pair, a request is answered, and followed by a request back. */
  lemma RequestBegetsRequest(a: Node, b: Node, t: Timed, msg: SwimMessage)
    requires Stuck(a, b) && IsRequestOf(msg, a) && Handles(b, t, a, msg)
    ensures Attempts(b, t.step) ==
              [To(b, a.self, KnownPeers(AnswerOf(b, t))),
               To(b, a.self, KnownPeersRequest(FingerprintOf(b), CountOf(b.known)))]
    ensures AnswerOf(b, t).Keys <= a.known.Keys
  {
    AnswerAndRequest(b, t, a, msg);
    AnswerHasNoNews(b, t, a, msg);
  }

  /** Neither a request nor an answer without news ends it. */
  lemma NoNewsKeepsStuck(a: Node, b: Node, t: Timed, msg: SwimMessage)
    requires Stuck(a, b) && Handles(b, t, a, msg) && BringsNoNews(b, msg)
    ensures Stuck(a, Do(b, t)) && Do(b, t).known.Keys == b.known.Keys
  {
    hide After, Enabled, FingerprintOf;
    NoNews(b, t, a, msg);
    NothingLearnedSameView(b, Do(b, t), a.self);
  }

  /** A pair talking: the lists each has been sent by the other can arrive at any time, or never. */
  datatype Talk = Talk(first: Node, second: Node, toFirst: set<View>, toSecond: set<View>)

  /** One of the two handles something: a request of the other, or a list that the other has sent. */
  datatype Turn = Turn(bySecond: bool, handled: Timed)

  function Swapped(talk: Talk): Talk {
    Talk(talk.second, talk.first, talk.toSecond, talk.toFirst)
  }

  ghost predicate FirstCan(talk: Talk, t: Timed) {
    exists msg ::
      && Handles(talk.first, t, talk.second, msg)
      && (IsRequestOf(msg, talk.second) || (msg.KnownPeers? && msg.peers in talk.toFirst))
  }

  ghost function FirstDoes(talk: Talk, t: Timed): Talk
    requires t.step.Receive?
  {
    var sent := if t.step.envelope.msg.KnownPeersRequest? then {AnswerOf(talk.first, t)} else {};
    talk.(first := Do(talk.first, t), toSecond := talk.toSecond + sent)
  }

  ghost predicate Can(talk: Talk, turn: Turn) {
    FirstCan(if turn.bySecond then Swapped(talk) else talk, turn.handled)
  }

  ghost function Does(talk: Talk, turn: Turn): Talk
    requires turn.handled.step.Receive?
  {
    if turn.bySecond then Swapped(FirstDoes(Swapped(talk), turn.handled)) else FirstDoes(talk, turn.handled)
  }

  /** The two handle requests and answers in any order; answers can be late, lost or doubled. */
  ghost predicate IsTalk(talk: Talk, turns: seq<Turn>)
    decreases |turns|
  {
    turns != [] ==>
      && Can(talk, turns[0]) && turns[0].handled.step.Receive?
      && IsTalk(Does(talk, turns[0]), turns[1..])
  }

  ghost function Afterwards(talk: Talk, turns: seq<Turn>): Talk
    requires IsTalk(talk, turns)
    decreases |turns|
  {
    if turns == [] then talk else Afterwards(Does(talk, turns[0]), turns[1..])
  }

  ghost predicate TalkIsStuck(talk: Talk) {
    && Stuck(talk.first, talk.second)
    && (forall v :: v in talk.toFirst ==> v.Keys <= talk.first.known.Keys)
    && (forall v :: v in talk.toSecond ==> v.Keys <= talk.second.known.Keys)
  }

  lemma FirstKeepsStuck(talk: Talk, t: Timed)
    requires TalkIsStuck(talk) && FirstCan(talk, t)
    ensures t.step.Receive? && TalkIsStuck(FirstDoes(talk, t))
  {
    hide Stuck, After, FingerprintOf;
    var a, b := talk.first, talk.second;
    var msg :| Handles(a, t, b, msg) && (IsRequestOf(msg, b) || (msg.KnownPeers? && msg.peers in talk.toFirst));
    StuckIsMutual(a, b);
    NoNewsKeepsStuck(b, a, t, msg);
    StuckIsMutual(b, Do(a, t));
    if msg.KnownPeersRequest? {
      RequestBegetsRequest(b, a, t, msg);
    }
  }

  lemma TurnKeepsStuck(talk: Talk, turn: Turn)
    requires TalkIsStuck(talk) && Can(talk, turn)
    ensures turn.handled.step.Receive? && TalkIsStuck(Does(talk, turn))
  {
    hide Stuck, FirstCan, FirstDoes;
    if turn.bySecond {
      StuckIsMutual(talk.first, talk.second);
      FirstKeepsStuck(Swapped(talk), turn.handled);
      var swapped := FirstDoes(Swapped(talk), turn.handled);
      StuckIsMutual(swapped.first, swapped.second);
    } else {
      FirstKeepsStuck(talk, turn.handled);
    }
  }

  /**
   * However many requests and answers a stuck pair has handled, in whatever order: it is stuck, and
   * each would answer the next request of the other with one of its own.
   */
  lemma {:induction false} PingPongNeverEnds(talk: Talk, turns: seq<Turn>)
    requires TalkIsStuck(talk) && IsTalk(talk, turns)
    ensures var (a, b) := (Afterwards(talk, turns).first, Afterwards(talk, turns).second);
            && TalkIsStuck(Afterwards(talk, turns))
            && Asks(a, FingerprintOf(b), CountOf(b.known)) && Asks(b, FingerprintOf(a), CountOf(a.known))
    decreases |turns|
  {
    if turns != [] {
      TurnKeepsStuck(talk, turns[0]);
      PingPongNeverEnds(Does(talk, turns[0]), turns[1..]);
    }
  }

  // Such pairs are nothing special: it is enough that each holds one peer the other has lost.

  lemma ThreePeers(text: Addr -> Bytes, view: View, a: Addr, b: Addr, c: Addr)
    requires Order.AddrLess(a, b) && Order.AddrLess(b, c) && Order.AddrLess(a, c)
    requires view.Keys == {a, b, c}
    ensures Fingerprint.Of(text, view)
         == Crc.Checksum(((text(a) + view[a]) + (text(b) + view[b])) + (text(c) + view[c]))
  {
    hide Fingerprint.Written, Order.AddrLess, Order.SortedKeys, Crc.Checksum;
    assert Elements([a]) == {a} && Elements([b]) == {b} && Elements([c]) == {c};
    assert Elements([a, b]) == {a, b} && Elements([a, b, c]) == {a, b, c};
    Order.AscendingListUnique([a, b, c], Order.SortedKeys(view.Keys));
    assert [a] + [b] == [a, b] && [a, b] + [c] == [a, b, c];
    Fingerprint.WrittenSplit(text, view, [a, b], [c]);
    Fingerprint.WrittenSplit(text, view, [a], [b]);
    Fingerprint.WrittenOne(text, view, a);
    Fingerprint.WrittenOne(text, view, b);
    Fingerprint.WrittenOne(text, view, c);
  }

  lemma LastPartDiffers(front: Bytes, head: Bytes, x: Bytes, y: Bytes, tail: Bytes)
    requires |x| == |y| <= 4 && x != y
    ensures Crc.Checksum(front + (head + x + tail)) != Crc.Checksum(front + (head + y + tail))
  {
    hide Crc.Checksum;
    Crc.BurstDetected(front + head, x, y, tail);
    assert front + (head + x + tail) == (front + head) + x + tail;
    assert front + (head + y + tail) == (front + head) + y + tail;
  }

  lemma InOrder(a: Addr, b: Addr, c: Addr)
    requires Order.AddrLess(a, b) && Order.AddrLess(b, c)
    ensures Order.AddrLess(a, c) && a != b && b != c && a != c
  {
    hide LexLess, Order.AddrKey;
    LexLessTransitive(Order.AddrKey(a), Order.AddrKey(b), Order.AddrKey(c));
    LexLessIrreflexive(Order.AddrKey(a));
    LexLessIrreflexive(Order.AddrKey(b));
  }

  lemma SameCount(known: PeerMap, others: PeerMap, v: View, w: View)
    requires v.Keys == known.Keys && w.Keys == others.Keys && |v| == |w|
    ensures CountOf(known) == CountOf(others)
  {
    assert |v| == |v.Keys| == |known.Keys| == |known| && |w| == |w.Keys| == |others.Keys| == |others|;
  }

  lemma OneLostPeerDiffers(text: Addr -> Bytes, v: View, w: View, a: Addr, b: Addr, c: Addr, d: Addr,
                           host: Bytes, x: Bytes, y: Bytes)
    requires Order.AddrLess(a, b) && Order.AddrLess(b, c) && Order.AddrLess(b, d)
    requires text(c) == host + x && text(d) == host + y && |x| == |y| <= 4 && x != y
    requires v.Keys == {a, b, c} && w.Keys == {a, b, d}
    requires v[a] == w[a] && v[b] == w[b] && v[c] == w[d]
    ensures Fingerprint.Of(text, v) != Fingerprint.Of(text, w) && |v| == |w|
  {
    hide Fingerprint.Of, Order.AddrLess, Crc.Checksum;
    InOrder(a, b, c);
    InOrder(a, b, d);
    ThreePeers(text, v, a, b, c);
    ThreePeers(text, w, a, b, d);
    LastPartDiffers((text(a) + v[a]) + (text(b) + v[b]), host, x, y, v[c]);
    assert |{a, b, c}| == 3 == |{a, b, d}|;
    assert |v| == |v.Keys| && |w| == |w.Keys|;
  }

  lemma LostPeersDiffer(a: Node, b: Node, c: Addr, d: Addr, host: Bytes, x: Bytes, y: Bytes)
    requires Order.AddrLess(a.self, b.self) && Order.AddrLess(b.self, c) && Order.AddrLess(b.self, d)
    requires a.text == b.text && a.text(c) == host + x && a.text(d) == host + y
    requires |x| == |y| <= 4 && x != y
    requires a.known.Keys == {a.self, b.self, c} && b.known.Keys == {a.self, b.self, d}
    requires a.known[a.self].identity == b.known[a.self].identity
    requires b.known[b.self].identity == a.known[b.self].identity
    requires a.known[c].identity == b.known[d].identity
    ensures a.self != b.self && FingerprintOf(a) != FingerprintOf(b) && CountOf(a.known) == CountOf(b.known)
  {
    hide Fingerprint.Of, Order.AddrLess, CountOf;
    InOrder(a.self, b.self, c);
    var v, w := ViewOf(a.known), ViewOf(b.known);
    assert v.Keys == a.known.Keys && w.Keys == b.known.Keys;
    OneLostPeerDiffers(a.text, v, w, a.self, b.self, c, d, host, x, y);
    SameCount(a.known, b.known, v, w);
  }

  /**
   * Two nodes are stuck as soon as each holds one peer too old to be passed on, with addresses
   * that differ in their last characters only, such as two instances on one host.
   */
  lemma LostPeersMakeStuck(a: Node, b: Node, c: Addr, d: Addr, host: Bytes, x: Bytes, y: Bytes)
    requires Order.AddrLess(a.self, b.self) && Order.AddrLess(b.self, c) && Order.AddrLess(b.self, d)
    requires a.text == b.text && a.text(c) == host + x && a.text(d) == host + y
    requires |x| == |y| <= 4 && x != y
    requires a.known.Keys == {a.self, b.self, c} && b.known.Keys == {a.self, b.self, d}
    requires a.known[a.self].identity == a.identity == b.known[a.self].identity
    requires b.known[b.self].identity == b.identity == a.known[b.self].identity
    requires a.known[c].identity == b.known[d].identity
    requires a.known[c].state.since <= a.clock - MAX_PEER_SHARE_AGE
    requires b.known[d].state.since <= b.clock - MAX_PEER_SHARE_AGE
    ensures Stuck(a, b)
  {
    LostPeersDiffer(a, b, c, d, host, x, y);
    hide FingerprintOf, CountOf, Order.AddrLess;
  }
}
