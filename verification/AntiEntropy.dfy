/**
 * Anti-entropy: two nodes whose fingerprints differ bring their views together by asking each
 * other for peers, as long as what they hold is fresh enough to be passed on.
 */
module AntiEntropy {
  import opened Basics
  import opened Types
  import opened Node
  import opened Truth

  /** `n` handles `msg` from `from` to the end. */
  ghost predicate Handles(n: Node, t: Timed, from: Node, msg: SwimMessage) {
    && t.step.Receive? && t.step.sender == from.self
    && t.step.envelope == Envelope(from, msg)
    && Enabled(n, t.begin, t.end, t.step)
    && (msg.KnownPeers? ==> t.step.merged.Some?)
  }

  ghost predicate IsRequestOf(msg: SwimMessage, asker: Node) {
    msg == KnownPeersRequest(FingerprintOf(asker), CountOf(asker.known))
  }

  /** What `n` answers to the request it handles in step `t`. */
  ghost function AnswerOf(n: Node, t: Timed): View
    requires t.step.Receive?
  {
    Shareable(Heard(n, t.step.sender, t.step.envelope.identity, t.step.stamp, t.step.measured),
              t.step.sender, t.step.readings)
  }

  /** A list of peers changes no entry but the sender's, drops none, and adds only those listed. */
  lemma ListOnlyAdds(n: Node, begin: Time, end: Time, s: Step)
    requires Enabled(n, begin, end, s) && s.Receive? && s.envelope.msg.KnownPeers?
    ensures forall p :: p in n.known ==> p in After(n, end, s).known
    ensures forall p :: p in n.known && p != s.sender ==> After(n, end, s).known[p] == n.known[p]
    ensures forall p :: p in After(n, end, s).known && p !in n.known ==>
              p == s.sender || (p in s.envelope.msg.peers && s.merged.Some?)
    ensures s.merged.Some? ==>
              forall p :: p in s.envelope.msg.peers ==> p in After(n, end, s).known
  {
  }

  /** Every entry but our own is Known, and at its reading younger than ten seconds. */
  ghost predicate AllFresh(n: Node, t: Timed, except: set<Addr>)
    requires t.step.Receive?
  {
    forall p :: p in n.known && p !in except ==>
      && n.known[p].state.Known? && p in t.step.readings
      && Elapsed(t.step.readings[p], n.known[p].state.since) < 10000
  }

  /** The answer to a request names every fresh peer but the two talking to each other. */
  lemma AnswerCovers(n: Node, t: Timed, except: set<Addr>)
    requires t.step.Receive? && t.step.envelope.msg.KnownPeersRequest?
    requires AllFresh(n, t, except + {n.self, t.step.sender})
    ensures n.known.Keys - except - {n.self, t.step.sender} <= AnswerOf(n, t).Keys
    ensures AnswerOf(n, t).Keys <= n.known.Keys - {n.self, t.step.sender}
  {
  }

  lemma AnswerIsTruthful(truth: View, n: Node, t: Timed)
    requires t.step.Receive? && Knows(truth, n.known)
    requires t.step.sender in truth && t.step.envelope.identity == truth[t.step.sender]
    ensures Truthful(truth, AnswerOf(n, t))
  {
  }

  lemma AskedKeys(n: Node, t: Timed)
    requires t.step.Receive? && t.step.envelope.msg.KnownPeersRequest?
    ensures Do(n, t).known.Keys == n.known.Keys + {t.step.sender}
    ensures forall p :: p in n.known && p != t.step.sender ==> Do(n, t).known[p] == n.known[p]
  {
  }

  lemma ToldKeys(n: Node, t: Timed)
    requires t.step.Receive? && t.step.envelope.msg.KnownPeers? && t.step.merged.Some?
    ensures Do(n, t).known.Keys == n.known.Keys + {t.step.sender} + t.step.envelope.msg.peers.Keys
    ensures forall p :: p in n.known && p != t.step.sender ==> Do(n, t).known[p] == n.known[p]
  {
  }

  /** `asker` asks, `teller` handles that as `asked`, and `asker` handles the answer as `told`. */
  ghost predicate IsDirection(asker: Node, teller: Node, asked: Timed, told: Timed) {
    && (exists msg :: IsRequestOf(msg, asker) && Handles(teller, asked, asker, msg))
    && Handles(asker, told, teller, KnownPeers(AnswerOf(teller, asked)))
  }

  ghost predicate Member(truth: View, n: Node) {
    Owns(truth, n) && Knows(truth, n.known) && n.self in n.known
  }

  lemma MemberStays(truth: View, n: Node, t: Timed, from: Node, msg: SwimMessage)
    requires Member(truth, n) && Owns(truth, from) && Handles(n, t, from, msg)
    requires msg.KnownPeers? ==> Truthful(truth, msg.peers)
    ensures Member(truth, Do(n, t)) && Do(n, t).self == n.self && Do(n, t).identity == n.identity
    ensures n.known.Keys <= Do(n, t).known.Keys
  {
    ReceiveKeepsTruth(truth, n, t.step);
    StepKeepsConstants(n, t.begin, t.end, t.step);
  }

  /** What one direction of the exchange does to the two nodes. */
  ghost predicate Passed(truth: View, asker: Node, teller: Node, asker': Node, teller': Node, except: set<Addr>) {
    && Member(truth, asker') && Member(truth, teller')
    && asker'.self == asker.self && teller'.self == teller.self
    && teller'.known.Keys == teller.known.Keys + {asker.self}
    && teller.known.Keys - except <= asker'.known.Keys
    && asker.known.Keys <= asker'.known.Keys <= teller.known.Keys + asker.known.Keys
    && (forall p :: p in asker.known && p != teller.self ==> asker'.known[p] == asker.known[p])
  }

  lemma TellerHalf(truth: View, asker: Node, teller: Node, msg: SwimMessage, asked: Timed, except: set<Addr>)
    requires Member(truth, asker) && Member(truth, teller)
    requires msg.KnownPeersRequest? && Handles(teller, asked, asker, msg)
    requires AllFresh(teller, asked, except + {teller.self, asker.self})
    ensures Member(truth, Do(teller, asked)) && Do(teller, asked).self == teller.self
    ensures Do(teller, asked).known.Keys == teller.known.Keys + {asker.self}
    ensures teller.known.Keys - except - {teller.self, asker.self} <= AnswerOf(teller, asked).Keys
    ensures AnswerOf(teller, asked).Keys <= teller.known.Keys
    ensures Truthful(truth, AnswerOf(teller, asked))
  {
    AskedKeys(teller, asked);
    AnswerCovers(teller, asked, except);
    AnswerIsTruthful(truth, teller, asked);
    MemberStays(truth, teller, asked, asker, msg);
  }

  lemma AskerHalf(truth: View, asker: Node, teller: Node, told: Timed, answer: View)
    requires Member(truth, asker) && Member(truth, teller) && Truthful(truth, answer)
    requires Handles(asker, told, teller, KnownPeers(answer))
    ensures Member(truth, Do(asker, told)) && Do(asker, told).self == asker.self
    ensures Do(asker, told).known.Keys == asker.known.Keys + {teller.self} + answer.Keys
    ensures forall p :: p in asker.known && p != teller.self ==> Do(asker, told).known[p] == asker.known[p]
  {
    ToldKeys(asker, told);
    MemberStays(truth, asker, told, teller, KnownPeers(answer));
  }

  lemma OneDirection(truth: View, asker: Node, teller: Node, asked: Timed, told: Timed, except: set<Addr>)
    requires Member(truth, asker) && Member(truth, teller)
    requires IsDirection(asker, teller, asked, told)
    requires AllFresh(teller, asked, except + {teller.self, asker.self})
    ensures Passed(truth, asker, teller, Do(asker, told), Do(teller, asked), except)
  {
    var msg :| IsRequestOf(msg, asker) && Handles(teller, asked, asker, msg);
    TellerHalf(truth, asker, teller, msg, asked, except);
    AskerHalf(truth, asker, teller, told, AnswerOf(teller, asked));
  }

  lemma StillFresh(truth: View, a: Node, b: Node, a1: Node, b1: Node, t: Timed)
    requires Passed(truth, a, b, a1, b1, {}) && t.step.Receive?
    requires AllFresh(a, t, {a.self, b.self})
    ensures AllFresh(a1, t, b.known.Keys + {a1.self, b1.self})
  {
  }

  lemma BothHaveAll(truth: View, a: Node, b: Node, a1: Node, b1: Node, a2: Node, b2: Node)
    requires Member(truth, a) && Member(truth, b)
    requires Passed(truth, a, b, a1, b1, {}) && Passed(truth, b1, a1, b2, a2, b.known.Keys)
    ensures ViewOf(a2.known) == ViewOf(b2.known) == ViewOf(a.known) + ViewOf(b.known)
  {
    assert a2.known.Keys == a.known.Keys + b.known.Keys;
    assert b2.known.Keys == a.known.Keys + b.known.Keys;
    SameKeysSameView(truth, a2.known, b2.known);
    UnionOfViews(truth, a.known, b.known, a2.known);
  }

  /**
   * One request and answer in each direction leaves both nodes with the union of their views,
   * when what each held is fresh at its answer and identities are true.
   */
  lemma ExchangeComputesUnion(truth: View, a: Node, b: Node,
                              atB: Timed, atA: Timed, backAtA: Timed, backAtB: Timed)
    requires Member(truth, a) && Member(truth, b)
    requires IsDirection(a, b, atB, atA)
    requires IsDirection(Do(b, atB), Do(a, atA), backAtA, backAtB)
    requires AllFresh(b, atB, {a.self, b.self})
    requires AllFresh(a, backAtA, {a.self, b.self})
    ensures ViewOf(Do(Do(a, atA), backAtA).known) == ViewOf(a.known) + ViewOf(b.known)
    ensures ViewOf(Do(Do(b, atB), backAtB).known) == ViewOf(a.known) + ViewOf(b.known)
  {
    var a1, b1 := Do(a, atA), Do(b, atB);
    assert {} + {b.self, a.self} == {a.self, b.self};
    OneDirection(truth, a, b, atB, atA, {});
    StillFresh(truth, a, b, a1, b1, backAtA);
    OneDirection(truth, b1, a1, backAtA, backAtB, b.known.Keys);
    BothHaveAll(truth, a, b, a1, b1, Do(a1, backAtA), Do(b1, backAtB));
  }

  /** A message can always be handled at one instant. */
  lemma HandlingIsPossible(n: Node, from: Node, msg: SwimMessage, at: Time) returns (t: Timed)
    requires n.clock <= at
    ensures Handles(n, t, from, msg) && t.begin == at == t.end
    ensures forall p :: p in n.known ==> p in t.step.readings && t.step.readings[p] == at
  {
    var readings := map p | p in n.known.Keys + {from.self} :: at;
    t := Timed(at, at, Receive(from.self, Envelope(from, msg), at, at, Some(at), readings));
  }

  lemma DirectionIsPossible(asker: Node, teller: Node, at: Time) returns (asked: Timed, told: Timed)
    requires asker.clock <= at && teller.clock <= at
    ensures IsDirection(asker, teller, asked, told)
    ensures Do(asker, told).clock == at == Do(teller, asked).clock
    ensures forall p :: p in teller.known ==> p in asked.step.readings && asked.step.readings[p] == at
  {
    var msg := KnownPeersRequest(FingerprintOf(asker), CountOf(asker.known));
    asked := HandlingIsPossible(teller, asker, msg, at);
    assert IsRequestOf(msg, asker);
    told := HandlingIsPossible(asker, teller, KnownPeers(AnswerOf(teller, asked)), at);
  }

  ghost predicate FreshAt(n: Node, other: Addr, at: Time) {
    forall p :: p in n.known && p != n.self && p != other ==>
      n.known[p].state.Known? && Elapsed(at, n.known[p].state.since) < 10000
  }

  /** Any two members that hold only fresh peers can go through such an exchange. */
  lemma ExchangeIsPossible(a: Node, b: Node, at: Time)
    returns (atB: Timed, atA: Timed, backAtA: Timed, backAtB: Timed)
    requires a.clock <= at && b.clock <= at && FreshAt(a, b.self, at) && FreshAt(b, a.self, at)
    ensures IsDirection(a, b, atB, atA)
    ensures IsDirection(Do(b, atB), Do(a, atA), backAtA, backAtB)
    ensures AllFresh(b, atB, {a.self, b.self}) && AllFresh(a, backAtA, {a.self, b.self})
  {
    hide Do, IsDirection;
    atB, atA := DirectionIsPossible(a, b, at);
    backAtA, backAtB := DirectionIsPossible(Do(b, atB), Do(a, atA), at);
    KeepsKnown(a, b, atB, atA);
  }

  lemma KeepsKnown(asker: Node, teller: Node, asked: Timed, told: Timed)
    requires IsDirection(asker, teller, asked, told)
    ensures asker.known.Keys <= Do(asker, told).known.Keys
  {
    ToldKeys(asker, told);
  }

  lemma UnionOfViews(truth: View, known: PeerMap, others: PeerMap, all: PeerMap)
    requires Knows(truth, known) && Knows(truth, others) && Knows(truth, all)
    requires all.Keys == known.Keys + others.Keys
    ensures ViewOf(all) == ViewOf(known) + ViewOf(others)
  {
    var v, w := ViewOf(all), ViewOf(known) + ViewOf(others);
    assert v.Keys == w.Keys;
    assert forall p :: p in v ==> v[p] == w[p];
  }
}
