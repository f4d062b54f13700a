/**
 * Progress toward being pinged: the peers that stand before a silent peer in the order of age get
 * fewer with every ping, until it is itself among the candidates, where it stays.
 */
module Window {
  import opened Basics
  import opened Types
  import opened Node
  import opened Mesh
  import opened History
  import opened Ticks

  /** The candidates other than `p` that are at least as old as `p`: a listing can put them before it. */
  ghost function Ahead(n: Node, p: Addr): set<Addr>
    requires p in n.known
  {
    set q | q in NonSuspected(n) && q != p && n.known[q].state.since <= n.known[p].state.since
  }

  /** `p` is a candidate, last heard at `since`. */
  ghost predicate Holds(n: Node, p: Addr, since: Time) {
    p in NonSuspected(n) && n.known[p].state == Known(since)
  }

  /** Only a list of peers can bring in entries that are older than what we know. */
  ghost predicate BringsOldEntries(s: Step) {
    s.Receive? && s.envelope.msg.KnownPeers? && s.merged.Some?
  }

  /** No timestamp lies in the future. */
  ghost predicate Timely(n: Node) {
    forall p :: p in n.known ==> n.known[p].state.since <= n.clock
  }

  lemma StepKeepsTimely(n: Node, begin: Time, end: Time, s: Step)
    requires Timely(n) && Enabled(n, begin, end, s)
    ensures Timely(After(n, end, s))
  {
    match s {
      case Sweep(plan) =>
        forall p | p in Swept(n, plan)
          ensures Swept(n, plan)[p].state.since <= end
        {
          assert p in n.known;
        }
      case Receive(_, _, _, _, _, _) =>
        hide ValidPlan, Swept, EvictedPeers, WithObserver, NonSuspected, AmongOldest;
      case _ =>
        hide ValidPlan, Swept, EvictedPeers, WithObserver, NonSuspected, Merged, Heard;
    }
  }

  // What one step does to the order.

  /** No step but taking in a list of peers makes anybody strictly older than a peer already held. */
  lemma NobodyBecomesOlder(n: Node, begin: Time, end: Time, s: Step, p: Addr, since: Time)
    requires Timely(n) && Enabled(n, begin, end, s) && !BringsOldEntries(s)
    requires Holds(n, p, since) && Holds(After(n, end, s), p, since)
    ensures StrictlyOlder(After(n, end, s), p) <= StrictlyOlder(n, p)
  {
    match s {
      case Sweep(plan) => assert AfterSweep(n, plan).known == Swept(n, plan);
      case Receive(_, _, _, _, _, _) =>
      case ReceiveBroadcast(_, _, _, _, _, _) =>
      case _ =>
    }
  }

  /** Whom the step hears, if anybody. */
  ghost function HeardPeer(n: Node, s: Step): Option<Addr> {
    if s.Receive? then Some(s.sender)
    else if s.ReceiveBroadcast? && s.handled && s.broadcast.Join? && s.broadcast.addr != n.self
    then Some(s.broadcast.addr)
    else None
  }

  /** A peer that did not stand ahead of `p` is heard at the very reading at which `p` was. */
  ghost predicate DrawsLevel(n: Node, s: Step, p: Addr, since: Time)
    requires p in n.known
  {
    && HeardPeer(n, s).Some?
    && (var q := HeardPeer(n, s).value;
        q != p && q != n.self && q !in Ahead(n, p))
    && (if s.Receive? then s.stamp == since else s.ReceiveBroadcast? && s.stamp == since)
  }

  /** Such a tie is the only way, but for a list of peers, in which somebody gets ahead of `p`. */
  lemma NobodyGetsAheadIff(n: Node, begin: Time, end: Time, s: Step, p: Addr, since: Time)
    requires Timely(n) && Enabled(n, begin, end, s) && !BringsOldEntries(s)
    requires Holds(n, p, since) && Holds(After(n, end, s), p, since)
    ensures Ahead(After(n, end, s), p) <= Ahead(n, p) <==> !DrawsLevel(n, s, p, since)
  {
    match s {
      case Sweep(plan) => assert AfterSweep(n, plan).known == Swept(n, plan);
      case Receive(_, _, _, _, _, _) =>
        if DrawsLevel(n, s, p, since) {
          assert s.sender in Ahead(After(n, end, s), p);
        }
      case ReceiveBroadcast(_, _, _, _, _, _) =>
        if DrawsLevel(n, s, p, since) {
          assert s.broadcast.addr in Ahead(After(n, end, s), p);
        }
      case _ =>
    }
  }

  lemma PingBringsNobody(n: Node, begin: Time, end: Time, s: Step, p: Addr, since: Time)
    requires Enabled(n, begin, end, s) && s.PingOne?
    requires Holds(n, p, since) && Holds(After(n, end, s), p, since)
    ensures s.target != p && s.target !in NonSuspected(After(n, end, s))
    ensures Ahead(After(n, end, s), p) <= Ahead(n, p)
    ensures StrictlyOlder(After(n, end, s), p) <= StrictlyOlder(n, p)
  {
  }

  /** A ping takes away a strictly older peer while there are five, and so for those merely ahead. */
  lemma PingTakesFromAhead(n: Node, begin: Time, end: Time, s: Step, p: Addr, since: Time)
    requires Enabled(n, begin, end, s) && s.PingOne?
    requires Holds(n, p, since) && Holds(After(n, end, s), p, since)
    ensures |StrictlyOlder(n, p)| >= NUM_CANDIDATE_TARGET_PEERS ==>
              |StrictlyOlder(After(n, end, s), p)| < |StrictlyOlder(n, p)|
    ensures |Ahead(n, p)| >= NUM_CANDIDATE_TARGET_PEERS ==> |Ahead(After(n, end, s), p)| < |Ahead(n, p)|
  {
    var t := s.target;
    PingBringsNobody(n, begin, end, s, p, since);
    if |StrictlyOlder(n, p)| >= NUM_CANDIDATE_TARGET_PEERS {
      if n.known[t].state.since >= since {
        SubsetCount(StrictlyOlder(n, p), StrictlyOlder(n, t));
      }
      assert t in StrictlyOlder(n, p) && t !in StrictlyOlder(After(n, end, s), p);
    }
    if |Ahead(n, p)| >= NUM_CANDIDATE_TARGET_PEERS {
      if n.known[t].state.since > since {
        SubsetCount(Ahead(n, p), StrictlyOlder(n, t));
      }
      assert t in Ahead(n, p) && t !in Ahead(After(n, end, s), p);
    }
    SubsetCount(StrictlyOlder(After(n, end, s), p), StrictlyOlder(n, p));
    SubsetCount(Ahead(After(n, end, s), p), Ahead(n, p));
  }

  lemma OlderCount(n: Node, p: Addr)
    requires p in NonSuspected(n) && n.self in n.known
    ensures |StrictlyOlder(n, p)| <= |Ahead(n, p)| <= |n.known| - 2
  {
    var rest := n.known.Keys - {p, n.self};
    SubsetCount(StrictlyOlder(n, p), Ahead(n, p));
    SubsetCount(Ahead(n, p), rest);
    assert n.known.Keys == rest + {p, n.self};
    assert |n.known.Keys| == |rest| + |{p, n.self}|;
  }

  // Over runs.

  /** From state `i` to state `k`, `p` is held as Known since `since`, and no list of peers is taken in. */
  ghost predicate Undisturbed(ms: seq<Mesh>, ls: seq<Label>, i: nat, k: nat, a: Addr, p: Addr, since: Time)
    requires |ms| == |ls| + 1
  {
    && i <= k < |ms|
    && (forall j :: i <= j <= k ==> a in ms[j].nodes && Holds(ms[j].nodes[a], p, since))
    && (forall j :: i <= j < k && ls[j].Act? && ls[j].node == a ==> !BringsOldEntries(ls[j].step))
  }

  ghost predicate NobodyDrawsLevel(ms: seq<Mesh>, ls: seq<Label>, i: nat, k: nat, a: Addr, p: Addr, since: Time)
    requires |ms| == |ls| + 1 && Undisturbed(ms, ls, i, k, a, p, since)
  {
    forall j :: i <= j < k && ls[j].Act? && ls[j].node == a ==>
      !DrawsLevel(ms[j].nodes[a], ls[j].step, p, since)
  }

  ghost predicate PingsSomeone(l: Label, a: Addr) {
    l.Act? && l.node == a && l.step.PingOne?
  }

  /** How many of the steps from `i` up to `k` are pings by `a`. */
  ghost function PingsBy(ls: seq<Label>, a: Addr, i: nat, k: nat): nat
    requires i <= k <= |ls|
  {
    if i == k then 0 else PingsBy(ls, a, i, k - 1) + (if PingsSomeone(ls[k - 1], a) then 1 else 0)
  }

  lemma NodeIsSound(ms: seq<Mesh>, ls: seq<Label>, k: nat, a: Addr)
    requires IsFullRun(ms, ls) && k < |ms| && a in ms[k].nodes
    ensures Sound(ms[k].nodes[a]) && Timely(ms[k].nodes[a])
  {
    RunIsSafe(ms, ls, k);
    assert NodeOk(Owners(ms[k]), ms[k].nodes[a], a);
  }

  /** Node `a` makes the step, or is left as it is. */
  lemma OneNode(ms: seq<Mesh>, ls: seq<Label>, k: nat, a: Addr)
    requires IsRun(ms, ls) && k < |ls| && a in ms[k].nodes && a in ms[k + 1].nodes
    ensures if ls[k].Act? && ls[k].node == a
            then Enabled(ms[k].nodes[a], ls[k].begin, ls[k].end, ls[k].step)
                 && ms[k + 1].nodes[a] == After(ms[k].nodes[a], ls[k].end, ls[k].step)
            else ms[k + 1].nodes[a] == ms[k].nodes[a]
  {
    assert Linked(ms, ls, k);
  }

  lemma OlderStep(ms: seq<Mesh>, ls: seq<Label>, k: nat, a: Addr, p: Addr, since: Time)
    requires IsFullRun(ms, ls) && k < |ls| && Undisturbed(ms, ls, k, k + 1, a, p, since)
    ensures var n, n' := ms[k].nodes[a], ms[k + 1].nodes[a];
            && |StrictlyOlder(n', p)| <= |StrictlyOlder(n, p)|
            && (PingsSomeone(ls[k], a) && |StrictlyOlder(n, p)| >= NUM_CANDIDATE_TARGET_PEERS ==>
                  |StrictlyOlder(n', p)| < |StrictlyOlder(n, p)|)
  {
    hide After, Enabled, StrictlyOlder, Linked, Init;
    var n, l := ms[k].nodes[a], ls[k];
    OneNode(ms, ls, k, a);
    NodeIsSound(ms, ls, k, a);
    if l.Act? && l.node == a {
      NobodyBecomesOlder(n, l.begin, l.end, l.step, p, since);
      SubsetCount(StrictlyOlder(ms[k + 1].nodes[a], p), StrictlyOlder(n, p));
      if l.step.PingOne? {
        PingTakesFromAhead(n, l.begin, l.end, l.step, p, since);
      }
    }
  }

  lemma AheadStep(ms: seq<Mesh>, ls: seq<Label>, k: nat, a: Addr, p: Addr, since: Time)
    requires IsFullRun(ms, ls) && k < |ls| && Undisturbed(ms, ls, k, k + 1, a, p, since)
    requires NobodyDrawsLevel(ms, ls, k, k + 1, a, p, since)
    ensures var n, n' := ms[k].nodes[a], ms[k + 1].nodes[a];
            && |Ahead(n', p)| <= |Ahead(n, p)|
            && (PingsSomeone(ls[k], a) && |Ahead(n, p)| >= NUM_CANDIDATE_TARGET_PEERS ==>
                  |Ahead(n', p)| < |Ahead(n, p)|)
  {
    hide After, Enabled, Ahead, Linked, Init, DrawsLevel;
    var n, l := ms[k].nodes[a], ls[k];
    OneNode(ms, ls, k, a);
    NodeIsSound(ms, ls, k, a);
    if l.Act? && l.node == a {
      NobodyGetsAheadIff(n, l.begin, l.end, l.step, p, since);
      SubsetCount(Ahead(ms[k + 1].nodes[a], p), Ahead(n, p));
      if l.step.PingOne? {
        PingTakesFromAhead(n, l.begin, l.end, l.step, p, since);
      }
    }
  }

  lemma {:induction false} PingsUseUpTheOlder(ms: seq<Mesh>, ls: seq<Label>, i: nat, k: nat,
                                              a: Addr, p: Addr, since: Time)
    requires IsFullRun(ms, ls) && Undisturbed(ms, ls, i, k, a, p, since)
    ensures || |StrictlyOlder(ms[k].nodes[a], p)| < NUM_CANDIDATE_TARGET_PEERS
            || |StrictlyOlder(ms[k].nodes[a], p)| + PingsBy(ls, a, i, k) <= |StrictlyOlder(ms[i].nodes[a], p)|
    decreases k
  {
    hide StrictlyOlder, Linked, Init;
    if i < k {
      assert Undisturbed(ms, ls, i, k - 1, a, p, since);
      PingsUseUpTheOlder(ms, ls, i, k - 1, a, p, since);
      assert Undisturbed(ms, ls, k - 1, k, a, p, since);
      OlderStep(ms, ls, k - 1, a, p, since);
    }
  }

  lemma {:induction false} PingsUseUpThoseAhead(ms: seq<Mesh>, ls: seq<Label>, i: nat, k: nat,
                                                a: Addr, p: Addr, since: Time)
    requires IsFullRun(ms, ls) && Undisturbed(ms, ls, i, k, a, p, since)
    requires NobodyDrawsLevel(ms, ls, i, k, a, p, since)
    ensures || |Ahead(ms[k].nodes[a], p)| < NUM_CANDIDATE_TARGET_PEERS
            || |Ahead(ms[k].nodes[a], p)| + PingsBy(ls, a, i, k) <= |Ahead(ms[i].nodes[a], p)|
    decreases k
  {
    hide Ahead, Linked, Init, DrawsLevel;
    if i < k {
      assert Undisturbed(ms, ls, i, k - 1, a, p, since);
      PingsUseUpThoseAhead(ms, ls, i, k - 1, a, p, since);
      assert Undisturbed(ms, ls, k - 1, k, a, p, since);
      AheadStep(ms, ls, k - 1, a, p, since);
    }
  }

  /**
   * Time-bounded completeness of target choice: once the node has sent as many pings as it knew
   * peers, a peer that is still held and was not picked is among the candidates, and it stays so.
   */
  lemma AmongOldestWithinNPings(ms: seq<Mesh>, ls: seq<Label>, i: nat, k: nat,
                                a: Addr, p: Addr, since: Time)
    requires IsFullRun(ms, ls) && Undisturbed(ms, ls, i, k, a, p, since)
    requires PingsBy(ls, a, i, k) + 6 >= |ms[i].nodes[a].known|
    ensures AmongOldest(ms[k].nodes[a], p)
  {
    hide StrictlyOlder, Linked, Init;
    PingsUseUpTheOlder(ms, ls, i, k, a, p, since);
    NodeIsSound(ms, ls, i, a);
    OlderCount(ms[i].nodes[a], p);
  }

  /** If moreover nobody draws level with it, every listing by age has it among the first five. */
  lemma FirstInEveryListingWithinNPings(ms: seq<Mesh>, ls: seq<Label>, i: nat, k: nat,
                                        a: Addr, p: Addr, since: Time)
    requires IsFullRun(ms, ls) && Undisturbed(ms, ls, i, k, a, p, since)
    requires NobodyDrawsLevel(ms, ls, i, k, a, p, since)
    requires PingsBy(ls, a, i, k) + 6 >= |ms[i].nodes[a].known|
    ensures |Ahead(ms[k].nodes[a], p)| < NUM_CANDIDATE_TARGET_PEERS
  {
    hide Ahead, StrictlyOlder, Linked, Init, DrawsLevel;
    PingsUseUpThoseAhead(ms, ls, i, k, a, p, since);
    NodeIsSound(ms, ls, i, a);
    OlderCount(ms[i].nodes[a], p);
  }
}
