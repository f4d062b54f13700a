/** When a node announces itself, over its ticks; and how long its ticks listen. */
module Announcements {
  import opened Basics
  import opened Types
  import opened Node
  import opened Ticks

  lemma StepKeepsLastBroadcast(n: Node, t: Timed)
    requires !t.step.BroadcastJoin?
    ensures Do(n, t).lastBroadcast == n.lastBroadcast
  {
    hide Swept, EvictedPeers, Merged, WithObserver, LatencyAfter;
  }

  lemma {:induction false} StepsKeepLastBroadcast(n: Node, ts: seq<Timed>)
    requires forall t :: t in ts ==> !t.step.BroadcastJoin?
    ensures DoAll(n, ts).lastBroadcast == n.lastBroadcast
  {
    hide After;
    if ts != [] {
      StepsKeepLastBroadcast(n, ts[..|ts| - 1]);
      StepKeepsLastBroadcast(DoAll(n, ts[..|ts| - 1]), ts[|ts| - 1]);
    }
  }

  lemma ListeningIsNoJoin(ts: seq<Timed>)
    requires forall t :: t in ts ==> Listens(t.step) || t.step.ManualPing?
    ensures forall t :: t in ts ==> !t.step.BroadcastJoin?
  {
  }

  /** A tick remembers its own announcement, or else the one before. */
  lemma TickRemembersJoin(n: Node, k: Tick)
    requires IsTick(n, k)
    ensures EndOf(n, k).lastBroadcast == if k.join.Some? then Some(k.joinRead) else n.lastBroadcast
    ensures k.join.Some? <==> JoinDue(n, k.joinRead)
  {
    hide Swept, EvictedPeers, ValidPlan, AmongOldest, CanDoAll, NonSuspected, FingerprintOf, AfterReceive,
      AfterBroadcast;
    ListeningIsNoJoin(k.manual);
    ListeningIsNoJoin(k.heard);
    StepsKeepLastBroadcast(Pinged(n, k), k.manual);
    StepsKeepLastBroadcast(Asked(n, k), k.heard);
  }

  /** The last tick before `j` that announced was `i`. */
  ghost predicate LastJoin(ks: seq<Tick>, i: nat, j: nat) {
    i < j <= |ks| && ks[i].join.Some? && forall x :: i < x < j ==> ks[x].join.None?
  }

  lemma {:induction false} JoinIsRemembered(ns: seq<Node>, ks: seq<Tick>, i: nat, j: nat)
    requires AreTicks(ns, ks) && LastJoin(ks, i, j)
    ensures ns[j].lastBroadcast == Some(ks[i].joinRead)
    decreases j
  {
    hide IsTick, EndOf, RequiredDelay;
    TickRemembersJoin(ns[j - 1], ks[j - 1]);
    assert Lags(EndOf(ns[j - 1], ks[j - 1]), ns[j]);
    if i < j - 1 {
      JoinIsRemembered(ns, ks, i, j - 1);
    }
  }

  /**
   * A node that has never announced itself does so in its first tick. Later ticks announce exactly
   * if ten seconds have passed since the last announcement and the node knows nobody else.
   */
  lemma AnnouncesIff(ns: seq<Node>, ks: seq<Tick>, j: nat)
    requires AreTicks(ns, ks) && j < |ks|
    ensures ns[j].lastBroadcast.None? ==> ks[j].join.Some?
    ensures forall i: nat :: LastJoin(ks, i, j) ==>
              (ks[j].join.Some? <==> ks[j].joinRead - ks[i].joinRead >= 10000 && |ns[j].known| <= 1)
  {
    hide EndOf, RequiredDelay, IsTick;
    TickRemembersJoin(ns[j], ks[j]);
    forall i: nat | LastJoin(ks, i, j)
      ensures ks[j].join.Some? <==> ks[j].joinRead - ks[i].joinRead >= 10000 && |ns[j].known| <= 1
    {
      JoinIsRemembered(ns, ks, i, j);
    }
  }

  /** A tick listens until its period is over, or for ten milliseconds if that comes later. */
  lemma ListensToEndOfPeriod(start: Time, measured: Time)
    requires start <= measured
    ensures measured + RequiredDelay(start, measured)
         == if measured + 10 <= start + 1000 then start + 1000 else measured + 10
  {
  }
}
