/** Why the loops of a sweep and of target choice, taken together, do what `Node` says in one go. */
module Passes {
  import opened Basics
  import opened Types
  import opened Node
  import opened Truth
  import Order

  // Facts about lists and plans that the loops need.

  lemma PrefixStep<T>(s: seq<T>, i: nat)
    requires i < |s|
    ensures s[..i + 1] == s[..i] + [s[i]]
    ensures s[..i + 1][..i] == s[..i]
  {
  }

  ghost predicate SamePlanOn(n: Node, plan: SweepPlan, plan': SweepPlan, order: seq<Addr>) {
    forall p :: p in order ==>
      && (p in plan.readings <==> p in plan'.readings)
      && (p in plan.readings ==> plan.readings[p] == plan'.readings[p])
      && (p in plan.helpers <==> p in plan'.helpers)
      && (p in plan.helpers ==> plan.helpers[p] == plan'.helpers[p])
  }

  lemma {:induction false} RequestsDependOnOrder(n: Node, plan: SweepPlan, plan': SweepPlan, order: seq<Addr>)
    requires SamePlanOn(n, plan, plan', order)
    ensures Requests(n, plan, order) == Requests(n, plan', order)
    ensures EvictedIn(n, plan, order) == EvictedIn(n, plan', order)
    ensures DemotedIn(n, plan, order) == DemotedIn(n, plan', order)
  {
    if order != [] {
      RequestsDependOnOrder(n, plan, plan', order[..|order| - 1]);
    }
  }

  ghost function DemotedIn(n: Node, plan: SweepPlan, order: seq<Addr>): seq<Addr> {
    if order == [] then []
    else
      var p := order[|order| - 1];
      DemotedIn(n, plan, order[..|order| - 1]) + (if Demoted(n, plan, p) then [p] else [])
  }

  lemma {:induction false} DemotedInForm(n: Node, plan: SweepPlan, order: seq<Addr>)
    ensures forall p :: p in DemotedIn(n, plan, order) <==> p in order && Demoted(n, plan, p)
    ensures NoDuplicates(order) ==> NoDuplicates(DemotedIn(n, plan, order))
  {
    if order != [] {
      var front, p := order[..|order| - 1], order[|order| - 1];
      DemotedInForm(n, plan, front);
      assert order == front + [p];
      ElementsAppend(DemotedIn(n, plan, front), p);
    }
  }

  /** A sweep in progress: `order` has been looked at, and `plan` records what was read and drawn. */
  ghost predicate PartialPlan(n: Node, plan: SweepPlan, now: Time) {
    && NoDuplicates(plan.order) && Elements(plan.order) <= n.known.Keys
    && (forall p :: p in plan.readings ==> p in plan.order && n.clock <= plan.readings[p] <= now)
    && (forall p :: p in plan.order && !n.known[p].state.Known? ==> p in plan.readings)
    && (forall p :: p in plan.helpers ==> p in plan.order && ValidHelpers(n, plan.helpers[p]))
    && (forall p :: Demoted(n, plan, p) ==> p in plan.helpers)
  }

  /** What the next peer adds to a plan. */
  ghost function PlanWith(n: Node, plan: SweepPlan, p: Addr, read: Option<Time>,
                          helpers: Option<seq<Addr>>): SweepPlan {
    SweepPlan(plan.order + [p],
              if read.Some? then plan.readings[p := read.value] else plan.readings,
              if helpers.Some? then plan.helpers[p := helpers.value] else plan.helpers,
              plan.stamps)
  }

  lemma PlanGrows(n: Node, plan: SweepPlan, p: Addr, read: Option<Time>, helpers: Option<seq<Addr>>,
                  before: Time, now: Time)
    requires PartialPlan(n, plan, before) && n.clock <= before <= now
    requires p in n.known && p !in plan.order
    requires read.Some? <==> !n.known[p].state.Known?
    requires read.Some? ==> before <= read.value <= now
    requires helpers.Some? ==> ValidHelpers(n, helpers.value)
    requires Demoted(n, PlanWith(n, plan, p, read, helpers), p) ==> helpers.Some?
    ensures PartialPlan(n, PlanWith(n, plan, p, read, helpers), now)
  {
    var plan' := PlanWith(n, plan, p, read, helpers);
    ElementsAppend(plan.order, p);
    forall q | Demoted(n, plan', q)
      ensures q in plan'.helpers
    {
      assert q != p ==> Demoted(n, plan, q);
    }
  }

  lemma ListsGrow(n: Node, plan: SweepPlan, p: Addr, read: Option<Time>, helpers: Option<seq<Addr>>)
    requires p !in plan.order
    requires Demoted(n, PlanWith(n, plan, p, read, helpers), p) ==> helpers.Some?
    ensures var plan' := PlanWith(n, plan, p, read, helpers);
            && Requests(n, plan', plan'.order) == Requests(n, plan, plan.order) +
                 (if Demoted(n, plan', p) then RequestsTo(n, p, helpers.value) else [])
            && EvictedIn(n, plan', plan'.order) == EvictedIn(n, plan, plan.order) +
                 (if Evicted(n, plan', p) then [p] else [])
            && DemotedIn(n, plan', plan'.order) == DemotedIn(n, plan, plan.order) +
                 (if Demoted(n, plan', p) then [p] else [])
  {
    hide Demoted, Evicted, RequestsTo;
    var plan' := PlanWith(n, plan, p, read, helpers);
    assert plan'.order[..|plan'.order| - 1] == plan.order;
    RequestsDependOnOrder(n, plan, plan', plan.order);
  }

  /** The first pass so far: what it has recorded, whom it has sorted out, and what it has tried to send. */
  ghost predicate Progress(n: Node, plan: SweepPlan, now: Time, demoted: seq<Addr>, evicted: seq<Addr>,
                           tried: seq<Datagram>) {
    && PartialPlan(n, plan, now) && n.clock <= now && plan.stamps == map[]
    && demoted == DemotedIn(n, plan, plan.order)
    && evicted == EvictedIn(n, plan, plan.order)
    && tried == Requests(n, plan, plan.order)
  }

  lemma ProgressStarts(n: Node)
    ensures Progress(n, SweepPlan([], map[], map[], map[]), n.clock, [], [], [])
    ensures Elements<Addr>([]) == {}
  {
  }

  lemma ChosenCount(n: Node, helpers: seq<Addr>, left: set<Addr>)
    requires NoDuplicates(helpers) && left !! Elements(helpers)
    requires Elements(helpers) + left == NonSuspected(n)
    requires |helpers| <= NUM_INDIRECT_PING_PEERS
    requires left == {} || |helpers| == NUM_INDIRECT_PING_PEERS
    ensures ValidHelpers(n, helpers) && (helpers == [] <==> NonSuspected(n) == {})
  {
    ElementsCount(helpers);
    SubsetCount(Elements(helpers), NonSuspected(n));
  }

  /** A peer that is Known, or whose time is not up. */
  lemma ProgressSpares(n: Node, plan: SweepPlan, p: Addr, read: Option<Time>, before: Time, now: Time,
                       demoted: seq<Addr>, evicted: seq<Addr>, tried: seq<Datagram>)
    requires Progress(n, plan, before, demoted, evicted, tried) && p in n.known && p !in plan.order
    requires read.Some? <==> !n.known[p].state.Known?
    requires read.Some? ==>
               before <= read.value <= now && Elapsed(read.value, n.known[p].state.since) < PING_TIMEOUT
    requires before <= now
    ensures Progress(n, PlanWith(n, plan, p, read, None), now, demoted, evicted, tried)
  {
    PlanGrows(n, plan, p, read, None, before, now);
    ListsGrow(n, plan, p, read, None);
  }

  /** A peer whose time is up, and about whom nobody will be asked. */
  lemma ProgressEvicts(n: Node, plan: SweepPlan, p: Addr, read: Time, helpers: Option<seq<Addr>>,
                       before: Time, now: Time,
                       demoted: seq<Addr>, evicted: seq<Addr>, tried: seq<Datagram>)
    requires Progress(n, plan, before, demoted, evicted, tried) && p in n.known && p !in plan.order
    requires before <= read <= now && !n.known[p].state.Known?
    requires Elapsed(read, n.known[p].state.since) >= PING_TIMEOUT
    requires n.known[p].state.WaitingForPing? ==> NonSuspected(n) == {}
    requires helpers.Some? ==> ValidHelpers(n, helpers.value)
    ensures Progress(n, PlanWith(n, plan, p, Some(read), helpers), now, demoted, evicted + [p], tried)
  {
    PlanGrows(n, plan, p, Some(read), helpers, before, now);
    ListsGrow(n, plan, p, Some(read), helpers);
  }

  /** A peer whose time is up, and about whom the helpers are asked. */
  lemma ProgressAsks(n: Node, plan: SweepPlan, p: Addr, read: Time, helpers: seq<Addr>,
                     before: Time, now: Time,
                     demoted: seq<Addr>, evicted: seq<Addr>, tried: seq<Datagram>)
    requires Progress(n, plan, before, demoted, evicted, tried) && p in n.known && p !in plan.order
    requires before <= read <= now && n.known[p].state.WaitingForPing?
    requires Elapsed(read, n.known[p].state.since) >= PING_TIMEOUT
    requires NonSuspected(n) != {} && ValidHelpers(n, helpers)
    ensures Progress(n, PlanWith(n, plan, p, Some(read), Some(helpers)), now, demoted + [p], evicted,
                     tried + RequestsTo(n, p, helpers))
  {
    PlanGrows(n, plan, p, Some(read), Some(helpers), before, now);
    ListsGrow(n, plan, p, Some(read), Some(helpers));
    assert Demoted(n, PlanWith(n, plan, p, Some(read), Some(helpers)), p);
  }

  /** The record of a finished sweep is one that the specification allows. */
  lemma FinishedPlan(n: Node, plan: SweepPlan, middle: Time, end: Time, stamps: map<Addr, Time>)
    requires PartialPlan(n, plan, middle) && Elements(plan.order) == n.known.Keys
    requires n.clock <= middle <= end
    requires stamps.Keys == Elements(DemotedIn(n, plan, plan.order))
    requires forall p :: p in stamps ==> middle <= stamps[p] <= end
    ensures ValidPlan(n, n.clock, end, plan.(stamps := stamps))
  {
    var full := plan.(stamps := stamps);
    DemotedInForm(n, plan, plan.order);
    forall p | p in n.known
      ensures p in plan.order
    {
      assert p in Elements(plan.order);
    }
    forall p | Demoted(n, full, p)
      ensures p in full.helpers && p in full.stamps
    {
      assert Demoted(n, plan, p);
      assert p in DemotedIn(n, plan, plan.order);
    }
  }

  /** The second pass: these peers have their new state already. */
  ghost function Restamped(known: PeerMap, peers: seq<Addr>, stamps: map<Addr, Time>): PeerMap {
    map p | p in known ::
      if p in peers && p in stamps then known[p].(state := WaitingForIndirectPing(stamps[p])) else known[p]
  }

  lemma RestampOne(known: PeerMap, peers: seq<Addr>, stamps: map<Addr, Time>, i: nat, now: Time)
    requires i < |peers| && NoDuplicates(peers) && peers[i] in known
    requires stamps.Keys == Elements(peers[..i])
    ensures Restamped(known, peers[..i + 1], stamps[peers[i] := now])
         == Restamped(known, peers[..i], stamps)[
              peers[i] := known[peers[i]].(state := WaitingForIndirectPing(now))]
    ensures Restamped(known, peers[..i], stamps)[peers[i]] == known[peers[i]]
    ensures stamps[peers[i] := now].Keys == Elements(peers[..i + 1])
  {
    PrefixStep(peers, i);
    ElementsAppend(peers[..i], peers[i]);
    assert peers[i] !in peers[..i];
  }

  /** All three passes together are the sweep of the specification. */
  lemma PassesMakeSweep(n: Node, plan: SweepPlan, demoted: seq<Addr>, evicted: seq<Addr>)
    requires Elements(plan.order) == n.known.Keys
    requires demoted == DemotedIn(n, plan, plan.order) && evicted == EvictedIn(n, plan, plan.order)
    requires plan.stamps.Keys == Elements(demoted)
    ensures Restamped(n.known, demoted, plan.stamps) - Elements(evicted) == Swept(n, plan)
    ensures Elements(evicted) == EvictedPeers(n, plan)
    ensures forall p :: Demoted(n, plan, p) ==> p in plan.stamps
  {
    DemotedInForm(n, plan, plan.order);
    EvictedInForm(n, plan, plan.order);
    forall p | p in n.known
      ensures p in plan.order
    {
      assert p in Elements(plan.order);
    }
    var left, right := Restamped(n.known, demoted, plan.stamps) - Elements(evicted), Swept(n, plan);
    assert left.Keys == right.Keys;
    assert forall p :: p in left ==> left[p] == right[p];
  }

  /** The first pass with only `left` still to be looked at. */
  ghost predicate FirstPass(n: Node, plan: SweepPlan, left: set<Addr>, now: Time,
                            demoted: seq<Addr>, evicted: seq<Addr>, tried: seq<Datagram>) {
    && left <= n.known.Keys && Elements(plan.order) == n.known.Keys - left
    && Progress(n, plan, now, demoted, evicted, tried)
  }

  lemma FirstPassStarts(n: Node)
    ensures FirstPass(n, SweepPlan([], map[], map[], map[]), n.known.Keys, n.clock, [], [], [])
  {
    ProgressStarts(n);
  }

  lemma NotListed(n: Node, plan: SweepPlan, left: set<Addr>, p: Addr)
    requires p in n.known && p !in left && Elements(plan.order) == n.known.Keys - left - {p}
    ensures p !in plan.order
    ensures Elements(plan.order + [p]) == n.known.Keys - left
  {
    ElementsAppend(plan.order, p);
    assert p in plan.order ==> p in Elements(plan.order);
  }

  lemma DemotedAreWaiting(n: Node, plan: SweepPlan, now: Time, demoted: seq<Addr>, evicted: seq<Addr>,
                          tried: seq<Datagram>)
    requires FirstPass(n, plan, {}, now, demoted, evicted, tried)
    ensures NoDuplicates(demoted)
    ensures forall p :: p in demoted ==> p in n.known && n.known[p].state.WaitingForPing?
  {
    DemotedInForm(n, plan, plan.order);
  }

  /** The finished first pass, with the stamps of the second and the removals of the third. */
  lemma SweepIsDone(n: Node, plan: SweepPlan, middle: Time, end: Time, stamps: map<Addr, Time>,
                    demoted: seq<Addr>, evicted: seq<Addr>, tried: seq<Datagram>)
    requires FirstPass(n, plan, {}, middle, demoted, evicted, tried) && middle <= end
    requires stamps.Keys == Elements(demoted)
    requires forall p :: p in stamps ==> middle <= stamps[p] <= end
    ensures var full := plan.(stamps := stamps);
            && Enabled(n, n.clock, end, Sweep(full))
            && After(n, end, Sweep(full))
               == n.(known := Restamped(n.known, demoted, stamps) - Elements(evicted),
                     curious := n.curious - Elements(evicted), clock := end)
            && tried + FailuresOf(n.broadcastSource, evicted) == Attempts(n, Sweep(full))
  {
    var full := plan.(stamps := stamps);
    FinishedPlan(n, plan, middle, end, stamps);
    RequestsDependOnOrder(n, plan, full, plan.order);
    PassesMakeSweep(n, full, demoted, evicted);
  }

  /** The order of a listing by age is one by when the peers were last heard. */
  function AgeKey(entry: (Addr, Time)): seq<int> {
    [entry.1]
  }

  ghost predicate ListsAges(n: Node, listed: seq<(Addr, Time)>) {
    && (forall e :: e in listed ==> e.0 in NonSuspected(n) && e.1 == n.known[e.0].state.since)
    && (forall p :: p in NonSuspected(n) ==> (p, n.known[p].state.since) in listed)
  }

  lemma SameAges(n: Node, listed: seq<(Addr, Time)>, sorted: seq<(Addr, Time)>)
    requires ListsAges(n, listed) && multiset(sorted) == multiset(listed)
    ensures ListsAges(n, sorted) && (sorted == [] <==> NonSuspected(n) == {})
  {
    Order.PermutationFacts(listed, sorted);
    assert forall e :: e in sorted <==> e in Elements(sorted);
    assert forall e :: e in listed <==> e in Elements(listed);
    if sorted != [] {
      assert sorted[0].0 in NonSuspected(n);
    }
  }

  lemma OlderComesFirst(sorted: seq<(Addr, Time)>, i: nat, j: nat)
    requires Order.Ascending(AgeKey, sorted) && i < |sorted| && j < |sorted|
    requires sorted[j].1 < sorted[i].1
    ensures j < i
  {
    assert LexLess(AgeKey(sorted[j]), AgeKey(sorted[i]));
  }

  /** Who stands among the first of a listing by age is among the oldest. */
  lemma FirstAreOldest(n: Node, sorted: seq<(Addr, Time)>, i: nat)
    requires ListsAges(n, sorted) && Order.Ascending(AgeKey, sorted)
    requires i < |sorted| && i < NUM_CANDIDATE_TARGET_PEERS
    ensures AmongOldest(n, sorted[i].0)
  {
    var t := sorted[i].0;
    var before := set e | e in sorted[..i] :: e.0;
    forall q | q in StrictlyOlder(n, t)
      ensures q in before
    {
      var e := (q, n.known[q].state.since);
      assert e in sorted;
      var j :| 0 <= j < |sorted| && sorted[j] == e;
      OlderComesFirst(sorted, i, j);
      assert j < i && sorted[j] in sorted[..i];
    }
    SubsetCount(StrictlyOlder(n, t), before);
    FirstsCount(sorted[..i]);
  }

  lemma {:induction false} FirstsCount(entries: seq<(Addr, Time)>)
    ensures |set e | e in entries :: e.0| <= |entries|
  {
    if entries != [] {
      var front, last := entries[..|entries| - 1], entries[|entries| - 1];
      FirstsCount(front);
      assert entries == front + [last];
      assert (set e | e in entries :: e.0) == (set e | e in front :: e.0) + {last.0};
    }
  }
}
