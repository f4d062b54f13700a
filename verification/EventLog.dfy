/** The event log of an observed map against the map's history of operations. */
module EventLog {
  import opened Basics
  import opened Channels
  import opened ObservableHashMap

  /** An operation on the map; for an update, what the updater returned. */
  datatype Op<K, V> =
    | DoInsert(key: K, value: V)
    | DoRemove(key: K)
    | DoUpdate(key: K, value: V)

  function Apply<K, V>(m: map<K, V>, op: Op<K, V>): map<K, V> {
    match op
    case DoInsert(k, v) => m[k := v]
    case DoRemove(k) => m - {k}
    case DoUpdate(k, v) => if k in m then m[k := v] else m
  }

  /** What the operation reports. */
  function Reports<K, V(==)>(m: map<K, V>, op: Op<K, V>): seq<Event<K, V>> {
    match op
    case DoInsert(k, v) => if k in m then [Updated(k, m[k], v)] else [Added(k)]
    case DoRemove(k) => if k in m then [Removed(k)] else []
    case DoUpdate(k, v) => if k in m && v != m[k] then [Updated(k, m[k], v)] else []
  }

  ghost function ApplyAll<K, V>(m: map<K, V>, ops: seq<Op<K, V>>): map<K, V> {
    if ops == [] then m else Apply(ApplyAll(m, ops[..|ops| - 1]), ops[|ops| - 1])
  }

  ghost function LogOf<K, V>(m: map<K, V>, ops: seq<Op<K, V>>): seq<Event<K, V>> {
    if ops == [] then []
    else LogOf(m, ops[..|ops| - 1]) + Reports(ApplyAll(m, ops[..|ops| - 1]), ops[|ops| - 1])
  }

  /** The keys that replaying a log leaves present. */
  ghost function Replay<K, V>(keys: set<K>, log: seq<Event<K, V>>): set<K> {
    if log == [] then keys
    else
      var before := Replay(keys, log[..|log| - 1]);
      match log[|log| - 1]
      case Added(k) => before + {k}
      case Removed(k) => before - {k}
      case Updated(_, _, _) => before
  }

  /** Each event fits what is present when it comes. */
  ghost predicate Fits<K, V>(present: set<K>, event: Event<K, V>) {
    if event.Added? then event.key !in present else event.key in present
  }

  /** The value that the last event about a key told, unless that event carried none. */
  ghost function LastTold<K, V>(log: seq<Event<K, V>>, k: K): Option<V> {
    if log == [] then None
    else
      var event := log[|log| - 1];
      if event.key != k then LastTold(log[..|log| - 1], k)
      else if event.Updated? then Some(event.after) else None
  }

  // The map itself, whatever its observers.

  /** Those who listened before, each with these events added to what it had seen. */
  ghost function Listening<K, V>(before: seq<Sender<Event<K, V>>>, log: seq<Event<K, V>>)
    : (r: seq<Sender<Event<K, V>>>)
    ensures |r| == |before|
  {
    seq(|before|, i requires 0 <= i < |before| => Sender(true, before[i].log + log))
  }

  /**
   * All open observers have seen the same events since they were those of `before`; at most one
   * is closed, which the next event will prune.
   */
  ghost predicate ObservedBy<K, V>(m: ObservableHashMap<K, V>, before: seq<Sender<Event<K, V>>>,
                                   log: seq<Event<K, V>>)
    reads m
  {
    !m.poisoned && |ClosedAt(m.observers)| <= 1 && OpenOnes(m.observers) == Listening(before, log)
  }

  lemma {:induction false} OpenOnesSent<T>(channels: seq<Sender<T>>, payload: T)
    ensures |OpenOnes(SendEach(channels, payload))| == |OpenOnes(channels)|
    ensures forall i :: 0 <= i < |OpenOnes(channels)| ==>
              OpenOnes(SendEach(channels, payload))[i] == Sender(true, OpenOnes(channels)[i].log + [payload])
  {
    if channels != [] {
      OpenOnesSent(channels[..|channels| - 1], payload);
      var sent := SendEach(channels, payload);
      assert sent[..|sent| - 1] == SendEach(channels[..|channels| - 1], payload);
    }
  }

  lemma {:induction false} OnlyOpen<T>(channels: seq<Sender<T>>)
    requires forall i :: 0 <= i < |channels| ==> channels[i].isOpen
    ensures OpenOnes(channels) == channels && ClosedAt(channels) == []
  {
    if channels != [] {
      OnlyOpen(channels[..|channels| - 1]);
    }
  }

  /** Everybody who still listens sees the event, and nobody else is left. */
  lemma EventReachesAll<K, V>(observers: seq<Sender<Event<K, V>>>, before: seq<Sender<Event<K, V>>>,
                              log: seq<Event<K, V>>, event: Event<K, V>)
    requires |ClosedAt(observers)| <= 1 && OpenOnes(observers) == Listening(before, log)
    ensures var sent := AfterSend(observers, event);
            && !sent.panicked && ClosedAt(sent.left) == []
            && OpenOnes(sent.left) == Listening(before, log + [event])
  {
    hide OpenOnes, ClosedAt, AfterSend, SendEach, Listening;
    SendWithOneClosed(observers, event);
    OpenOnesSent(observers, event);
    OnlyOpen(OpenOnes(SendEach(observers, event)));
    ListenOn(OpenOnes(SendEach(observers, event)), before, log, event);
  }

  lemma ListenOn<K, V>(sent: seq<Sender<Event<K, V>>>, before: seq<Sender<Event<K, V>>>,
                       log: seq<Event<K, V>>, event: Event<K, V>)
    requires |sent| == |before|
    requires forall i :: 0 <= i < |before| ==>
               sent[i] == Sender(true, Listening(before, log)[i].log + [event])
    ensures sent == Listening(before, log + [event])
  {
    forall i | 0 <= i < |before|
      ensures sent[i] == Listening(before, log + [event])[i]
    {
      assert (before[i].log + log) + [event] == before[i].log + (log + [event]);
    }
  }

  lemma ListenFromHere<K, V>(observers: seq<Sender<Event<K, V>>>)
    ensures Listening(OpenOnes(observers), []) == OpenOnes(observers)
  {
    hide OpenOnes;
    var before := OpenOnes(observers);
    forall i | 0 <= i < |before|
      ensures before[i] == Listening(before, [])[i]
    {
      assert before[i].log + [] == before[i].log;
    }
  }

  method Perform<K(==), V(==)>(m: ObservableHashMap<K, V>, op: Op<K, V>,
                               ghost before: seq<Sender<Event<K, V>>>, ghost log: seq<Event<K, V>>)
    requires ObservedBy(m, before, log)
    modifies m
    ensures m.entries == Apply(old(m.entries), op)
    ensures ObservedBy(m, before, log + Reports(old(m.entries), op))
  {
    hide AfterSend, OpenOnes, ClosedAt, Listening;
    assert log + [] == log;
    ghost var reports := Reports(m.entries, op);
    if reports != [] {
      EventReachesAll(m.observers, before, log, reports[0]);
    }
    match op {
      case DoInsert(k, v) =>
        var previous := m.Insert(k, v);
      case DoRemove(k) =>
        var previous := m.Remove(k);
      case DoUpdate(k, v) =>
        var didUpdate := m.Update(k, _ => v);
    }
  }

  /**
   * Any operations on the map: its contents are those of the specification, and every observer
   * that was open has been told the log of the specification.
   */
  method PerformAll<K(==), V(==)>(m: ObservableHashMap<K, V>, ops: seq<Op<K, V>>)
    requires !m.poisoned && |ClosedAt(m.observers)| <= 1
    modifies m
    ensures m.entries == ApplyAll(old(m.entries), ops)
    ensures ObservedBy(m, OpenOnes(old(m.observers)), LogOf(old(m.entries), ops))
  {
    ghost var before := OpenOnes(m.observers);
    ListenFromHere(m.observers);
    hide Apply, Reports, ObservedBy, OpenOnes;
    for i := 0 to |ops|
      invariant m.entries == ApplyAll(old(m.entries), ops[..i])
      invariant ObservedBy(m, before, LogOf(old(m.entries), ops[..i]))
    {
      assert ops[..i + 1][..i] == ops[..i];
      Perform(m, ops[i], before, LogOf(old(m.entries), ops[..i]));
    }
    assert ops[..|ops|] == ops;
  }

  lemma LogGrowth<K, V>(log: seq<Event<K, V>>, more: seq<Event<K, V>>, keys: set<K>)
    requires |more| <= 1
    ensures more == [] ==> log + more == log
    ensures more != [] ==> (log + more)[..|log + more| - 1] == log && (log + more)[|log + more| - 1] == more[0]
  {
  }

  lemma OneReplay<K, V>(keys: set<K>, log: seq<Event<K, V>>, m: map<K, V>, op: Op<K, V>)
    requires Replay(keys, log) == m.Keys
    ensures Replay(keys, log + Reports(m, op)) == Apply(m, op).Keys
  {
    LogGrowth(log, Reports(m, op), keys);
  }

  /** Replaying the log over the keys present when the observer came gives the keys present now. */
  lemma {:induction false} LogReplaysToMap<K, V>(m: map<K, V>, ops: seq<Op<K, V>>)
    ensures Replay(m.Keys, LogOf(m, ops)) == ApplyAll(m, ops).Keys
  {
    hide Apply, Reports;
    if ops != [] {
      var front := ops[..|ops| - 1];
      LogReplaysToMap(m, front);
      OneReplay(m.Keys, LogOf(m, front), ApplyAll(m, front), ops[|ops| - 1]);
    }
  }

  lemma OneTold<K, V>(log: seq<Event<K, V>>, m: map<K, V>, op: Op<K, V>, k: K)
    requires LastTold(log, k).Some? ==> k in m && m[k] == LastTold(log, k).value
    ensures var log', m' := log + Reports(m, op), Apply(m, op);
            LastTold(log', k).Some? ==> k in m' && m'[k] == LastTold(log', k).value
  {
    LogGrowth(log, Reports(m, op), m.Keys);
  }

  /** A told value is the value held, as long as nothing more is told about its key. */
  lemma {:induction false} ToldIsHeld<K, V>(m: map<K, V>, ops: seq<Op<K, V>>, k: K)
    ensures LastTold(LogOf(m, ops), k).Some? ==>
              k in ApplyAll(m, ops) && ApplyAll(m, ops)[k] == LastTold(LogOf(m, ops), k).value
  {
    hide Apply, Reports;
    if ops != [] {
      var front := ops[..|ops| - 1];
      ToldIsHeld(m, front, k);
      OneTold(LogOf(m, front), ApplyAll(m, front), ops[|ops| - 1], k);
    }
  }

  /** What the event says is so just before and just after it: `m` becomes `m'`. */
  ghost predicate Describes<K, V>(event: Event<K, V>, m: map<K, V>, m': map<K, V>) {
    match event
    case Added(k) => k !in m && k in m'
    case Updated(k, before, after) => k in m && m[k] == before && k in m' && m'[k] == after
    case Removed(k) => k in m && k !in m'
  }

  lemma ReportsDescribe<K, V>(m: map<K, V>, op: Op<K, V>)
    ensures forall event :: event in Reports(m, op) ==> Describes(event, m, Apply(m, op))
  {
  }

  lemma PrefixOf<K, V>(m: map<K, V>, front: seq<Op<K, V>>, ops: seq<Op<K, V>>, x: nat)
    requires |ops| == |front| + 1 && ops[..|front|] == front && x <= |front|
    ensures ops[..x] == front[..x]
  {
    assert forall i :: 0 <= i < x ==> ops[i] == front[i];
  }

  /**
   * Every event fits its place: it was reported by one operation, and says of the map before and
   * after that operation what is so. Additions come when the key is absent, updates and removals
   * when it is present, an update tells the value held until then and the value held from then on.
   */
  lemma {:induction false} EveryEventFits<K, V>(m: map<K, V>, ops: seq<Op<K, V>>, i: nat) returns (x: nat)
    requires i < |LogOf(m, ops)|
    ensures x < |ops| && LogOf(m, ops[..x]) == LogOf(m, ops)[..i]
    ensures LogOf(m, ops[..x + 1]) == LogOf(m, ops)[..i + 1]
    ensures Describes(LogOf(m, ops)[i], ApplyAll(m, ops[..x]), ApplyAll(m, ops[..x + 1]))
    ensures Fits(Replay(m.Keys, LogOf(m, ops)[..i]), LogOf(m, ops)[i])
  {
    hide Apply, Reports, Describes;
    var front := ops[..|ops| - 1];
    var log, more := LogOf(m, front), Reports(ApplyAll(m, front), ops[|ops| - 1]);
    if i < |log| {
      x := EveryEventFits(m, front, i);
      PrefixOf(m, front, ops, x);
      PrefixOf(m, front, ops, x + 1);
      assert (log + more)[..i] == log[..i] && (log + more)[..i + 1] == log[..i + 1];
    } else {
      x := |front|;
      assert ops[..x + 1] == ops;
      ReportsOne(ApplyAll(m, front), ops[|ops| - 1]);
      ReportsDescribe(ApplyAll(m, front), ops[|ops| - 1]);
      assert (log + more)[..i] == log && (log + more)[..i + 1] == log + more;
      LogReplaysToMap(m, front);
      DescribedFits(more[0], ApplyAll(m, front), ApplyAll(m, ops));
    }
  }

  /** So successive updates of a key chain: each starts from the value that the one before told. */
  lemma UpdatesChain<K, V>(m: map<K, V>, ops: seq<Op<K, V>>, i: nat)
    requires i < |LogOf(m, ops)| && LogOf(m, ops)[i].Updated?
    ensures var log := LogOf(m, ops);
            LastTold(log[..i], log[i].key).Some? ==> log[i].before == LastTold(log[..i], log[i].key).value
  {
    var x := EveryEventFits(m, ops, i);
    ToldIsHeld(m, ops[..x], LogOf(m, ops)[i].key);
  }

  lemma ReportsOne<K, V>(m: map<K, V>, op: Op<K, V>)
    ensures |Reports(m, op)| <= 1
  {
  }

  lemma DescribedFits<K, V>(event: Event<K, V>, m: map<K, V>, m': map<K, V>)
    requires Describes(event, m, m')
    ensures Fits(m.Keys, event)
  {
  }

  /** Between two additions of a key there is a removal of it, and the other way round. */
  lemma AddedAndRemovedAlternate<K, V>(m: map<K, V>, ops: seq<Op<K, V>>, i: nat, j: nat)
    requires i < j < |LogOf(m, ops)|
    requires var log := LogOf(m, ops);
             log[i].key == log[j].key && !log[i].Updated? && log[i].Added? == log[j].Added? && !log[j].Updated?
    ensures var log := LogOf(m, ops);
            exists x :: i < x < j && log[x].key == log[i].key && !log[x].Updated?
                        && log[x].Added? != log[i].Added?
  {
    var log := LogOf(m, ops);
    var y := EveryEventFits(m, ops, j);
    var x := LastChange(m.Keys, log, i, j, log[i].key);
  }

  /** The last event before `j` that changes whether `k` is present, `i` being one of them. */
  lemma {:induction false} LastChange<K, V>(keys: set<K>, log: seq<Event<K, V>>, i: nat, j: nat, k: K)
    returns (x: nat)
    requires i < j <= |log| && log[i].key == k && !log[i].Updated?
    ensures i <= x < j && log[x].key == k && !log[x].Updated?
    ensures (k in Replay(keys, log[..j])) == log[x].Added?
  {
    assert log[..j][..j - 1] == log[..j - 1];
    if log[j - 1].key == k && !log[j - 1].Updated? {
      x := j - 1;
    } else {
      x := LastChange(keys, log, i, j - 1, k);
    }
  }
}
