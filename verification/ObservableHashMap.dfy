/** The map of src/observable_hashmap.rs: every change of an entry is reported to the observers. */
module ObservableHashMap {
  import opened Basics
  import opened Channels

  datatype Event<K, V> =
    | Added(key: K)
    | Updated(key: K, before: V, after: V)
    | Removed(key: K)

  class ObservableHashMap<K(==), V(==)> {
    var entries: map<K, V>
    var observers: seq<Sender<Event<K, V>>>
    var poisoned: bool  // a thread panicked while it held the lock on the observers

    constructor ()
      ensures entries == map[] && observers == [] && !poisoned
    {
      entries := map[];
      observers := [];
      poisoned := false;
    }

    /** What notifying does: nothing but a panic once the lock is poisoned. */
    ghost predicate Notified(before: seq<Sender<Event<K, V>>>, wasPoisoned: bool, event: Event<K, V>)
      reads this
    {
      if wasPoisoned then observers == before && poisoned
      else observers == AfterSend(before, event).left && poisoned == AfterSend(before, event).panicked
    }

    method NotifyObservers(event: Event<K, V>)
      modifies this`observers, this`poisoned
      ensures Notified(old(observers), old(poisoned), event)
    {
      if !poisoned {
        var sent := SendToAll(observers, event);
        observers, poisoned := sent.left, sent.panicked;
      }
    }

    /** The new observer comes last and has seen nothing yet. */
    method AddObserver() returns (r: Outcome<nat>)
      modifies this`observers
      ensures old(poisoned) ==> r == Panicked && observers == old(observers)
      ensures !old(poisoned) ==> r == Done(|old(observers)|) && observers == old(observers) + [Sender(true, [])]
    {
      if poisoned {
        return Panicked;
      }
      observers := observers + [Sender(true, [])];
      return Done(|observers| - 1);
    }

    method Insert(key: K, value: V) returns (r: Outcome<Option<V>>)
      modifies this
      ensures entries == old(entries)[key := value]
      ensures key in old(entries) ==>
                Notified(old(observers), old(poisoned), Updated(key, old(entries)[key], value))
      ensures key !in old(entries) ==> Notified(old(observers), old(poisoned), Added(key))
      ensures r == if poisoned then Panicked
                   else Done(if key in old(entries) then Some(old(entries)[key]) else None)
    {
      var previous := if key in entries then Some(entries[key]) else None;
      entries := entries[key := value];
      if previous.Some? {
        NotifyObservers(Updated(key, previous.value, value));
      } else {
        NotifyObservers(Added(key));
      }
      return if poisoned then Panicked else Done(previous);
    }

    method Remove(key: K) returns (r: Outcome<Option<V>>)
      modifies this
      ensures entries == old(entries) - {key}
      ensures key in old(entries) ==> Notified(old(observers), old(poisoned), Removed(key))
      ensures key !in old(entries) ==> observers == old(observers) && poisoned == old(poisoned)
      ensures r == if key !in old(entries) then Done(None)
                   else if poisoned then Panicked else Done(Some(old(entries)[key]))
    {
      if key !in entries {
        return Done(None);
      }
      var previous := entries[key];
      entries := entries - {key};
      NotifyObservers(Removed(key));
      return if poisoned then Panicked else Done(Some(previous));
    }

    /** Changes nothing, and says so, when the key is absent or the updater leaves the value as it is. */
    method Update(key: K, updater: V -> V) returns (r: Outcome<bool>)
      modifies this
      ensures key in old(entries) && updater(old(entries)[key]) != old(entries)[key] ==>
                && entries == old(entries)[key := updater(old(entries)[key])]
                && Notified(old(observers), old(poisoned),
                            Updated(key, old(entries)[key], updater(old(entries)[key])))
                && r == if poisoned then Panicked else Done(true)
      ensures !(key in old(entries) && updater(old(entries)[key]) != old(entries)[key]) ==>
                && entries == old(entries) && observers == old(observers) && poisoned == old(poisoned)
                && r == Done(false)
    {
      if key !in entries {
        return Done(false);
      }
      var previous := entries[key];
      var updated := updater(previous);
      if updated == previous {
        return Done(false);
      }
      entries := entries[key := updated];
      NotifyObservers(Updated(key, previous, updated));
      return if poisoned then Panicked else Done(true);
    }

    /** At most one observer, as a running instance has. */
    ghost predicate Quiet()
      reads this
    {
      !poisoned && |observers| <= 1
    }
  }

  /** With at most one observer nothing ever panics, and an open observer sees the event. */
  lemma SingleObserver<K, V>(observers: seq<Sender<Event<K, V>>>, event: Event<K, V>)
    requires |observers| <= 1
    ensures !AfterSend(observers, event).panicked && |AfterSend(observers, event).left| <= |observers|
    ensures |observers| == 1 && observers[0].isOpen ==>
              AfterSend(observers, event).left == [Sender(true, observers[0].log + [event])]
  {
    SendWithOneClosed(observers, event);
    var sent := SendEach(observers, event);
    if |sent| == 1 {
      assert sent[..0] == [];
    }
  }
}
