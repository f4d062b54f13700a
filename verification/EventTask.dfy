/** The task of src/events.rs as it runs: its critical sections, working on the shared map. */
module EventTask {
  import opened Basics
  import opened Types
  import opened Channels
  import opened ObservableHashMap
  import opened Events
  import Fingerprint

  class EventTask {
    const text: Addr -> Bytes
    const knownPeers: ObservableHashMap<Addr, PeerInfo>

    var taken: nat
    var working: bool
    var batch: seq<PeerEvent>
    var pending: Option<(Addr, Bytes)>
    var fingerprint: U32

    var discoveryTx: seq<Sender<(Addr, Bytes)>>
    var departureTx: seq<Sender<Addr>>
    var fingerprintTx: seq<Sender<U32>>
    var crashed: bool

    ghost var notes: seq<Note>

    /** Our end of the channel is the map's one observer, and stays open as long as we run. */
    ghost predicate Valid()
      reads this, knownPeers
    {
      && |knownPeers.observers| == 1 && knownPeers.observers[0].isOpen
      && taken <= |knownPeers.observers[0].log|
    }

    ghost function State(): World
      reads this, knownPeers
      requires Valid()
    {
      World(knownPeers.entries, knownPeers.observers[0].log,
            Task(taken, working, batch, pending, fingerprint, notes))
    }

    /** Registers as the observer of a map that has none. */
    constructor (knownPeers: ObservableHashMap<Addr, PeerInfo>, text: Addr -> Bytes)
      requires knownPeers.observers == [] && !knownPeers.poisoned
      modifies knownPeers
      ensures this.knownPeers == knownPeers && this.text == text
      ensures Valid() && State() == World(old(knownPeers.entries), [], IDLE)
      ensures discoveryTx == [] && departureTx == [] && fingerprintTx == [] && !crashed
    {
      this.knownPeers, this.text := knownPeers, text;
      taken, working, batch, pending, fingerprint := 0, false, [], None, 0;
      discoveryTx, departureTx, fingerprintTx, crashed := [], [], [], false;
      notes := [];
      new;
      var slot := knownPeers.AddObserver();
    }

    /** `recv`, then `try_recv` until nothing is ready. */
    method TakeBatch()
      requires Valid() && !working && taken < |knownPeers.observers[0].log|
      modifies this`taken, this`working, this`batch
      ensures Valid() && State() == Result(old(State()), Take, text)
    {
      ghost var start := taken;
      var events := [knownPeers.observers[0].log[taken]];
      taken := taken + 1;
      while taken < |knownPeers.observers[0].log|
        invariant start < taken <= |knownPeers.observers[0].log|
        invariant events == knownPeers.observers[0].log[start..taken]
        decreases |knownPeers.observers[0].log| - taken
      {
        events := events + [knownPeers.observers[0].log[taken]];
        taken := taken + 1;
      }
      working, batch := true, events;
    }

    /** The next event of the batch, up to where the lock on the map is released. */
    method LookAtNext()
      requires Valid() && working && pending.None? && batch != []
      modifies this`batch, this`pending, this`departureTx, this`crashed, this`notes
      ensures Valid() && State() == Result(old(State()), Look, text)
      ensures old(batch)[0].Added? && old(batch)[0].key in knownPeers.entries ==>
                pending == Some((old(batch)[0].key, knownPeers.entries[old(batch)[0].key].identity))
      ensures var event := old(batch)[0];
              if event.Removed? && event.key !in knownPeers.entries
              then departureTx == AfterSend(old(departureTx), event.key).left
                   && crashed == (old(crashed) || AfterSend(old(departureTx), event.key).panicked)
              else departureTx == old(departureTx) && crashed == old(crashed)
    {
      var event := batch[0];
      batch := batch[1..];
      match event {
        case Added(addr) =>
          if addr in knownPeers.entries {
            pending := Some((addr, knownPeers.entries[addr].identity));
          }
        case Updated(_, _, _) =>
        case Removed(addr) =>
          if addr !in knownPeers.entries {
            var sent := SendToAll(departureTx, addr);
            departureTx, crashed := sent.left, crashed || sent.panicked;
            notes := notes + [Departed(addr)];
          }
      }
    }

    /** The discovery goes out after the lock was released, whatever has happened to the map since. */
    method AnnounceDiscovery()
      requires Valid() && pending.Some?
      modifies this`pending, this`discoveryTx, this`crashed, this`notes
      ensures Valid() && State() == Result(old(State()), Announce, text)
      ensures var sent := AfterSend(old(discoveryTx), old(pending).value);
              discoveryTx == sent.left && crashed == (old(crashed) || sent.panicked)
    {
      var sent := SendToAll(discoveryTx, pending.value);
      discoveryTx, crashed := sent.left, crashed || sent.panicked;
      notes := notes + [Discovered(pending.value.0, pending.value.1)];
      pending := None;
    }

    /** After a batch: tell fingerprint listeners, if the map is not empty and they were told another. */
    method FinishBatch()
      requires Valid() && working && pending.None? && batch == []
      modifies this`working, this`fingerprint, this`fingerprintTx, this`crashed, this`notes
      ensures Valid() && State() == Result(old(State()), Finish(old(fingerprintTx) != []), text)
      ensures if fingerprint != old(fingerprint)
              then fingerprintTx == AfterSend(old(fingerprintTx), fingerprint).left
                   && crashed == (old(crashed) || AfterSend(old(fingerprintTx), fingerprint).panicked)
              else fingerprintTx == old(fingerprintTx) && crashed == old(crashed)
    {
      working := false;
      if fingerprintTx == [] || knownPeers.entries == map[] {
        return;
      }
      var current := Fingerprint.GenerateFingerprint(text, knownPeers.entries);
      if current != fingerprint {
        TellFingerprint(current);
      }
    }

    method TellFingerprint(current: U32)
      modifies this`fingerprint, this`fingerprintTx, this`crashed, this`notes
      ensures fingerprint == current && notes == old(notes) + [FingerprintChanged(current)]
      ensures fingerprintTx == AfterSend(old(fingerprintTx), current).left
      ensures crashed == (old(crashed) || AfterSend(old(fingerprintTx), current).panicked)
    {
      fingerprint := current;
      var sent := SendToAll(fingerprintTx, current);
      fingerprintTx, crashed := sent.left, crashed || sent.panicked;
      notes := notes + [FingerprintChanged(current)];
    }

    /**
     * One round of the loop when nobody else changes the map meanwhile: afterwards the last word
     * about every address that came or went agrees with the map.
     */
    method HandleBatch()
      requires Valid() && !working && batch == [] && pending.None?
      requires taken < |knownPeers.observers[0].log|
      requires forall a :: Agrees(State(), a)
      modifies this
      ensures Valid() && Drained(State())
      ensures State().known == old(State().known) && State().log == old(State().log)
      ensures forall a :: Agrees(State(), a)
      ensures fingerprint == if old(fingerprintTx) != [] && knownPeers.entries != map[]
                             then Fingerprint.Of(text, ViewOf(knownPeers.entries)) else old(fingerprint)
    {
      ghost var before := State();
      TakeBatch();
      forall a
        ensures Agrees(State(), a)
      {
        TakeAgrees(before, a, text);
      }
      while batch != []
        invariant Valid() && working && pending.None?
        invariant State().known == before.known && State().log == before.log
        invariant taken == |before.log|
        invariant fingerprint == old(fingerprint) && fingerprintTx == old(fingerprintTx)
        invariant forall a :: Agrees(State(), a)
        decreases |batch|
      {
        ghost var seen := State();
        LookAtNext();
        forall a
          ensures Agrees(State(), a)
        {
          LookAgrees(seen, a, text);
        }
        if pending.Some? {
          ghost var looked := State();
          AnnounceDiscovery();
          forall a
            ensures Agrees(State(), a)
          {
            AnnounceAgrees(looked, a, text);
          }
        }
      }
      ghost var done := State();
      FinishBatch();
      forall a
        ensures Agrees(State(), a)
      {
        FinishAgrees(done, old(fingerprintTx) != [], a, text);
      }
    }
  }
}
