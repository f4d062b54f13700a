/**
 * The task that turns map events into discovery, departure and fingerprint notifications. It
 * looks at the map as it is when it gets to an event, not as it was when the event happened, and
 * the map goes on changing between any two of its critical sections.
 */
module Events {
  import opened Basics
  import opened Types
  import opened ObservableHashMap
  import opened EventLog
  import Fingerprint

  type PeerEvent = Event<Addr, PeerInfo>

  datatype Note =
    | Discovered(addr: Addr, identity: Bytes)
    | Departed(addr: Addr)
    | FingerprintChanged(fingerprint: U32)

  /**
   * The task: how many events it has taken from its channel, what is left of the batch it is
   * working on, the discovery it has looked up but not sent, and what it has sent.
   */
  datatype Task = Task(
    taken: nat,
    working: bool,
    batch: seq<PeerEvent>,
    pending: Option<(Addr, Bytes)>,
    fingerprint: U32,
    notes: seq<Note>
  )

  datatype World = World(known: PeerMap, log: seq<PeerEvent>, task: Task)

  datatype Act =
    | Change(op: Op<Addr, PeerInfo>)  // anybody changes the map
    | Take                            // receive one event, and all others that are ready
    | Look                            // look at the next event of the batch, under the map's lock
    | Announce                        // send the discovery that was looked up
    | Finish(listened: bool)          // the batch is done: compare fingerprints for a listener

  const IDLE := Task(0, false, [], None, 0, [])

  /** The critical section for one event, `known` being the map at that time. */
  function LookAt(task: Task, known: PeerMap, event: PeerEvent): Task {
    match event
    case Added(a) =>
      if a in known then task.(pending := Some((a, known[a].identity))) else task
    case Updated(_, _, _) => task
    case Removed(a) =>
      if a in known then task else task.(notes := task.notes + [Departed(a)])
  }

  function Announced(task: Task): Task
    requires task.pending.Some?
  {
    task.(pending := None,
          notes := task.notes + [Discovered(task.pending.value.0, task.pending.value.1)])
  }

  ghost function Compared(task: Task, known: PeerMap, listened: bool, text: Addr -> Bytes): Task {
    var current := Fingerprint.Of(text, ViewOf(known));
    if !listened || known == map[] || current == task.fingerprint then task
    else task.(fingerprint := current, notes := task.notes + [FingerprintChanged(current)])
  }

  ghost predicate Possible(w: World, act: Act) {
    match act
    case Change(_) => true
    case Take => !w.task.working && w.task.taken < |w.log|
    case Look => w.task.working && w.task.pending.None? && w.task.batch != []
    case Announce => w.task.pending.Some?
    case Finish(_) => w.task.working && w.task.pending.None? && w.task.batch == []
  }

  ghost function Result(w: World, act: Act, text: Addr -> Bytes): World
    requires Possible(w, act) && w.task.taken <= |w.log|
  {
    match act
    case Change(op) => w.(known := Apply(w.known, op), log := w.log + Reports(w.known, op))
    case Take => w.(task := w.task.(working := true, batch := w.log[w.task.taken..], taken := |w.log|))
    case Look => w.(task := LookAt(w.task, w.known, w.task.batch[0]).(batch := w.task.batch[1..]))
    case Announce => w.(task := Announced(w.task))
    case Finish(listened) => w.(task := Compared(w.task, w.known, listened, text).(working := false))
  }

  /** Any interleaving of map operations with the sections of the task, from the time it starts. */
  ghost predicate IsHistory(ws: seq<World>, acts: seq<Act>, text: Addr -> Bytes) {
    && |ws| == |acts| + 1
    && ws[0].log == [] && ws[0].task == IDLE
    && (forall i: nat :: i < |acts| ==> Follows(ws, acts, text, i))
  }

  ghost predicate Follows(ws: seq<World>, acts: seq<Act>, text: Addr -> Bytes, i: nat) {
    && i < |acts| && i + 1 < |ws|
    && Possible(ws[i], acts[i]) && ws[i].task.taken <= |ws[i].log|
    && ws[i + 1] == Result(ws[i], acts[i], text)
  }

  // Last words about an address.

  /** Whether the last event that adds or removes `a` adds it. */
  ghost function LastEvent(log: seq<PeerEvent>, a: Addr): Option<bool> {
    if log == [] then None
    else
      var event := log[|log| - 1];
      if event.key == a && !event.Updated? then Some(event.Added?)
      else LastEvent(log[..|log| - 1], a)
  }

  /** Whether the last notification about `a` is of its discovery. */
  ghost function LastNote(notes: seq<Note>, a: Addr): Option<bool> {
    if notes == [] then None
    else
      var note := notes[|notes| - 1];
      if note.Discovered? && note.addr == a then Some(true)
      else if note.Departed? && note.addr == a then Some(false)
      else LastNote(notes[..|notes| - 1], a)
  }

  lemma {:induction false} LastEventOf(log: seq<PeerEvent>, more: seq<PeerEvent>, a: Addr)
    ensures LastEvent(log + more, a)
         == if LastEvent(more, a).Some? then LastEvent(more, a) else LastEvent(log, a)
  {
    if more == [] {
      assert log + more == log;
    } else {
      assert (log + more)[..|log + more| - 1] == log + more[..|more| - 1];
      LastEventOf(log, more[..|more| - 1], a);
    }
  }

  lemma LastNoteOf(notes: seq<Note>, note: Note, a: Addr)
    ensures LastNote(notes + [note], a)
         == if note.Discovered? && note.addr == a then Some(true)
            else if note.Departed? && note.addr == a then Some(false)
            else LastNote(notes, a)
  {
    assert (notes + [note])[..|notes|] == notes;
  }

  /** The events the task has yet to look at. */
  ghost function Unseen(w: World): seq<PeerEvent>
    requires w.task.taken <= |w.log|
  {
    w.task.batch + w.log[w.task.taken..]
  }

  ghost predicate PendingFor(task: Task, a: Addr) {
    task.pending.Some? && task.pending.value.0 == a
  }

  /**
   * What is unseen about an address, pending, or said last agrees with the map, in this order of
   * precedence.
   */
  ghost predicate Agrees(w: World, a: Addr) {
    && w.task.taken <= |w.log|
    && (!w.task.working ==> w.task.batch == [] && w.task.pending.None?)
    && var unseen := LastEvent(Unseen(w), a);
       && (unseen.Some? ==> unseen.value == (a in w.known))
       && (unseen.None? && PendingFor(w.task, a) ==> a in w.known)
       && (unseen.None? && !PendingFor(w.task, a) && LastEvent(w.log, a).Some? ==>
             LastNote(w.task.notes, a) == Some(a in w.known))
  }

  /** What a change reports about an address is whether it is there afterwards. */
  lemma ReportsPresence(m: PeerMap, op: Op<Addr, PeerInfo>, a: Addr)
    ensures LastEvent(Reports(m, op), a).Some? ==> LastEvent(Reports(m, op), a).value == (a in Apply(m, op))
    ensures LastEvent(Reports(m, op), a).None? ==> (a in Apply(m, op)) == (a in m)
  {
    var more := Reports(m, op);
    assert more != [] ==> more[..0] == [];
  }

  lemma ChangeUnseen(w: World, op: Op<Addr, PeerInfo>, text: Addr -> Bytes)
    requires w.task.taken <= |w.log|
    ensures Unseen(Result(w, Change(op), text)) == Unseen(w) + Reports(w.known, op)
  {
  }

  lemma ChangeAgrees(w: World, op: Op<Addr, PeerInfo>, a: Addr, text: Addr -> Bytes)
    requires Agrees(w, a)
    ensures Agrees(Result(w, Change(op), text), a)
  {
    ReportsPresence(w.known, op, a);
    ChangeUnseen(w, op, text);
    LastEventOf(Unseen(w), Reports(w.known, op), a);
    LastEventOf(w.log, Reports(w.known, op), a);
  }

  lemma TakeAgrees(w: World, a: Addr, text: Addr -> Bytes)
    requires Agrees(w, a) && Possible(w, Take)
    ensures Agrees(Result(w, Take, text), a)
  {
    var w' := Result(w, Take, text);
    assert Unseen(w') == w.log[w.task.taken..] && Unseen(w) == w.log[w.task.taken..];
  }

  lemma LookAgrees(w: World, a: Addr, text: Addr -> Bytes)
    requires Agrees(w, a) && Possible(w, Look)
    ensures Agrees(Result(w, Look, text), a)
  {
    var w' := Result(w, Look, text);
    var event := w.task.batch[0];
    assert Unseen(w) == [event] + Unseen(w');
    LastEventOf([event], Unseen(w'), a);
    assert [event][..0] == [];
    if event.Removed? {
      LastNoteOf(w.task.notes, Departed(event.key), a);
    }
  }

  lemma AnnounceAgrees(w: World, a: Addr, text: Addr -> Bytes)
    requires Agrees(w, a) && Possible(w, Announce)
    ensures Agrees(Result(w, Announce, text), a)
  {
    LastNoteOf(w.task.notes, Discovered(w.task.pending.value.0, w.task.pending.value.1), a);
  }

  lemma FinishAgrees(w: World, listened: bool, a: Addr, text: Addr -> Bytes)
    requires Agrees(w, a) && Possible(w, Finish(listened))
    ensures Agrees(Result(w, Finish(listened), text), a)
  {
    LastNoteOf(w.task.notes, FingerprintChanged(Fingerprint.Of(text, ViewOf(w.known))), a);
  }

  lemma {:induction false} AlwaysAgrees(ws: seq<World>, acts: seq<Act>, text: Addr -> Bytes, k: nat, a: Addr)
    requires IsHistory(ws, acts, text) && k < |ws|
    ensures Agrees(ws[k], a)
  {
    if k > 0 {
      AlwaysAgrees(ws, acts, text, k - 1, a);
      assert Follows(ws, acts, text, k - 1);
      match acts[k - 1] {
        case Change(op) => ChangeAgrees(ws[k - 1], op, a, text);
        case Take => TakeAgrees(ws[k - 1], a, text);
        case Look => LookAgrees(ws[k - 1], a, text);
        case Announce => AnnounceAgrees(ws[k - 1], a, text);
        case Finish(listened) => FinishAgrees(ws[k - 1], listened, a, text);
      }
    }
  }

  /** Nothing left to receive, and nothing in hand. */
  ghost predicate Drained(w: World) {
    !w.task.working && w.task.taken == |w.log|
  }

  /**
   * Notifications converge, under every interleaving: once the queue is drained, the last thing
   * said about an address that ever came or went is its discovery if it is in the map, and its
   * departure if it is not.
   */
  lemma NotificationsConverge(ws: seq<World>, acts: seq<Act>, text: Addr -> Bytes, k: nat, a: Addr)
    requires IsHistory(ws, acts, text) && k < |ws| && Drained(ws[k])
    requires LastEvent(ws[k].log, a).Some?
    ensures LastNote(ws[k].task.notes, a) == Some(a in ws[k].known)
  {
    AlwaysAgrees(ws, acts, text, k, a);
    assert Unseen(ws[k]) == [];
  }

  // What discoveries say.

  /** At step `j` the task looked at an addition of `a`, and the map held `a` under this identity. */
  ghost predicate LookedUp(ws: seq<World>, acts: seq<Act>, j: nat, a: Addr, identity: Bytes) {
    && j < |acts| && j < |ws| && acts[j] == Look
    && ws[j].task.batch != [] && ws[j].task.batch[0] == Added(a)
    && a in ws[j].known && ws[j].known[a].identity == identity
  }

  /** A discovery in hand was looked up. */
  lemma {:induction false} PendingWasLookedUp(ws: seq<World>, acts: seq<Act>, text: Addr -> Bytes, k: nat)
    returns (j: nat)
    requires IsHistory(ws, acts, text) && k < |ws| && ws[k].task.pending.Some?
    ensures j < k && LookedUp(ws, acts, j, ws[k].task.pending.value.0, ws[k].task.pending.value.1)
  {
    hide Fingerprint.Of, Apply, Reports;
    assert k > 0;
    assert Follows(ws, acts, text, k - 1);
    if ws[k - 1].task.pending == ws[k].task.pending {
      j := PendingWasLookedUp(ws, acts, text, k - 1);
    } else {
      j := k - 1;
    }
  }

  /** Every discovery sent carries the identity that the map held when the task looked the peer up. */
  lemma {:induction false} DiscoveredWasLookedUp(ws: seq<World>, acts: seq<Act>, text: Addr -> Bytes, k: nat,
                                                 a: Addr, identity: Bytes) returns (j: nat)
    requires IsHistory(ws, acts, text) && k < |ws| && Discovered(a, identity) in ws[k].task.notes
    ensures j < k && LookedUp(ws, acts, j, a, identity)
  {
    hide Fingerprint.Of, Apply, Reports;
    assert k > 0;
    assert Follows(ws, acts, text, k - 1);
    if Discovered(a, identity) in ws[k - 1].task.notes {
      j := DiscoveredWasLookedUp(ws, acts, text, k - 1, a, identity);
    } else {
      j := PendingWasLookedUp(ws, acts, text, k - 1);
    }
  }

  /** The identity in the last discovery of `a`. */
  ghost function LastIdentity(notes: seq<Note>, a: Addr): Option<Bytes> {
    if notes == [] then None
    else
      var note := notes[|notes| - 1];
      if note.Discovered? && note.addr == a then Some(note.identity)
      else LastIdentity(notes[..|notes| - 1], a)
  }

  lemma LastIdentityOf(notes: seq<Note>, note: Note, a: Addr)
    ensures LastIdentity(notes + [note], a)
         == if note.Discovered? && note.addr == a then Some(note.identity) else LastIdentity(notes, a)
  {
    assert (notes + [note])[..|notes|] == notes;
  }

  /** Unless there is more to see about `a`, what is in hand or was said last is its identity. */
  ghost predicate TellsIdentity(w: World, a: Addr, identity: Bytes) {
    && Agrees(w, a)
    && (LastEvent(Unseen(w), a).None? ==>
          if PendingFor(w.task, a) then w.task.pending.value.1 == identity
          else LastNote(w.task.notes, a) == Some(true) ==> LastIdentity(w.task.notes, a) == Some(identity))
  }

  lemma ChangeTellsIdentity(w: World, op: Op<Addr, PeerInfo>, a: Addr, identity: Bytes, text: Addr -> Bytes)
    requires TellsIdentity(w, a, identity)
    ensures TellsIdentity(Result(w, Change(op), text), a, identity)
  {
    ChangeAgrees(w, op, a, text);
    ChangeUnseen(w, op, text);
    LastEventOf(Unseen(w), Reports(w.known, op), a);
  }

  lemma TakeTellsIdentity(w: World, a: Addr, identity: Bytes, text: Addr -> Bytes)
    requires TellsIdentity(w, a, identity) && Possible(w, Take)
    ensures TellsIdentity(Result(w, Take, text), a, identity)
  {
    TakeAgrees(w, a, text);
    assert Unseen(Result(w, Take, text)) == Unseen(w);
  }

  lemma LookTellsIdentity(w: World, a: Addr, identity: Bytes, text: Addr -> Bytes)
    requires TellsIdentity(w, a, identity) && Possible(w, Look)
    requires a in w.known ==> w.known[a].identity == identity
    ensures TellsIdentity(Result(w, Look, text), a, identity)
  {
    hide Fingerprint.Of, Apply, Reports, Compared;
    LookAgrees(w, a, text);
    var w' := Result(w, Look, text);
    var event := w.task.batch[0];
    assert Unseen(w) == [event] + Unseen(w');
    LastEventOf([event], Unseen(w'), a);
    assert [event][..0] == [];
    if event.Removed? {
      LastNoteOf(w.task.notes, Departed(event.key), a);
      LastIdentityOf(w.task.notes, Departed(event.key), a);
    }
    hide LastNote, LastIdentity;
  }

  lemma AnnounceTellsIdentity(w: World, a: Addr, identity: Bytes, text: Addr -> Bytes)
    requires TellsIdentity(w, a, identity) && Possible(w, Announce)
    ensures TellsIdentity(Result(w, Announce, text), a, identity)
  {
    var note := Discovered(w.task.pending.value.0, w.task.pending.value.1);
    AnnounceAgrees(w, a, text);
    LastNoteOf(w.task.notes, note, a);
    LastIdentityOf(w.task.notes, note, a);
  }

  lemma FinishTellsIdentity(w: World, listened: bool, a: Addr, identity: Bytes, text: Addr -> Bytes)
    requires TellsIdentity(w, a, identity) && Possible(w, Finish(listened))
    ensures TellsIdentity(Result(w, Finish(listened), text), a, identity)
  {
    var note := FingerprintChanged(Fingerprint.Of(text, ViewOf(w.known)));
    FinishAgrees(w, listened, a, text);
    LastNoteOf(w.task.notes, note, a);
    LastIdentityOf(w.task.notes, note, a);
  }

  /** Step `m` adds `a`, and from then on it is held, if at all, under this identity. */
  ghost predicate AddedAs(ws: seq<World>, m: nat, k: nat, a: Addr, identity: Bytes) {
    && m < k < |ws| && a !in ws[m].known && a in ws[m + 1].known
    && forall i: nat :: m < i <= k && a in ws[i].known ==> ws[i].known[a].identity == identity
  }

  lemma AdditionIsUnseen(ws: seq<World>, acts: seq<Act>, text: Addr -> Bytes, m: nat, a: Addr)
    requires IsHistory(ws, acts, text) && m + 1 < |ws| && a !in ws[m].known && a in ws[m + 1].known
    ensures ws[m + 1].task.taken <= |ws[m + 1].log| && LastEvent(Unseen(ws[m + 1]), a).Some?
  {
    assert Follows(ws, acts, text, m);
    var op := acts[m].op;
    ChangeUnseen(ws[m], op, text);
    LastEventOf(Unseen(ws[m]), Reports(ws[m].known, op), a);
    assert Reports(ws[m].known, op) == [Added(a)];
    var added: seq<PeerEvent> := [Added(a)];
    assert added[..0] == [];
  }

  lemma {:induction false} AlwaysTellsIdentity(ws: seq<World>, acts: seq<Act>, text: Addr -> Bytes,
                                               m: nat, k: nat, a: Addr, identity: Bytes)
    requires IsHistory(ws, acts, text) && AddedAs(ws, m, k, a, identity)
    ensures TellsIdentity(ws[k], a, identity)
    decreases k
  {
    hide Fingerprint.Of, TellsIdentity, Agrees, Result;
    if k == m + 1 {
      AdditionTellsIdentity(ws, acts, text, m, a, identity);
    } else {
      AlwaysTellsIdentity(ws, acts, text, m, k - 1, a, identity);
      assert Follows(ws, acts, text, k - 1);
      match acts[k - 1] {
        case Change(op) => ChangeTellsIdentity(ws[k - 1], op, a, identity, text);
        case Take => TakeTellsIdentity(ws[k - 1], a, identity, text);
        case Look => LookTellsIdentity(ws[k - 1], a, identity, text);
        case Announce => AnnounceTellsIdentity(ws[k - 1], a, identity, text);
        case Finish(listened) => FinishTellsIdentity(ws[k - 1], listened, a, identity, text);
      }
    }
  }

  lemma AdditionTellsIdentity(ws: seq<World>, acts: seq<Act>, text: Addr -> Bytes, m: nat,
                              a: Addr, identity: Bytes)
    requires IsHistory(ws, acts, text) && m + 1 < |ws| && a !in ws[m].known && a in ws[m + 1].known
    ensures TellsIdentity(ws[m + 1], a, identity)
  {
    hide IsHistory, Result, LastEvent, LastNote, LastIdentity;
    AlwaysAgrees(ws, acts, text, m + 1, a);
    AdditionIsUnseen(ws, acts, text, m, a);
  }

  /**
   * Identities converge too: if from the addition of a peer on no operation changes its identity,
   * then once the queue is drained its last discovery carries the identity that the map holds.
   */
  lemma IdentitiesConverge(ws: seq<World>, acts: seq<Act>, text: Addr -> Bytes,
                           m: nat, k: nat, a: Addr, identity: Bytes)
    requires IsHistory(ws, acts, text) && AddedAs(ws, m, k, a, identity)
    requires Drained(ws[k]) && a in ws[k].known
    ensures LastIdentity(ws[k].task.notes, a) == Some(ws[k].known[a].identity)
  {
    AlwaysTellsIdentity(ws, acts, text, m, k, a, identity);
    assert Unseen(ws[k]) == [];
    AdditionIsLogged(ws, acts, text, m, k, a);
  }

  lemma {:induction false} AdditionIsLogged(ws: seq<World>, acts: seq<Act>, text: Addr -> Bytes,
                                            m: nat, k: nat, a: Addr)
    requires IsHistory(ws, acts, text) && m < k < |ws| && a !in ws[m].known && a in ws[m + 1].known
    ensures LastEvent(ws[k].log, a).Some?
    decreases k
  {
    hide Fingerprint.Of;
    assert Follows(ws, acts, text, k - 1);
    if k == m + 1 {
      LastEventOf(ws[m].log, [Added(a)], a);
      var added: seq<PeerEvent> := [Added(a)];
    assert added[..0] == [];
    } else {
      AdditionIsLogged(ws, acts, text, m, k - 1, a);
      if acts[k - 1].Change? {
        LastEventOf(ws[k - 1].log, Reports(ws[k - 1].known, acts[k - 1].op), a);
      }
    }
  }

  // Fingerprints.

  ghost predicate FingerprintCurrent(w: World, text: Addr -> Bytes) {
    w.task.fingerprint == Fingerprint.Of(text, ViewOf(w.known))
  }

  lemma SilentChange(m: PeerMap, op: Op<Addr, PeerInfo>)
    requires Reports(m, op) == []
    ensures Apply(m, op) == m
  {
    if op.DoRemove? {
      assert m - {op.key} == m;
    }
  }

  ghost predicate AlwaysListened(acts: seq<Act>) {
    forall i :: 0 <= i < |acts| && acts[i].Finish? ==> acts[i].listened
  }

  ghost predicate FingerprintOk(w: World, text: Addr -> Bytes) {
    && w.task.taken <= |w.log|
    && (Drained(w) && w.log != [] && w.known != map[] ==> FingerprintCurrent(w, text))
  }

  lemma StepKeepsFingerprint(w: World, act: Act, text: Addr -> Bytes)
    requires FingerprintOk(w, text) && Possible(w, act) && (act.Finish? ==> act.listened)
    ensures FingerprintOk(Result(w, act, text), text)
  {
    hide Fingerprint.Of, Apply, Reports;
    match act {
      case Change(op) =>
        if Reports(w.known, op) == [] {
          SilentChange(w.known, op);
          assert w.log + [] == w.log;
        }
      case Announce =>
      case _ =>
    }
  }

  lemma {:induction false} FingerprintFollows(ws: seq<World>, acts: seq<Act>, text: Addr -> Bytes, k: nat)
    requires IsHistory(ws, acts, text) && k < |ws| && AlwaysListened(acts)
    ensures FingerprintOk(ws[k], text)
  {
    if k > 0 {
      FingerprintFollows(ws, acts, text, k - 1);
      assert Follows(ws, acts, text, k - 1);
      StepKeepsFingerprint(ws[k - 1], acts[k - 1], text);
    }
  }

  /** The last fingerprint sent. */
  ghost function LastFingerprint(notes: seq<Note>): U32 {
    if notes == [] then IDLE.fingerprint
    else if notes[|notes| - 1].FingerprintChanged? then notes[|notes| - 1].fingerprint
    else LastFingerprint(notes[..|notes| - 1])
  }

  lemma {:induction false} SentIsRemembered(ws: seq<World>, acts: seq<Act>, text: Addr -> Bytes, k: nat)
    requires IsHistory(ws, acts, text) && k < |ws|
    ensures ws[k].task.fingerprint == LastFingerprint(ws[k].task.notes)
  {
    if k > 0 {
      SentIsRemembered(ws, acts, text, k - 1);
      assert Follows(ws, acts, text, k - 1);
      var before, after := ws[k - 1].task.notes, ws[k].task.notes;
      assert after == before || after[..|after| - 1] == before;
    }
  }

  /**
   * With a fingerprint listener present throughout: once the queue is drained and the map is not
   * empty, the fingerprint sent last is that of the map.
   */
  lemma FingerprintConverges(ws: seq<World>, acts: seq<Act>, text: Addr -> Bytes, k: nat)
    requires IsHistory(ws, acts, text) && k < |ws| && Drained(ws[k]) && AlwaysListened(acts)
    requires ws[k].log != [] && ws[k].known != map[]
    ensures LastFingerprint(ws[k].task.notes) == Fingerprint.Of(text, ViewOf(ws[k].known))
  {
    FingerprintFollows(ws, acts, text, k);
    SentIsRemembered(ws, acts, text, k);
  }
}
