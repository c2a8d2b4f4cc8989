/**
 * Runs of the live session registry: what every connection, snapshot, event, lease change and
 * queued closure keeps, over all their interleavings.
 */
module RegistryRuns {
  import opened Wrappers
  import opened Timeline
  import opened Registry

  // ---- runs ----

  function Run<E(==)>(steps: seq<Step<E>>, max: nat): RegistryState<E> {
    if steps == [] then RegistryState(map[], map[], map[], [], [])
    else Next(Run(steps[..|steps| - 1], max), steps[|steps| - 1], max)
  }

  /** A new entry is a new object. */
  predicate Fresh<E(==)>(s: RegistryState<E>, step: Step<E>) {
    step.Connect? && !Known(s, step.id) ==> step.newcomer !in s.store
  }

  predicate Legal<E(==)>(steps: seq<Step<E>>, max: nat) {
    steps == [] ||
    (Legal(steps[..|steps| - 1], max) && Fresh(Run(steps[..|steps| - 1], max), steps[|steps| - 1]))
  }

  // ---- one step, one entry ----

  /** The entry a step is about, if it is one the step may change. */
  predicate Names<E>(s: RegistryState<E>, id: Id, o: E) {
    id in s.entries && s.entries[id] == o
  }

  /** What a step does to one entry. */
  function Moved<E>(s: RegistryState<E>, step: Step<E>, o: E, max: nat): EntryState
    requires o in s.store
  {
    var e := s.store[o];
    match step
    case Connect(id, pid, transport, _) => if Names(s, id, o) then Reconnected(e, pid, transport) else e
    case TakeSnapshot(snap, transport) =>
      if Names(s, snap.process, o) && e.transport == transport && SameIdentity(e, snap) && Accepts(e, snap)
      then Snapshotted(e, snap, max) else e
    case TakeEvent(m, transport) => if Names(s, m.process, o) && e.transport == transport then Heard(e, m, max) else e
    case Disconnect(id, transport) =>
      if Names(s, id, o) && e.transport == transport then if e.summary.None? then Cleared(e) else Lost(e) else e
    case Detach(id, only) =>
      if Names(s, id, o) && (only.None? || only.value == e.transport) then Cleared(e) else e
    case ClaimReply(entry, client, leaseId, expiresAt) =>
      if entry == o && e.summary.Some? && leaseId.Some? && leaseId.value != ""
      then WithClaim(e.(leaseOwner := Some(client)), Claim(true, leaseId, expiresAt)) else e
    case RenewReply(entry, expiresAt) =>
      if entry == o && e.summary.Some? then WithClaim(e, e.summary.value.claim.(expiresAt := expiresAt)) else e
    case DropLease(entry) => if entry == o then Cleared(e) else e
    case _ => e
  }

  lemma StepMoves<E>(s: RegistryState<E>, step: Step<E>, o: E, max: nat)
    requires o in s.store && Fresh(s, step)
    ensures o in Next(s, step, max).store && Next(s, step, max).store[o] == Moved(s, step, o, max)
  {
    hide Snapshotted, Heard, Cleared, WithClaim, Reconnected, Lost, Accepts, SameIdentity, Permitted, Dispatchable,
      Orphan;
  }

  /** Only a connection adds an entry, and it adds a blank one. */
  lemma StepAdds<E>(s: RegistryState<E>, step: Step<E>, o: E, max: nat)
    requires o !in s.store && o in Next(s, step, max).store
    ensures step.Connect? && step.newcomer == o
    ensures Next(s, step, max).store[o] == NewEntry(step.id, step.pid, step.transport)
  {
    hide Snapshotted, Heard, Cleared, WithClaim, Reconnected, Lost, Accepts, SameIdentity, Permitted, Dispatchable,
      Orphan;
  }

  /** A detached entry never comes back. */
  lemma StepNames<E>(s: RegistryState<E>, step: Step<E>, id: Id, o: E, max: nat)
    requires o in s.store && Fresh(s, step) && Names(Next(s, step, max), id, o)
    ensures Names(s, id, o)
  {
    hide Snapshotted, Heard, Cleared, WithClaim, Reconnected, Lost, Accepts, SameIdentity, Permitted, Dispatchable,
      Orphan;
  }

  /** Every registered entry is a known one, on every run. */
  lemma {:induction false} EntriesAreKnown<E>(steps: seq<Step<E>>, max: nat)
    requires Legal(steps, max)
    ensures forall id :: id in Run(steps, max).entries ==> Run(steps, max).entries[id] in Run(steps, max).store
  {
    if steps == [] {
    } else {
      var n := |steps| - 1;
      var s, t := Run(steps[..n], max), Run(steps, max);
      EntriesAreKnown(steps[..n], max);
      StepEntries(s, steps[n], max);
      forall id | id in t.entries ensures t.entries[id] in t.store {
        if id in s.entries && s.entries[id] == t.entries[id] { StepMoves(s, steps[n], t.entries[id], max); }
      }
    }
  }

  lemma StepEntries<E>(s: RegistryState<E>, step: Step<E>, max: nat)
    ensures var t := Next(s, step, max);
            forall id :: id in t.entries && !(id in s.entries && s.entries[id] == t.entries[id]) ==>
                           t.entries[id] in t.store
  {
    hide Snapshotted, Heard, Cleared, WithClaim, Reconnected, Lost, Accepts, SameIdentity, Permitted, Dispatchable,
      Orphan;
  }

  // ---- the cursor and the timeline ----

  /** The snapshot an entry was last given, and the connection it came on. */
  datatype Base = Base(rows: seq<Row>, sequence: int, revision: int, connection: nat, transport: Transport)

  /** What the outside world saw of an entry: how often it reconnected, the last snapshot answered yes, and every
      event answered yes since then. */
  datatype History = History(connections: nat, base: Option<Base>, events: seq<EventMessage>)

  function HistoryOf<E>(hs: map<E, History>, o: E): History {
    if o in hs then hs[o] else History(0, None, [])
  }

  function Track<E>(hs: map<E, History>, s: RegistryState<E>, step: Step<E>): map<E, History> {
    match step
    case Connect(id, _, _, newcomer) =>
      if !Known(s, id) then hs[newcomer := History(0, None, [])]
      else var h := HistoryOf(hs, s.entries[id]); hs[s.entries[id] := h.(connections := h.connections + 1)]
    case TakeSnapshot(snap, transport) =>
      if SnapshotAnswer(s, snap, transport) != Ok(true) then hs
      else
        var h := HistoryOf(hs, s.entries[snap.process]);
        var base := Base(snap.rows, snap.sequence, snap.revision, h.connections, transport);
        hs[s.entries[snap.process] := h.(base := Some(base), events := [])]
    case TakeEvent(m, transport) =>
      if EventAnswer(s, m, transport) != Ok(true) then hs
      else var h := HistoryOf(hs, s.entries[m.process]); hs[s.entries[m.process] := h.(events := h.events + [m])]
    case _ => hs
  }

  function Log<E(==)>(steps: seq<Step<E>>, max: nat): map<E, History> {
    if steps == [] then map[]
    else Track(Log(steps[..|steps| - 1], max), Run(steps[..|steps| - 1], max), steps[|steps| - 1])
  }

  function Payloads(ms: seq<EventMessage>): (es: seq<Event>)
    ensures |es| == |ms|
  {
    if ms == [] then [] else Payloads(ms[..|ms| - 1]) + [ms[|ms| - 1].event]
  }

  /** The events are numbered from just after the snapshot, without gap or repetition. */
  predicate Consecutive(ms: seq<EventMessage>, start: int) {
    forall i :: 0 <= i < |ms| ==> ms[i].sequence == start + 1 + i
  }

  predicate CursorAgrees(e: EntryState, h: History, max: nat) {
    h.base.Some? && var b := h.base.value;
    && b.connection <= h.connections && (b.connection == h.connections ==> b.transport == e.transport)
    && e.rows == AppendAll(Window(b.rows, max), Payloads(h.events), max)
    && Consecutive(h.events, b.sequence) && e.sequence == b.sequence + |h.events| && e.revision == b.revision
  }

  predicate Current(h: History) {
    h.base.Some? && h.base.value.connection == h.connections
  }

  predicate Faithful(e: EntryState, h: History, max: nat) {
    && (h.base.Some? ==> CursorAgrees(e, h, max))
    && (e.summary.Some? <==> h.base.Some?)
    && (e.summary.Some? ==> e.summary.value.revision == e.revision && e.summary.value.eventSequence == e.sequence)
    && (e.cursorStale <==> !Current(h)) && (e.cursorStale ==> e.awaitingResync)
  }

  /** A step that touches only the lease, the status or the waiting flag. */
  lemma LeaseKeepsFaithful(e: EntryState, e': EntryState, h: History, max: nat)
    requires Faithful(e, h, max)
    requires e'.rows == e.rows && e'.sequence == e.sequence && e'.revision == e.revision && e'.transport == e.transport
    requires e'.cursorStale == e.cursorStale && (e.awaitingResync ==> e'.awaitingResync)
    requires e'.summary.Some? == e.summary.Some?
    requires e.summary.Some? ==> e'.summary.value.revision == e.summary.value.revision &&
                                 e'.summary.value.eventSequence == e.summary.value.eventSequence
    ensures Faithful(e', h, max)
  {
    hide AppendAll, Payloads, Consecutive, Window;
  }

  lemma ReconnectKeepsFaithful(e: EntryState, h: History, pid: int, transport: Transport, max: nat)
    requires Faithful(e, h, max)
    ensures Faithful(Reconnected(e, pid, transport), h.(connections := h.connections + 1), max)
  {
    hide AppendAll, Payloads, Consecutive, Window;
  }

  lemma SnapshotIsFaithful(e: EntryState, h: History, snap: Snapshot, max: nat)
    requires SameIdentity(e, snap)
    ensures Faithful(Snapshotted(e, snap, max),
                     h.(base := Some(Base(snap.rows, snap.sequence, snap.revision, h.connections, e.transport)),
                        events := []),
                     max)
  {
    hide Window, Orphan;
  }

  lemma EventKeepsFaithful(e: EntryState, h: History, m: EventMessage, max: nat)
    requires Faithful(e, h, max)
    ensures Faithful(Heard(e, m, max), if Follows(e, m) then h.(events := h.events + [m]) else h, max)
  {
    hide AppendAll, Payloads, Window, Append, Capped;
    if Follows(e, m) {
      var ms, b := h.events + [m], h.base.value;
      assert ms[..|ms| - 1] == h.events;
      PayloadsPush(h.events, m);
      AppendAllPush(Window(b.rows, max), Payloads(h.events), m.event, max);
    }
  }

  lemma PayloadsPush(ms: seq<EventMessage>, m: EventMessage)
    ensures Payloads(ms + [m]) == Payloads(ms) + [m.event]
  {
    assert (ms + [m])[..|ms|] == ms;
  }

  lemma AppendAllPush(t: seq<Row>, es: seq<Event>, e: Event, max: nat)
    ensures AppendAll(t, es + [e], max) == Capped(Append(AppendAll(t, es, max), e), max)
  {
    hide Append, Capped;
    assert (es + [e])[..|es|] == es;
  }

  /** Steps other than a connection, a snapshot or an event leave rows and cursor alone. */
  lemma LeaseOnly<E>(s: RegistryState<E>, step: Step<E>, o: E, max: nat)
    requires o in s.store && !step.Connect? && !step.TakeSnapshot? && !step.TakeEvent?
    ensures var e, e' := s.store[o], Moved(s, step, o, max);
            && e'.rows == e.rows && e'.sequence == e.sequence && e'.revision == e.revision
            && e'.transport == e.transport && e'.cursorStale == e.cursorStale
            && (e.awaitingResync ==> e'.awaitingResync) && e'.summary.Some? == e.summary.Some?
            && (e.summary.Some? ==> e'.summary.value.revision == e.summary.value.revision &&
                                    e'.summary.value.eventSequence == e.summary.value.eventSequence)
  {
    hide Heard, Snapshotted, Reconnected, Accepts, SameIdentity;
  }

  lemma StepKeepsFaithful<E>(hs: map<E, History>, s: RegistryState<E>, step: Step<E>, o: E, max: nat)
    requires o in s.store && Fresh(s, step) && Faithful(s.store[o], HistoryOf(hs, o), max)
    requires forall id :: id in s.entries ==> s.entries[id] in s.store
    ensures Faithful(Moved(s, step, o, max), HistoryOf(Track(hs, s, step), o), max)
  {
    hide Faithful, Heard, Snapshotted, Reconnected, Accepts, Follows, SameIdentity, Gap, Switched;
    var e, h := s.store[o], HistoryOf(hs, o);
    match step
    case Connect(id, pid, transport, _) =>
      if Names(s, id, o) { ReconnectKeepsFaithful(e, h, pid, transport, max); }
    case TakeSnapshot(snap, transport) =>
      if Names(s, snap.process, o) && e.transport == transport && SameIdentity(e, snap) && Accepts(e, snap) {
        SnapshotIsFaithful(e, h, snap, max);
      }
    case TakeEvent(m, transport) =>
      if Names(s, m.process, o) && e.transport == transport { EventKeepsFaithful(e, h, m, max); }
    case _ =>
      LeaseOnly(s, step, o, max);
      LeaseKeepsFaithful(e, Moved(s, step, o, max), h, max);
  }

  /** Over every run, each entry's cursor and timeline agree with its history. */
  lemma {:induction false} RunIsFaithful<E>(steps: seq<Step<E>>, max: nat, o: E)
    requires Legal(steps, max) && o in Run(steps, max).store
    ensures Faithful(Run(steps, max).store[o], HistoryOf(Log(steps, max), o), max)
  {
    hide Faithful, Next, Track;
    if steps == [] {
    } else {
      var n := |steps| - 1;
      var s, hs := Run(steps[..n], max), Log(steps[..n], max);
      if o in s.store {
        RunIsFaithful(steps[..n], max, o);
        EntriesAreKnown(steps[..n], max);
        StepMoves(s, steps[n], o, max);
        StepKeepsFaithful(hs, s, steps[n], o, max);
      } else {
        StepAdds(s, steps[n], o, max);
        BlankIsFaithful(hs, s, steps[n], o, max);
      }
    }
  }

  lemma BlankIsFaithful<E>(hs: map<E, History>, s: RegistryState<E>, step: Step<E>, o: E, max: nat)
    requires o !in s.store && step.Connect? && step.newcomer == o && o in Next(s, step, max).store
    ensures Faithful(NewEntry(step.id, step.pid, step.transport), HistoryOf(Track(hs, s, step), o), max)
  {
  }

  /** A summary and its timeline are always the last accepted snapshot, folded with exactly the events numbered from
      just after it up to the cursor; and while no snapshot is awaited, that snapshot came on the current connection. */
  lemma TimelineIsSnapshotThenEvents<E>(steps: seq<Step<E>>, max: nat, o: E)
    requires Legal(steps, max) && o in Run(steps, max).store && Run(steps, max).store[o].summary.Some?
    ensures var e, h := Run(steps, max).store[o], HistoryOf(Log(steps, max), o);
            && h.base.Some?
            && e.rows == AppendAll(Window(h.base.value.rows, max), Payloads(h.events), max)
            && Consecutive(h.events, h.base.value.sequence)
            && e.summary.value.eventSequence == e.sequence == h.base.value.sequence + |h.events|
            && e.summary.value.revision == e.revision == h.base.value.revision
            && (!e.awaitingResync ==> Current(h) && h.base.value.transport == e.transport)
  {
    hide AppendAll, Payloads, Consecutive, Window;
    RunIsFaithful(steps, max, o);
  }

  /** A snapshot of the right process is refused exactly when it neither switches the session, nor is the first one on
      its connection, nor is newer; so a reconnected process whose numbering restarted is never stranded. */
  lemma SnapshotIsTakenExactly<E>(steps: seq<Step<E>>, max: nat, snap: Snapshot, transport: Transport)
    requires Legal(steps, max) && Connected(Run(steps, max), snap.process, transport)
    requires SameIdentity(Run(steps, max).store[Run(steps, max).entries[snap.process]], snap)
    ensures var s := Run(steps, max);
            var o := s.entries[snap.process];
            SnapshotAnswer(s, snap, transport) ==
            Ok(Switches(s.store[o], snap) || !Current(HistoryOf(Log(steps, max), o)) ||
               snap.revision > HistoryOf(Log(steps, max), o).base.value.revision)
  {
    hide AppendAll, Payloads, Consecutive, Window, Switches, SameIdentity, Next;
    RunIsFaithful(steps, max, Run(steps, max).entries[snap.process]);
  }

  // ---- leases ----

  predicate Owned(e: EntryState) {
    (e.summary.Some? && e.summary.value.claim.claimed && e.summary.value.claim.leaseId.Some? &&
     e.summary.value.claim.leaseId.value != "") ==> e.leaseOwner.Some?
  }

  lemma MovedIsOwned<E>(s: RegistryState<E>, step: Step<E>, o: E, max: nat)
    requires o in s.store && Owned(s.store[o])
    ensures Owned(Moved(s, step, o, max))
  {
    hide Append, Capped, Window, Accepts, SameIdentity, Switches;
  }

  /** A session shown as claimed with a lease id always has a recorded owner. */
  lemma {:induction false} ClaimsAreOwned<E>(steps: seq<Step<E>>, max: nat, o: E)
    requires Legal(steps, max) && o in Run(steps, max).store
    ensures Owned(Run(steps, max).store[o])
  {
    hide Owned, Next, Moved;
    if steps == [] {
    } else {
      var n := |steps| - 1;
      var s := Run(steps[..n], max);
      if o in s.store {
        ClaimsAreOwned(steps[..n], max, o);
        StepMoves(s, steps[n], o, max);
        MovedIsOwned(s, steps[n], o, max);
      } else {
        StepAdds(s, steps[n], o, max);
        BlankIsOwned(steps[n].id, steps[n].pid, steps[n].transport);
      }
    }
  }

  lemma BlankIsOwned(id: Id, pid: int, transport: Transport)
    ensures Owned(NewEntry(id, pid, transport))
  {
  }

  // ---- remote inputs ----

  /** What stays true of an entry between two moments with the same generation. */
  predicate Held(e: EntryState, generation: nat, session: string, transport: Transport) {
    e.generation == generation && e.summary.Some? && e.summary.value.session == session && e.transport == transport
  }

  /** Reconnections and session switches raise the generation; nothing else moves the session or the connection. */
  lemma GenerationGuards<E>(s: RegistryState<E>, step: Step<E>, o: E, max: nat)
    requires o in s.store
    ensures var e, e' := s.store[o], Moved(s, step, o, max);
            && e.generation <= e'.generation
            && (e.generation == e'.generation && e.summary.Some? && e.summary.value.session != "" ==>
                  Held(e', e.generation, e.summary.value.session, e.transport))
  {
    hide Append, Capped, Window, Accepts, SameIdentity, HasOwner, Snapshotted, Heard;
    match step
    case TakeSnapshot(snap, _) => SnapshotGuards(s.store[o], snap, max);
    case TakeEvent(m, _) => EventGuards(s.store[o], m, max);
    case _ =>
  }

  lemma SnapshotGuards(e: EntryState, snap: Snapshot, max: nat)
    ensures var e' := Snapshotted(e, snap, max);
            && e'.transport == e.transport && e.generation <= e'.generation
            && (e.generation == e'.generation && e.summary.Some? && e.summary.value.session != "" ==>
                  Held(e', e.generation, e.summary.value.session, e.transport))
  {
    hide Window, HasOwner, SameIdentity;
  }

  lemma EventGuards(e: EntryState, m: EventMessage, max: nat)
    ensures var e' := Heard(e, m, max);
            && e'.transport == e.transport && e.generation == e'.generation
            && (e.summary.Some? ==> e'.summary.Some? && e'.summary.value.session == e.summary.value.session)
  {
    hide Append, HasOwner;
  }

  predicate HeldAt<E(==)>(s: RegistryState<E>, item: Item<E>, transport: Transport)
    requires item.Remote?
  {
    item.entry in s.store && Names(s, item.id, item.entry) &&
    Held(s.store[item.entry], item.generation, item.session, transport)
  }

  /** Going back from a moment at which the entry is registered under its old generation. */
  lemma {:induction false} HeldBackwards<E>(steps: seq<Step<E>>, j: nat, item: Item<E>, transport: Transport, max: nat)
    requires Legal(steps, max) && j <= |steps| && item.Remote? && item.session != ""
    requires HeldAt(Run(steps[..j], max), item, transport)
    requires item.entry in Run(steps, max).store ==> Run(steps, max).store[item.entry].generation <= item.generation
    requires Names(Run(steps, max), item.id, item.entry)
    ensures forall k :: j <= k <= |steps| ==> HeldAt(Run(steps[..k], max), item, transport)
    decreases |steps|
  {
    hide Next, Held, Moved, Fresh;
    var n := |steps|;
    assert steps[..n] == steps;
    if j < n {
      var before := steps[..n - 1];
      assert forall k :: 0 <= k < n ==> before[..k] == steps[..k];
      StillKnown(before, j, item.entry, max) by { assert before[..j] == steps[..j]; }
      var s := Run(before, max);
      StepMoves(s, steps[n - 1], item.entry, max);
      StepNames(s, steps[n - 1], item.id, item.entry, max);
      GenerationGuards(s, steps[n - 1], item.entry, max);
      HeldBackwards(before, j, item, transport, max);
      assert HeldAt(Run(before[..n - 1], max), item, transport);
      HeldAgain(s, steps[n - 1], item, transport, max);
    }
  }

  lemma {:induction false} StillKnown<E>(steps: seq<Step<E>>, j: nat, o: E, max: nat)
    requires Legal(steps, max) && j <= |steps| && o in Run(steps[..j], max).store
    ensures o in Run(steps, max).store
  {
    hide Next;
    var n := |steps|;
    assert steps[..n] == steps;
    if j < n {
      assert steps[..n - 1][..j] == steps[..j];
      StillKnown(steps[..n - 1], j, o, max);
      StepMoves(Run(steps[..n - 1], max), steps[n - 1], o, max);
    }
  }

  lemma HeldAgain<E>(s: RegistryState<E>, step: Step<E>, item: Item<E>, transport: Transport, max: nat)
    requires item.Remote? && item.session != "" && Fresh(s, step) && HeldAt(s, item, transport)
    requires Names(Next(s, step, max), item.id, item.entry)
    requires Moved(s, step, item.entry, max).generation <= item.generation
    ensures HeldAt(Next(s, step, max), item, transport)
  {
    hide Next, Moved;
    StepMoves(s, step, item.entry, max);
    GenerationGuards(s, step, item.entry, max);
  }

  /** The step that put a closure on the queue. */
  predicate AdmittedAt<E(==)>(steps: seq<Step<E>>, j: nat, item: Item<E>, max: nat) {
    j < |steps| && steps[j].SendRemote? && Admits(Run(steps[..j], max), steps[j]) &&
    Ticket(Run(steps[..j], max), steps[j]) == item
  }

  lemma StepQueues<E>(s: RegistryState<E>, step: Step<E>, item: Item<E>, max: nat)
    requires item.Remote? && item in Next(s, step, max).queue
    ensures item in s.queue || (step.SendRemote? && Admits(s, step) && Ticket(s, step) == item)
  {
    hide Snapshotted, Heard, Cleared, WithClaim, Reconnected, Lost, Accepts, SameIdentity, Permitted, Dispatchable,
      Orphan;
  }

  lemma {:induction false} QueuedWasAdmitted<E>(steps: seq<Step<E>>, item: Item<E>, max: nat) returns (j: nat)
    requires item.Remote? && item in Run(steps, max).queue
    ensures AdmittedAt(steps, j, item, max)
  {
    hide Next, Admits, Ticket;
    var n := |steps| - 1;
    if item in Run(steps[..n], max).queue {
      j := QueuedWasAdmitted(steps[..n], item, max);
      assert steps[..n][..j] == steps[..j];
    } else {
      StepQueues(Run(steps[..n], max), steps[n], item, max);
      j := n;
    }
  }

  /** The entry is the registered one, attached and up to date, for this session, which no operation has to itself; and
      the client holds a lease of this id on it that has not run out. */
  predicate HoldsLease<E(==)>(s: RegistryState<E>, o: E, id: Id, session: string, client: string, lease: string,
                              now: int) {
    && Names(s, id, o) && o in s.store && session !in s.operations
    && var e := s.store[o];
    && e.attached && e.summary.Some? && !e.awaitingResync && e.leaseOwner == Some(client)
    && var shown := e.summary.value;
    && shown.session == session && shown.claim.claimed && shown.claim.leaseId == Some(lease)
    && shown.claim.expiresAt.Millis? && shown.claim.expiresAt.ms > now
  }

  /** When a queued remote input is sent, the check holds at that moment, the closure was admitted earlier under the
      same check, and from then on the entry never left the registry, never reconnected and never switched session: the
      text that was given goes out on the very connection, and for the very session, it was accepted for, while the
      client that gave it holds the lease it named. */
  lemma RemoteInputIsSafe<E>(steps: seq<Step<E>>, index: nat, now: int, max: nat) returns (j: nat)
    requires Legal(steps, max) && index < |Run(steps, max).queue| && Run(steps, max).queue[index].Remote?
    requires Ran(Run(steps, max), index, now).sent != Run(steps, max).sent
    ensures var s := Run(steps, max);
            var item := s.queue[index];
            && Permitted(s, item, now) && AdmittedAt(steps, j, item, max)
            && var transport := Run(steps[..j], max).store[item.entry].transport;
            && (forall k :: j <= k <= |steps| ==> HeldAt(Run(steps[..k], max), item, transport))
            && Ran(s, index, now).sent == s.sent + [Sent(item.entry, transport, Input(item.text))]
    ensures j < |steps| && steps[j].SendRemote? && steps[j].wellFormed
    ensures var s, t, given, o := Run(steps, max), Run(steps[..j], max), steps[j], Run(steps, max).queue[index].entry;
            && HoldsLease(t, o, given.id, given.session, given.client, given.lease, given.now)
            && HoldsLease(s, o, given.id, given.session, given.client, given.lease, now)
            && s.store[o].generation == t.store[o].generation && s.store[o].transport == t.store[o].transport
            && Ran(s, index, now).sent == s.sent + [Sent(o, t.store[o].transport, Input(given.text))]
  {
    hide Next;
    var s := Run(steps, max);
    var item := s.queue[index];
    j := QueuedWasAdmitted(steps, item, max);
    var transport := Run(steps[..j], max).store[item.entry].transport;
    HeldBackwards(steps, j, item, transport, max);
    assert steps[..|steps|] == steps;
    assert HeldAt(Run(steps[..|steps|], max), item, transport);
  }

  // ---- operations that have a session to themselves ----

  predicate Operating<E>(s: RegistryState<E>, session: string) {
    session in s.operations
  }

  /** No step puts another operation in the place of one that has the session. */
  lemma OperationIsKept<E>(s: RegistryState<E>, step: Step<E>, session: string, max: nat)
    requires Operating(s, session) && Operating(Next(s, step, max), session)
    ensures Next(s, step, max).operations[session].entry == s.operations[session].entry
    ensures s.operations[session].begun ==> Next(s, step, max).operations[session].begun
  {
    hide Snapshotted, Heard, Cleared, WithClaim, Reconnected, Lost, Accepts, SameIdentity, Permitted, Orphan;
  }

  /** What a step puts on the queue, it puts there for sessions without an operation. */
  lemma QueuedOutside<E>(s: RegistryState<E>, step: Step<E>, item: Item<E>, max: nat)
    requires item in Next(s, step, max).queue && item !in s.queue
    ensures var t := Next(s, step, max);
            item.entry in t.store && t.store[item.entry].summary.Some? &&
            !Operating(s, t.store[item.entry].summary.value.session)
  {
    hide Snapshotted, Heard, Cleared, WithClaim, Reconnected, Lost, Accepts, SameIdentity, Orphan;
  }

  /** As long as an operation has a session, it stays the same one, no command is accepted for the session, and no
      remote input is sent to it, not even one that was queued before. */
  lemma OperationStandsAlone<E>(steps: seq<Step<E>>, i: nat, j: nat, session: string, max: nat)
    requires i <= j < |steps| && forall k :: i <= k <= j ==> Operating(Run(steps[..k], max), session)
    ensures var s, t := Run(steps[..j], max), Run(steps[..j + 1], max);
            && Operating(s, session) && Operating(Run(steps[..i], max), session)
            && s.operations[session].entry == Run(steps[..i], max).operations[session].entry
            && (forall item :: item in t.queue && item !in s.queue ==>
                  item.entry in t.store && t.store[item.entry].summary.Some? &&
                  t.store[item.entry].summary.value.session != session)
            && (SendsTo(s, steps[j], session) ==> t.sent == s.sent)
  {
    hide Next;
    StaysOperating(steps, i, j, session, max);
    assert steps[..j + 1][..j] == steps[..j];
    var s, t := Run(steps[..j], max), Run(steps[..j + 1], max);
    assert Operating(s, session) && t == Next(s, steps[j], max);
    forall item | item in t.queue && item !in s.queue
      ensures item.entry in t.store && t.store[item.entry].summary.Some?
      ensures t.store[item.entry].summary.value.session != session
    {
      QueuedOutside(s, steps[j], item, max);
    }
    if SendsTo(s, steps[j], session) { InputHeldBack(s, steps[j], session, max); }
  }

  /** The step runs the closure of a remote input for this session. */
  predicate SendsTo<E>(s: RegistryState<E>, step: Step<E>, session: string) {
    step.RunItem? && step.index < |s.queue| && s.queue[step.index].Remote? && s.queue[step.index].session == session
  }

  lemma InputHeldBack<E>(s: RegistryState<E>, step: Step<E>, session: string, max: nat)
    requires Operating(s, session) && SendsTo(s, step, session)
    ensures Next(s, step, max).sent == s.sent
  {
  }

  lemma {:induction false} StaysOperating<E>(steps: seq<Step<E>>, i: nat, j: nat, session: string, max: nat)
    requires i <= j <= |steps| && forall k :: i <= k <= j ==> Operating(Run(steps[..k], max), session)
    ensures Operating(Run(steps[..j], max), session) && Operating(Run(steps[..i], max), session)
    ensures Run(steps[..j], max).operations[session].entry == Run(steps[..i], max).operations[session].entry
    decreases j - i
  {
    hide Next;
    if i == j {
    } else {
      StaysOperating(steps, i, j - 1, session, max);
      assert steps[..j][..j - 1] == steps[..j - 1];
      assert Operating(Run(steps[..j - 1], max), session) && Operating(Run(steps[..j], max), session);
      OperationIsKept(Run(steps[..j - 1], max), steps[j - 1], session, max);
    }
  }

  /** An operation begins exactly when its entry is still the registered one, attached, with the session it asked
      for. */
  lemma OperationBeginsExactly<E>(s: RegistryState<E>, session: string, max: nat)
    requires Operating(s, session) && !s.operations[session].begun
    ensures var t := Next(s, BeginOperation(session), max);
            Operating(t, session) <==>
            var op := s.operations[session];
            Names(s, op.id, op.entry) && op.entry in s.store && Available(s.store[op.entry]) &&
            s.store[op.entry].summary.value.session == session
    ensures Operating(Next(s, BeginOperation(session), max), session) ==>
              Next(s, BeginOperation(session), max).operations[session].begun
  {
  }
}
