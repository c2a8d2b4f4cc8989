/**
 * What single steps of the live session registry do (backend/live-sessions/registry.ts), said of
 * the fields of an entry, of the queue and of what is sent.
 */
module RegistrySteps {
  import opened Wrappers
  import opened Timeline
  import opened Registry
  import opened RegistryRuns

  // ---- commands ----

  /** The session behind an id can take a command now. */
  predicate Reachable<E(==)>(s: RegistryState<E>, id: Id) {
    && id in s.entries && s.entries[id] in s.store
    && var e := s.store[s.entries[id]];
    && e.attached && e.summary.Some? && !e.awaitingResync && e.summary.value.session !in s.operations
  }

  /** A command is queued as it was given, behind all others, exactly when its session can take one. */
  lemma DispatchesExactly<E>(s: RegistryState<E>, id: Id, command: Command, max: nat)
    ensures Next(s, Dispatch(id, command), max) ==
            if Reachable(s, id) then s.(queue := s.queue + [Plain(s.entries[id], command)]) else s
  {
  }

  /** A remote input is queued with all that it was accepted under, exactly when it is well formed and its client holds
      the lease; a look ahead says the same. */
  lemma AcceptsInputExactly<E>(s: RegistryState<E>, id: Id, session: string, client: string, lease: string,
                               text: string, wellFormed: bool, now: int, max: nat)
    ensures var step := SendRemote(id, session, client, lease, text, wellFormed, now);
            var accepted := wellFormed && id != "" && session != "" && client != "" && lease != "" && id in s.entries &&
                            HoldsLease(s, s.entries[id], id, session, client, lease, now);
            && Admits(s, step) == accepted
            && Next(s, step, max) == (if accepted
                                      then var o := s.entries[id];
                                           s.(queue := s.queue + [Remote(o, id, s.store[o].generation, session, client,
                                                                         lease, text)])
                                      else s)
            && Leases(s, step) == (id in s.entries &&
                                   HoldsLease(s, s.entries[id], id, session, client, lease, now))
  {
  }

  /** A queued command goes out on its entry's connection as it was given; a queued remote input only while its client
      still holds the lease and the entry has its old generation. Either way it leaves the queue, and nothing else
      changes. */
  lemma RunsExactly<E>(s: RegistryState<E>, index: nat, now: int, max: nat)
    requires index < |s.queue| && s.queue[index].entry in s.store
    ensures var t, item := Next(s, RunItem(index, now), max), s.queue[index];
            var transport := s.store[item.entry].transport;
            && t == s.(queue := s.queue[..index] + s.queue[index + 1..], sent := t.sent)
            && t.sent ==
               match item
               case Plain(e, command) => s.sent + [Sent(e, transport, command)]
               case Remote(e, id, generation, session, client, lease, text) =>
                 if HoldsLease(s, e, id, session, client, lease, now) && s.store[e].generation == generation
                 then s.sent + [Sent(e, transport, Input(text))] else s.sent
  {
  }

  // ---- snapshots and events ----

  /** What an entry shows after a snapshot it has taken: the snapshot's session, status and claim under the entry's own
      name; a switch of the session ends the lease, and a lease that nobody here holds is not shown. */
  lemma SnapshotShows(e: EntryState, snap: Snapshot, max: nat)
    ensures var e', told := Snapshotted(e, snap, max), snap.summary;
            var moves := e.summary.Some? && e.summary.value.session != "" && e.summary.value.session != told.session;
            && e'.summary.Some? && e'.attached && !e'.awaitingResync && !e'.cursorStale
            && e'.id == e.id && e'.transport == e.transport && e'.pid == e.pid
            && e'.generation == e.generation + (if moves then 1 else 0)
            && e'.leaseOwner == (if moves then None else e.leaseOwner)
            && e'.revision == snap.revision && e'.sequence == snap.sequence
            && (max == 0 || |snap.rows| <= max ==> e'.rows == snap.rows)
            && (0 < max < |snap.rows| ==> e'.rows == snap.rows[|snap.rows| - max..])
            && var shown := e'.summary.value;
            && shown.process == e.id && shown.pid == e.pid && shown.session == told.session
            && shown.status == told.status && shown.revision == snap.revision && shown.eventSequence == snap.sequence
            && shown.claim == if told.claim.claimed && told.claim.leaseId.Some? && told.claim.leaseId.value != "" &&
                                 (e'.leaseOwner.None? || e'.leaseOwner.value == "")
                              then UNCLAIMED else told.claim
  {
  }

  /** A snapshot that is taken asks for the release of a lease that nobody here holds, and for one more snapshot
      when the entry was not attached before. */
  lemma SnapshotAsks<E>(s: RegistryState<E>, snap: Snapshot, transport: Transport, max: nat)
    requires Connected(s, snap.process, transport) && SnapshotAnswer(s, snap, transport) == Ok(true)
    ensures var o := s.entries[snap.process];
            var e, e', told := s.store[o], Snapshotted(s.store[o], snap, max), snap.summary.claim;
            var orphaned := told.claimed && told.leaseId.Some? && told.leaseId.value != "" &&
                            (e'.leaseOwner.None? || e'.leaseOwner.value == "");
            var free := snap.summary.session !in s.operations;
            Next(s, TakeSnapshot(snap, transport), max) ==
            s.(store := s.store[o := e'],
               queue := s.queue +
                        (if orphaned && free then [Plain(o, Release(told.leaseId.value))] else []) +
                        (if !e.attached && free then [Plain(o, Resync)] else []))
  {
    var o := s.entries[snap.process];
    var e := s.store[o];
    SnapshotShows(e, snap, max);
    hide Snapshotted;
    assert s.queue + [] == s.queue;
  }

  /** A snapshot of another connection, another process or another numbering changes nothing. */
  lemma SnapshotRefused<E>(s: RegistryState<E>, snap: Snapshot, transport: Transport, max: nat)
    requires SnapshotAnswer(s, snap, transport) != Ok(true)
    ensures Next(s, TakeSnapshot(snap, transport), max) == s
    ensures SnapshotAnswer(s, snap, transport) == Err("connection_mismatch") <==>
              snap.process !in s.entries || s.entries[snap.process] !in s.store ||
              s.store[s.entries[snap.process]].transport != transport
    ensures SnapshotAnswer(s, snap, transport) == Err("identity_mismatch") ==>
              snap.process in s.entries && s.entries[snap.process] in s.store &&
              var e := s.store[s.entries[snap.process]];
              snap.summary.process != e.id || snap.summary.pid != e.pid
  {
  }

  /** An event that does not follow is dropped, by an entry without a snapshot or awaiting one silently, by any
      other with one request for a snapshot. */
  lemma GapAsks<E>(s: RegistryState<E>, m: EventMessage, transport: Transport, max: nat)
    requires m.process in s.entries && s.entries[m.process] in s.store
    requires s.store[s.entries[m.process]].transport == transport
    ensures var o := s.entries[m.process];
            var e, t := s.store[o], Next(s, TakeEvent(m, transport), max);
            var waits := e.summary.None? || e.awaitingResync;
            && t.queue == s.queue && t.entries == s.entries && t.operations == s.operations
            && (waits ==> t == s)
            && (!waits && m.sequence != e.sequence + 1 ==>
                  t == s.(store := s.store[o := e.(awaitingResync := true)],
                          sent := s.sent + [Sent(o, transport, Resync)]))
            && (!waits && m.sequence == e.sequence + 1 ==> t.sent == s.sent)
  {
    hide Append, Capped;
    assert s.store[s.entries[m.process] := s.store[s.entries[m.process]]] == s.store;
  }

  /** What an event that follows shows: status changes, and a lease that is freed, or extended while it has an owner. */
  lemma EventShows(e: EntryState, m: EventMessage, max: nat)
    requires Follows(e, m)
    ensures var e', kind := Heard(e, m, max), m.event.kind;
            && e'.summary.Some? && e'.generation == e.generation && e'.attached == e.attached
            && e'.transport == e.transport && e'.pid == e.pid && e'.id == e.id && !e'.awaitingResync
            && var was, shown := e.summary.value, e'.summary.value;
            && shown.session == was.session && shown.process == was.process && shown.pid == was.pid
            && shown.status == (if kind == Other("agent_start") then Running
                                else if kind == Other("agent_settled") then Idle
                                else if kind == SummaryUpdate && m.status.Some? then m.status.value else was.status)
            && e'.leaseOwner == (if kind == Other("claim_changed") && m.news.Freed? then None else e.leaseOwner)
            && shown.claim == if kind != Other("claim_changed") || m.news.Silent? then was.claim
                              else if m.news.Freed? then UNCLAIMED
                              else if m.news.expiresAt.NoExpiry? || e.leaseOwner.None? || e.leaseOwner.value == ""
                              then was.claim
                              else Claim(true, Some(m.news.leaseId), m.news.expiresAt)
  {
    hide Append, Capped;
  }

  // ---- connections ----

  /** A known process keeps its entry, with all it shows, under a new generation and until the next snapshot; a new one
      gets an entry that shows nothing. */
  lemma ConnectsExactly<E>(s: RegistryState<E>, id: Id, pid: int, transport: Transport, newcomer: E, max: nat)
    requires id in s.entries ==> s.entries[id] in s.store
    ensures var t := Next(s, Connect(id, pid, transport, newcomer), max);
            && t.queue == s.queue && t.sent == s.sent && t.operations == s.operations
            && id in t.entries && t.entries[id] in t.store
            && var o, e' := t.entries[id], t.store[t.entries[id]];
            && t.entries == s.entries[id := o] && t.store == s.store[o := e']
            && e'.transport == transport && e'.pid == pid && e'.awaitingResync && e'.cursorStale
            && (id in s.entries ==>
                  o == s.entries[id] && var e := s.store[o];
                  e' == e.(transport := transport, pid := pid, awaitingResync := true, cursorStale := true,
                           generation := e.generation + 1))
            && (id !in s.entries ==>
                  o == newcomer && e'.id == id && e'.summary.None? && e'.rows == [] && !e'.attached &&
                  e'.leaseOwner.None?)
  {
  }

  /** A connection that breaks: an entry that never showed anything goes, any other waits for its process, shown as
      reconnecting. */
  lemma DisconnectsExactly<E>(s: RegistryState<E>, id: Id, transport: Transport, max: nat)
    ensures var t := Next(s, Disconnect(id, transport), max);
            if id in s.entries && s.entries[id] in s.store && s.store[s.entries[id]].transport == transport
            then var o := s.entries[id];
                 var e := s.store[o];
                 if e.summary.None?
                 then t == s.(entries := s.entries - {id}, store := s.store[o := e.(leaseOwner := None)])
                 else t == s.(store := s.store[o :=
                   e.(awaitingResync := true, summary := Some(e.summary.value.(status := Reconnecting)))])
            else t == s
  {
  }

  /** A detached entry leaves the registry, and its lease ends. */
  lemma DetachesExactly<E>(s: RegistryState<E>, id: Id, only: Option<Transport>, max: nat)
    requires id in s.entries && s.entries[id] in s.store
    requires only.None? || only.value == s.store[s.entries[id]].transport
    ensures var t, o := Next(s, Detach(id, only), max), s.entries[id];
            var e := s.store[o];
            && t.entries == s.entries - {id} && o in t.store && t.store[o].leaseOwner.None?
            && t.store == s.store[o := e.(leaseOwner := None, summary := t.store[o].summary)]
            && t.store[o].summary.Some? == e.summary.Some?
            && (e.summary.Some? ==> t.store[o].summary.value == e.summary.value.(claim := UNCLAIMED))
            && t.queue == s.queue && t.sent == s.sent && t.operations == s.operations
  {
  }

  /** A connection that is not the entry's own detaches nothing. */
  lemma OthersDetachNothing<E>(s: RegistryState<E>, id: Id, transport: Transport, max: nat)
    requires id in s.entries && s.entries[id] in s.store && s.store[s.entries[id]].transport != transport
    ensures Next(s, Detach(id, Some(transport)), max) == s && Next(s, Disconnect(id, transport), max) == s
  {
  }

  // ---- leases ----

  /** A granted claim is the client's, with the lease it was granted; a renewal moves the expiry and a release ends
      owner and claim, of that entry only. */
  lemma LeaseStepsExactly<E>(s: RegistryState<E>, o: E, client: string, leaseId: Option<string>, expiresAt: Expiry,
                             max: nat)
    requires o in s.store && s.store[o].summary.Some?
    ensures var e, shown := s.store[o], s.store[o].summary.value;
            && Next(s, ClaimReply(o, client, leaseId, expiresAt), max) ==
               (if leaseId.None? || leaseId.value == "" then s
                else s.(store := s.store[o := e.(leaseOwner := Some(client),
                                                 summary := Some(shown.(claim := Claim(true, leaseId, expiresAt))))]))
            && Next(s, RenewReply(o, expiresAt), max) ==
               s.(store := s.store[o := e.(summary := Some(shown.(claim := shown.claim.(expiresAt := expiresAt))))])
            && Next(s, DropLease(o), max) ==
               s.(store := s.store[o := e.(leaseOwner := None, summary := Some(shown.(claim := UNCLAIMED)))])
  {
  }

  // ---- operations that have a session to themselves ----

  /** An operation gets the session its id shows, if no other has it; it begins if its entry still shows that session,
      and leaves otherwise or when it is over. */
  lemma OperationStepsExactly<E>(s: RegistryState<E>, id: Id, session: string, max: nat)
    ensures Next(s, Enter(id), max) ==
            if id in s.entries && s.entries[id] in s.store && s.store[s.entries[id]].attached &&
               s.store[s.entries[id]].summary.Some? &&
               s.store[s.entries[id]].summary.value.session !in s.operations
            then s.(operations := s.operations[s.store[s.entries[id]].summary.value.session :=
                      Operation(id, s.entries[id], false)])
            else s
    ensures Next(s, Leave(session), max) == s.(operations := s.operations - {session})
    ensures session in s.operations && !s.operations[session].begun ==>
              var op := s.operations[session];
              Next(s, BeginOperation(session), max) ==
              if op.id in s.entries && s.entries[op.id] == op.entry && op.entry in s.store &&
                 s.store[op.entry].attached && s.store[op.entry].summary.Some? &&
                 s.store[op.entry].summary.value.session == session
              then s.(operations := s.operations[session := op.(begun := true)])
              else s.(operations := s.operations - {session})
  {
  }
}
