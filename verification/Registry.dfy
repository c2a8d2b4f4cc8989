/**
 * The live session registry (backend/live-sessions/registry.ts).
 *
 * Every connected process has an entry with a cursor (revision and sequence), a timeline, a
 * lease and a generation. Commands are closures on a queue that run later, when the entry may
 * have been reconnected, switched to another session, released or detached.
 *
 * The methods of the class are tied to a step function on values, and the run properties are
 * proved about the steps.
 */
module Registry {
  import opened Wrappers
  import opened Timeline

  type Id = string

  /** Which connection object an entry talks through. */
  type Transport = nat

  /** A lease's expiry: missing, a number that is not finite, or milliseconds. */
  datatype Expiry = NoExpiry | NotFinite | Millis(ms: int)

  datatype Claim = Claim(claimed: bool, leaseId: Option<string>, expiresAt: Expiry)

  const UNCLAIMED: Claim := Claim(false, None, NoExpiry)

  datatype Status = Idle | Running | Reconnecting

  datatype Summary =
    Summary(process: Id, pid: int, session: string, claim: Claim, status: Status, revision: int, eventSequence: int)

  datatype Snapshot = Snapshot(process: Id, summary: Summary, revision: int, sequence: int, rows: seq<Row>)

  /** What an event says about the lease. */
  datatype LeaseNews = Silent | Freed | Held(leaseId: string, expiresAt: Expiry)

  datatype EventMessage =
    EventMessage(process: Id, sequence: int, event: Event, news: LeaseNews, status: Option<Status>)

  datatype Command = Input(text: string) | Resync | Release(leaseId: string) | Local(name: string)

  // ---- one entry ----

  datatype EntryState =
    EntryState(id: Id, transport: Transport, pid: int, summary: Option<Summary>, rows: seq<Row>, revision: int,
               sequence: int, awaitingResync: bool, cursorStale: bool, attached: bool, generation: nat,
               leaseOwner: Option<string>)

  function NewEntry(id: Id, pid: int, transport: Transport): EntryState {
    EntryState(id, transport, pid, None, [], -1, -1, true, true, false, 0, None)
  }

  function Reconnected(e: EntryState, pid: int, transport: Transport): EntryState {
    e.(transport := transport, pid := pid, awaitingResync := true, cursorStale := true, generation := e.generation + 1)
  }

  function WithClaim(e: EntryState, claim: Claim): EntryState {
    if e.summary.None? then e else e.(summary := Some(e.summary.value.(claim := claim)))
  }

  function Cleared(e: EntryState): EntryState {
    WithClaim(e.(leaseOwner := None), UNCLAIMED)
  }

  predicate HasOwner(e: EntryState) {
    e.leaseOwner.Some? && e.leaseOwner.value != ""
  }

  predicate SameIdentity(e: EntryState, s: Snapshot) {
    s.summary.process == e.id && s.summary.pid == e.pid
  }

  predicate Switches(e: EntryState, s: Snapshot) {
    e.summary.Some? && e.summary.value.session != "" && e.summary.value.session != s.summary.session
  }

  predicate Accepts(e: EntryState, s: Snapshot) {
    Switches(e, s) || e.cursorStale || s.revision > e.revision
  }

  function Switched(e: EntryState, s: Snapshot): EntryState {
    if Switches(e, s) then Cleared(e).(generation := e.generation + 1) else e
  }

  /** The lease a snapshot reports that nobody here is known to hold. */
  function Orphan(e: EntryState, s: Snapshot): Option<string> {
    if !HasOwner(e) && s.summary.claim.claimed && s.summary.claim.leaseId.Some? && s.summary.claim.leaseId.value != ""
    then s.summary.claim.leaseId else None
  }

  function Installed(e: EntryState, s: Snapshot, max: nat): EntryState {
    var summary := s.summary.(process := e.id, pid := e.pid, revision := s.revision, eventSequence := s.sequence,
                              claim := if Orphan(e, s).Some? then UNCLAIMED else s.summary.claim);
    e.(revision := s.revision, sequence := s.sequence, awaitingResync := false, cursorStale := false,
       rows := Window(s.rows, max), summary := Some(summary), attached := true)
  }

  function Snapshotted(e: EntryState, s: Snapshot, max: nat): EntryState {
    Installed(Switched(e, s), s, max)
  }

  predicate Follows(e: EntryState, m: EventMessage) {
    e.summary.Some? && !e.awaitingResync && m.sequence == e.sequence + 1
  }

  /** What an event does to the summary and the lease. */
  function Projected(e: EntryState, m: EventMessage): EntryState
    requires e.summary.Some?
  {
    var s := e.summary.value;
    var status := if m.event.kind == Other("agent_start") then Running
                  else if m.event.kind == Other("agent_settled") then Idle
                  else if m.event.kind == SummaryUpdate && m.status.Some? then m.status.value else s.status;
    var e1 := e.(summary := Some(s.(status := status)));
    if m.event.kind != Other("claim_changed") then e1
    else match m.news
      case Silent => e1
      case Freed => Cleared(e1)
      case Held(leaseId, expiresAt) =>
        if expiresAt.NoExpiry? || !HasOwner(e1) then e1 else WithClaim(e1, Claim(true, Some(leaseId), expiresAt))
  }

  function Evented(e: EntryState, m: EventMessage, max: nat): EntryState
    requires e.summary.Some?
  {
    var e1 := e.(sequence := m.sequence, cursorStale := false,
                 summary := Some(e.summary.value.(eventSequence := m.sequence)));
    Projected(e1, m).(rows := Capped(Append(e.rows, m.event), max))
  }

  predicate Gap(e: EntryState, m: EventMessage) {
    e.summary.Some? && !e.awaitingResync && m.sequence != e.sequence + 1
  }

  /** What an entry makes of an event: it takes the next one, and waits for a snapshot after a gap. */
  function Heard(e: EntryState, m: EventMessage, max: nat): EntryState {
    if Follows(e, m) then Evented(e, m, max) else if Gap(e, m) then e.(awaitingResync := true) else e
  }

  function Lost(e: EntryState): EntryState
    requires e.summary.Some?
  {
    e.(awaitingResync := true, summary := Some(e.summary.value.(status := Reconnecting)))
  }

  /** An object with the fields of an entry. */
  class Entry {
    const id: Id
    var transport: Transport
    var pid: int
    var summary: Option<Summary>
    var rows: seq<Row>
    var revision: int
    var sequence: int
    var awaitingResync: bool
    var cursorStale: bool
    var attached: bool
    var generation: nat
    var leaseOwner: Option<string>

    function State(): EntryState
      reads this
    {
      EntryState(id, transport, pid, summary, rows, revision, sequence, awaitingResync, cursorStale, attached,
                 generation, leaseOwner)
    }

    constructor (id: Id, pid: int, transport: Transport)
      ensures State() == NewEntry(id, pid, transport)
    {
      this.id, this.pid, this.transport := id, pid, transport;
      summary, rows, revision, sequence := None, [], -1, -1;
      awaitingResync, cursorStale, attached, generation, leaseOwner := true, true, false, 0, None;
    }

    method Reconnect(pid: int, transport: Transport)
      modifies this
      ensures State() == Reconnected(old(State()), pid, transport)
    {
      this.transport, this.pid := transport, pid;
      awaitingResync, cursorStale := true, true;
      generation := generation + 1;
    }

    method ClearLease()
      modifies this
      ensures State() == Cleared(old(State()))
    {
      leaseOwner := None;
      SetClaim(UNCLAIMED);
    }

    method SetClaim(claim: Claim)
      modifies this
      ensures State() == WithClaim(old(State()), claim)
    {
      if summary.Some? { summary := Some(summary.value.(claim := claim)); }
    }

    /** Take a snapshot of the right process; the answer tells whether it was applied, and which lease is orphaned. */
    method TakeSnapshot(s: Snapshot, max: nat) returns (ok: bool, orphan: Option<string>, first: bool)
      modifies this
      ensures ok == Accepts(old(State()), s)
      ensures State() == if ok then Snapshotted(old(State()), s, max) else old(State())
      ensures orphan == (if ok then Orphan(Switched(old(State()), s), s) else None) && first == (ok && !old(attached))
    {
      hide Installed, Orphan;
      var changed := Switches(State(), s);
      if !changed && !cursorStale && s.revision <= revision { return false, None, false; }
      first := !attached;
      if changed {
        generation := generation + 1;
        ClearLease();
      }
      orphan := Install(s, max);
      ok := true;
    }

    method Install(s: Snapshot, max: nat) returns (orphan: Option<string>)
      modifies this
      ensures State() == Installed(old(State()), s, max) && orphan == Orphan(old(State()), s)
    {
      hide Window;
      revision, sequence := s.revision, s.sequence;
      awaitingResync, cursorStale := false, false;
      rows := Window(s.rows, max);
      summary := Some(s.summary.(process := id, pid := pid, revision := s.revision, eventSequence := s.sequence));
      orphan := if !HasOwner(State()) && summary.value.claim.claimed && summary.value.claim.leaseId.Some? &&
                   summary.value.claim.leaseId.value != ""
                then summary.value.claim.leaseId else None;
      if orphan.Some? { SetClaim(UNCLAIMED); }
      attached := true;
    }

    /** Take the next event, or ask for a snapshot when one is missing. */
    method TakeEvent(m: EventMessage, max: nat) returns (ok: bool, gap: bool)
      modifies this
      ensures ok == Follows(old(State()), m) && gap == Gap(old(State()), m)
      ensures State() == Heard(old(State()), m, max)
    {
      hide Append;
      if summary.None? || awaitingResync { return false, false; }
      if m.sequence != sequence + 1 {
        awaitingResync := true;
        return false, true;
      }
      sequence, cursorStale := m.sequence, false;
      summary := Some(summary.value.(eventSequence := m.sequence));
      Project(m);
      var appended := AppendTimelineEvent(rows, m.event, max);
      rows := appended;
      return true, false;
    }

    method Project(m: EventMessage)
      requires summary.Some?
      modifies this
      ensures State() == Projected(old(State()), m)
    {
      if m.event.kind == Other("agent_start") { summary := Some(summary.value.(status := Running)); }
      if m.event.kind == Other("agent_settled") { summary := Some(summary.value.(status := Idle)); }
      if m.event.kind == SummaryUpdate && m.status.Some? {
        summary := Some(summary.value.(status := m.status.value));
      }
      if m.event.kind == Other("claim_changed") {
        if m.news.Freed? {
          ClearLease();
        } else if m.news.Held? && !m.news.expiresAt.NoExpiry? && HasOwner(State()) {
          SetClaim(Claim(true, Some(m.news.leaseId), m.news.expiresAt));
        }
      }
    }

    method MarkLost()
      requires summary.Some?
      modifies this
      ensures State() == Lost(old(State()))
    {
      awaitingResync := true;
      summary := Some(summary.value.(status := Reconnecting));
    }

    method Own(client: string, claim: Claim)
      modifies this
      ensures State() == WithClaim(old(State()).(leaseOwner := Some(client)), claim)
    {
      leaseOwner := Some(client);
      SetClaim(claim);
    }
  }

  // ---- the registry ----

  /** A closure on a dispatch queue. A remote input remembers what it was accepted under. */
  datatype Item<E> =
    | Plain(entry: E, command: Command)
    | Remote(entry: E, id: Id, generation: nat, session: string, client: string, lease: string, text: string)

  datatype Sent<E> = Sent(entry: E, transport: Transport, command: Command)

  /** An operation that has a session to itself: which entry it was asked for, and whether it has begun. */
  datatype Operation<E> = Operation(id: Id, entry: E, begun: bool)

  /** All of a registry. Entries are objects: `E` is their identity, and a detached entry keeps its fields. */
  datatype RegistryState<E> =
    RegistryState(entries: map<Id, E>, store: map<E, EntryState>, operations: map<string, Operation<E>>,
                  queue: seq<Item<E>>, sent: seq<Sent<E>>)

  datatype Step<E> =
    | Connect(id: Id, pid: int, transport: Transport, newcomer: E)
    | TakeSnapshot(snapshot: Snapshot, transport: Transport)
    | TakeEvent(message: EventMessage, transport: Transport)
    | Disconnect(id: Id, transport: Transport)
    | Detach(id: Id, only: Option<Transport>)
    | ClaimReply(entry: E, client: string, leaseId: Option<string>, expiresAt: Expiry)
    | RenewReply(entry: E, expiresAt: Expiry)
    | DropLease(entry: E)
    | Dispatch(id: Id, command: Command)
    | SendRemote(id: Id, session: string, client: string, lease: string, text: string, wellFormed: bool, now: int)
    | RunItem(index: nat, now: int)
    | Enter(id: Id)
    | BeginOperation(session: string)
    | Leave(session: string)

  predicate Known<E>(s: RegistryState<E>, id: Id) {
    id in s.entries && s.entries[id] in s.store
  }

  predicate Connected<E>(s: RegistryState<E>, id: Id, transport: Transport) {
    Known(s, id) && s.store[s.entries[id]].transport == transport
  }

  predicate Available(e: EntryState) {
    e.attached && e.summary.Some?
  }

  predicate Dispatchable<E>(s: RegistryState<E>, id: Id) {
    Known(s, id) && var e := s.store[s.entries[id]];
    Available(e) && !e.awaitingResync && e.summary.value.session !in s.operations
  }

  function Enqueued<E>(s: RegistryState<E>, id: Id, command: Command): RegistryState<E> {
    if Dispatchable(s, id) then s.(queue := s.queue + [Plain(s.entries[id], command)]) else s
  }

  /** The check a remote input passes when it is accepted and again just before it is sent. */
  predicate Permitted<E>(s: RegistryState<E>, item: Item<E>, now: int)
    requires item.Remote?
  {
    item.id in s.entries && s.entries[item.id] == item.entry && item.entry in s.store &&
    var e := s.store[item.entry];
    Available(e) && !e.awaitingResync && item.session !in s.operations && e.generation == item.generation &&
    e.summary.value.session == item.session && Leased(e, item.client, item.lease, now)
  }

  predicate Leased(e: EntryState, client: string, lease: string, now: int)
    requires e.summary.Some?
  {
    var claim := e.summary.value.claim;
    e.leaseOwner == Some(client) && claim.claimed && claim.leaseId == Some(lease) && claim.expiresAt.Millis? &&
    claim.expiresAt.ms > now
  }

  /** The closure a remote input would leave on the queue. */
  function Ticket<E>(s: RegistryState<E>, step: Step<E>): Item<E>
    requires step.SendRemote? && Known(s, step.id)
  {
    var e := s.entries[step.id];
    Remote(e, step.id, s.store[e].generation, step.session, step.client, step.lease, step.text)
  }

  predicate Leases<E>(s: RegistryState<E>, step: Step<E>)
    requires step.SendRemote?
  {
    Known(s, step.id) && Permitted(s, Ticket(s, step), step.now)
  }

  /** A remote input is accepted; `wellFormed` stands for the checks of its text and of blank arguments. */
  predicate Admits<E>(s: RegistryState<E>, step: Step<E>)
    requires step.SendRemote?
  {
    step.wellFormed && step.id != "" && step.session != "" && step.client != "" && step.lease != "" && Leases(s, step)
  }

  function Stored<E>(s: RegistryState<E>, e: E, next: EntryState): RegistryState<E> {
    s.(store := s.store[e := next])
  }

  function Detached<E>(s: RegistryState<E>, id: Id): RegistryState<E>
    requires Known(s, id)
  {
    Stored(s, s.entries[id], Cleared(s.store[s.entries[id]])).(entries := s.entries - {id})
  }

  function TookSnapshot<E>(s: RegistryState<E>, snap: Snapshot, transport: Transport, max: nat): RegistryState<E> {
    if !Connected(s, snap.process, transport) then s
    else var o := s.entries[snap.process]; var e := s.store[o];
      if !SameIdentity(e, snap) || !Accepts(e, snap) then s
      else
        var s1 := Stored(s, o, Snapshotted(e, snap, max));
        var orphan := Orphan(Switched(e, snap), snap);
        var s2 := if orphan.Some? then Enqueued(s1, snap.process, Release(orphan.value)) else s1;
        if e.attached then s2 else Enqueued(s2, snap.process, Resync)
  }

  function TookEvent<E>(s: RegistryState<E>, m: EventMessage, transport: Transport, max: nat): RegistryState<E> {
    if !Connected(s, m.process, transport) then s
    else var o := s.entries[m.process]; var e := s.store[o];
      var s1 := Stored(s, o, Heard(e, m, max));
      if Gap(e, m) then s1.(sent := s.sent + [Sent(o, e.transport, Resync)]) else s1
  }

  /** A reply without an expiry gets one here. */
  function Until(expiresAt: Expiry, fallback: int): Expiry {
    if expiresAt.NoExpiry? then Millis(fallback) else expiresAt
  }

  function Ran<E>(s: RegistryState<E>, index: nat, now: int): RegistryState<E> {
    if index >= |s.queue| then s
    else var item := s.queue[index];
      var s1 := s.(queue := s.queue[..index] + s.queue[index + 1..]);
      if item.entry !in s.store then s1
      else match item
        case Plain(e, command) => s1.(sent := s.sent + [Sent(e, s.store[e].transport, command)])
        case Remote(e, _, _, _, _, _, text) =>
          if Permitted(s, item, now) then s1.(sent := s.sent + [Sent(e, s.store[e].transport, Input(text))]) else s1
  }

  function Joined<E>(s: RegistryState<E>, id: Id, pid: int, transport: Transport, newcomer: E): RegistryState<E> {
    if Known(s, id) then Stored(s, s.entries[id], Reconnected(s.store[s.entries[id]], pid, transport))
    else Stored(s, newcomer, NewEntry(id, pid, transport)).(entries := s.entries[id := newcomer])
  }

  function DetachedBy<E>(s: RegistryState<E>, id: Id, only: Option<Transport>): RegistryState<E> {
    if !Known(s, id) || (only.Some? && s.store[s.entries[id]].transport != only.value) then s else Detached(s, id)
  }

  function Disconnected<E>(s: RegistryState<E>, id: Id, transport: Transport): RegistryState<E> {
    if !Connected(s, id, transport) then s
    else if s.store[s.entries[id]].summary.None? then Detached(s, id)
    else Stored(s, s.entries[id], Lost(s.store[s.entries[id]]))
  }

  function Claimed<E>(s: RegistryState<E>, e: E, client: string, leaseId: Option<string>,
                      expiresAt: Expiry): RegistryState<E> {
    if e !in s.store || s.store[e].summary.None? || leaseId.None? || leaseId.value == "" then s
    else Stored(s, e, WithClaim(s.store[e].(leaseOwner := Some(client)), Claim(true, leaseId, expiresAt)))
  }

  function Renewed<E>(s: RegistryState<E>, e: E, expiresAt: Expiry): RegistryState<E> {
    if e !in s.store || s.store[e].summary.None? then s
    else Stored(s, e, WithClaim(s.store[e], s.store[e].summary.value.claim.(expiresAt := expiresAt)))
  }

  function Released<E>(s: RegistryState<E>, e: E): RegistryState<E> {
    if e !in s.store then s else Stored(s, e, Cleared(s.store[e]))
  }

  function Queued<E>(s: RegistryState<E>, step: Step<E>): RegistryState<E>
    requires step.SendRemote?
  {
    if Admits(s, step) then s.(queue := s.queue + [Ticket(s, step)]) else s
  }

  predicate Enters<E>(s: RegistryState<E>, id: Id) {
    Known(s, id) && Available(s.store[s.entries[id]]) && s.store[s.entries[id]].summary.value.session !in s.operations
  }

  function Entered<E>(s: RegistryState<E>, id: Id): RegistryState<E> {
    if !Enters(s, id) then s
    else
      var session := s.store[s.entries[id]].summary.value.session;
      s.(operations := s.operations[session := Operation(id, s.entries[id], false)])
  }

  /** After the wait the operation looks again: the same entry, still registered and attached, with the same session. */
  predicate StillThere<E>(s: RegistryState<E>, session: string)
    requires session in s.operations
  {
    var op := s.operations[session];
    op.id in s.entries && s.entries[op.id] == op.entry && op.entry in s.store && Available(s.store[op.entry]) &&
    s.store[op.entry].summary.value.session == session
  }

  function Begun<E>(s: RegistryState<E>, session: string): RegistryState<E> {
    if session !in s.operations || s.operations[session].begun then s
    else if StillThere(s, session)
    then s.(operations := s.operations[session := s.operations[session].(begun := true)])
    else s.(operations := s.operations - {session})
  }

  function Next<E>(s: RegistryState<E>, step: Step<E>, max: nat): RegistryState<E> {
    match step
    case Connect(id, pid, transport, newcomer) => Joined(s, id, pid, transport, newcomer)
    case TakeSnapshot(snap, transport) => TookSnapshot(s, snap, transport, max)
    case TakeEvent(m, transport) => TookEvent(s, m, transport, max)
    case Disconnect(id, transport) => Disconnected(s, id, transport)
    case Detach(id, only) => DetachedBy(s, id, only)
    case ClaimReply(e, client, leaseId, expiresAt) => Claimed(s, e, client, leaseId, expiresAt)
    case RenewReply(e, expiresAt) => Renewed(s, e, expiresAt)
    case DropLease(e) => Released(s, e)
    case Dispatch(id, command) => Enqueued(s, id, command)
    case SendRemote(_, _, _, _, _, _, _) => Queued(s, step)
    case RunItem(index, now) => Ran(s, index, now)
    case Enter(id) => Entered(s, id)
    case BeginOperation(session) => Begun(s, session)
    case Leave(session) => s.(operations := s.operations - {session})
  }

  // ---- answers ----

  function SnapshotAnswer<E>(s: RegistryState<E>, snap: Snapshot, transport: Transport): Result<bool, string> {
    if !Connected(s, snap.process, transport) then Err("connection_mismatch")
    else if !SameIdentity(s.store[s.entries[snap.process]], snap) then Err("identity_mismatch")
    else Ok(Accepts(s.store[s.entries[snap.process]], snap))
  }

  function EventAnswer<E>(s: RegistryState<E>, m: EventMessage, transport: Transport): Result<bool, string> {
    if !Connected(s, m.process, transport) then Err("connection_mismatch")
    else Ok(Follows(s.store[s.entries[m.process]], m))
  }

  datatype ClaimStart = NotFound | Taken | AlreadyYours(leaseId: Option<string>, expiresAt: Expiry)
      | Asked(queued: bool)

  function ClaimAnswer<E>(s: RegistryState<E>, id: Id, client: string): ClaimStart {
    if !Known(s, id) || !Available(s.store[s.entries[id]]) then NotFound
    else
      var e := s.store[s.entries[id]];
      var claim := e.summary.value.claim;
      if !claim.claimed then Asked(Dispatchable(s, id))
      else if e.leaseOwner != Some(client) then Taken else AlreadyYours(claim.leaseId, claim.expiresAt)
  }

  class LiveSessionRegistry {
    const max: nat
    var entries: map<Id, Entry>
    var operations: map<string, Operation<Entry>>
    var queue: seq<Item<Entry>>
    var sent: seq<Sent<Entry>>

    /** Every entry ever made, detached ones included. */
    ghost var made: set<Entry>

    ghost function State(): RegistryState<Entry>
      reads this, made
    {
      RegistryState(entries, map e | e in made :: e.State(), operations, queue, sent)
    }

    ghost predicate Valid()
      reads this
    {
      (forall id :: id in entries ==> entries[id] in made) &&
        (forall i :: 0 <= i < |queue| ==> queue[i].entry in made) &&
      (forall session :: session in operations ==> operations[session].entry in made)
    }

    constructor (max: nat)
      ensures Valid() && this.max == max && made == {}
      ensures State() == RegistryState(map[], map[], map[], [], [])
    {
      this.max := max;
      entries, operations, queue, sent, made := map[], map[], [], [], {};
    }

    method Connect(id: Id, pid: int, transport: Transport) returns (entry: Entry)
      requires Valid()
      modifies this, made
      ensures Valid() && made == old(made) + {entry} && (id in old(entries) || fresh(entry))
      ensures State() == Joined(old(State()), id, pid, transport, entry)
    {
      hide Reconnected, NewEntry;
      ghost var before := State();
      if id in entries {
        entry := entries[id];
        entry.Reconnect(pid, transport);
        assert State() == Stored(before, entry, entry.State());
      } else {
        entry := new Entry(id, pid, transport);
        made := made + {entry};
        entries := entries[id := entry];
        assert State().store == before.store[entry := entry.State()];
      }
    }

    method TakeSnapshot(snap: Snapshot, transport: Transport) returns (r: Result<bool, string>)
      requires Valid()
      modifies this, made
      ensures Valid() && made == old(made)
      ensures State() == TookSnapshot(old(State()), snap, transport, max)
      ensures r == SnapshotAnswer(old(State()), snap, transport)
    {
      hide Snapshotted, Orphan, Accepts, Enqueued, Switched, Dispatchable;
      ghost var before := State();
      if snap.process !in entries || entries[snap.process].transport != transport {
        return Err("connection_mismatch");
      }
      var entry := entries[snap.process];
      assert Connected(before, snap.process, transport) && before.store[entry] == entry.State();
      if !SameIdentity(entry.State(), snap) { return Err("identity_mismatch"); }
      hide SameIdentity, Connected;
      var ok, orphan, first := entry.TakeSnapshot(snap, max);
      assert State() == Stored(before, entry, entry.State());
      if orphan.Some? { var _ := Dispatch(snap.process, Release(orphan.value)); }
      if first { var _ := Dispatch(snap.process, Resync); }
      return Ok(ok);
    }

    method TakeEvent(m: EventMessage, transport: Transport) returns (r: Result<bool, string>)
      requires Valid()
      modifies this, made
      ensures Valid() && made == old(made)
      ensures State() == TookEvent(old(State()), m, transport, max)
      ensures r == EventAnswer(old(State()), m, transport)
    {
      hide Heard, Gap, Follows;
      if m.process !in entries || entries[m.process].transport != transport { return Err("connection_mismatch"); }
      var entry := entries[m.process];
      ghost var before := State();
      assert Connected(before, m.process, transport) && before.store[entry] == entry.State();
      hide Connected;
      var ok, gap := entry.TakeEvent(m, max);
      assert State() == Stored(before, entry, entry.State());
      if gap { sent := sent + [Sent(entry, transport, Resync)]; }
      return Ok(ok);
    }

    method Disconnect(id: Id, transport: Transport)
      requires Valid()
      modifies this, made
      ensures Valid() && made == old(made)
      ensures State() == Disconnected(old(State()), id, transport)
    {
      hide Cleared;
      if id !in entries || entries[id].transport != transport { return; }
      var entry := entries[id];
      if entry.summary.None? {
        Detach(id, Some(transport));
      } else {
        ghost var before := State();
        entry.MarkLost();
        assert State() == Stored(before, entry, entry.State());
      }
    }

    method Detach(id: Id, only: Option<Transport>)
      requires Valid()
      modifies this, made
      ensures Valid() && made == old(made)
      ensures State() == DetachedBy(old(State()), id, only)
    {
      hide Cleared;
      if id !in entries || (only.Some? && entries[id].transport != only.value) { return; }
      var entry := entries[id];
      ghost var before := State();
      entries := entries - {id};
      entry.ClearLease();
      assert State().store == before.store[entry := entry.State()];
    }

    /** Queue a command, unless the session cannot take one now. */
    method Dispatch(id: Id, command: Command) returns (ok: bool)
      requires Valid()
      modifies this
      ensures Valid() && made == old(made) && ok == Dispatchable(old(State()), id)
      ensures State() == Enqueued(old(State()), id, command)
    {
      ok := false;
      if id in entries {
        var e := entries[id];
        if e.attached && e.summary.Some? && !e.awaitingResync && e.summary.value.session !in operations {
          queue := queue + [Plain(e, command)];
          ok := true;
        }
      }
    }

    /** Accept an input from a remote client: the check runs now, and again when the closure runs. */
    method SendRemoteInput(id: Id, session: string, client: string, lease: string, text: string, wellFormed: bool,
                           now: int)
      returns (ok: bool)
      requires Valid()
      modifies this
      ensures Valid() && made == old(made)
      ensures var step := SendRemote(id, session, client, lease, text, wellFormed, now);
              ok == Admits(old(State()), step) && State() == Queued(old(State()), step)
    {
      if !wellFormed || id == "" || session == "" || client == "" || lease == "" || id !in entries { return false; }
      var e := entries[id];
      var item := Remote(e, id, e.generation, session, client, lease, text);
      ok := Check(item, now);
      if ok { queue := queue + [item]; }
    }

    method Check(item: Item<Entry>, now: int) returns (ok: bool)
      requires Valid() && item.Remote? && item.entry in made
      ensures ok == Permitted(State(), item, now)
    {
      var e := item.entry;
      if item.id !in entries || entries[item.id] != e || !e.attached || e.summary.None? || e.awaitingResync ||
         item.session in operations || e.generation != item.generation || e.summary.value.session != item.session {
        return false;
      }
      var claim := e.summary.value.claim;
      return e.leaseOwner == Some(item.client) && claim.claimed && claim.leaseId == Some(item.lease) &&
             claim.expiresAt.Millis? && claim.expiresAt.ms > now;
    }

    /** One closure runs; the queue is not assumed to be in order, since a reconnect starts a new tail. */
    method RunItem(index: nat, now: int)
      requires Valid() && index < |queue|
      modifies this
      ensures Valid() && made == old(made)
      ensures State() == Ran(old(State()), index, now)
    {
      hide Permitted;
      var item := queue[index];
      var go := true;
      if item.Remote? { go := Check(item, now); }
      queue := queue[..index] + queue[index + 1..];
      if go {
        sent := sent + [Sent(item.entry, item.entry.transport, if item.Plain? then item.command else Input(item.text))];
      }
    }

    /** The second half of a claim: the process granted a lease. */
    method ClaimReply(entry: Entry, client: string, leaseId: Option<string>, expiresAt: Expiry, fallback: int)
      requires Valid() && entry in made && entry.summary.Some?
      modifies entry
      ensures State() == Claimed(old(State()), entry, client, leaseId, Until(expiresAt, fallback))
    {
      if leaseId.None? || leaseId.value == "" { return; }
      ghost var before := State();
      entry.Own(client, Claim(true, leaseId, Until(expiresAt, fallback)));
      assert State() == Stored(before, entry, entry.State());
    }

    method RenewReply(entry: Entry, expiresAt: Expiry, fallback: int)
      requires Valid() && entry in made && entry.summary.Some?
      modifies entry
      ensures State() == Renewed(old(State()), entry, Until(expiresAt, fallback))
    {
      ghost var before := State();
      entry.SetClaim(entry.summary.value.claim.(expiresAt := Until(expiresAt, fallback)));
      assert State() == Stored(before, entry, entry.State());
    }

    /** The lease timer fires, or a release settles. */
    method DropLease(entry: Entry)
      requires Valid() && entry in made
      modifies entry
      ensures State() == Released(old(State()), entry)
    {
      hide Cleared;
      ghost var before := State();
      entry.ClearLease();
      assert State() == Stored(before, entry, entry.State());
    }

    /** The first half of a claim. */
    method StartClaim(id: Id, client: string, command: Command) returns (r: ClaimStart)
      requires Valid()
      modifies this
      ensures Valid() && made == old(made)
      ensures r == ClaimAnswer(old(State()), id, client)
      ensures State() == if r.Asked? then Enqueued(old(State()), id, command) else old(State())
    {
      if id !in entries || !entries[id].attached || entries[id].summary.None? { return NotFound; }
      var entry := entries[id];
      var claim := entry.summary.value.claim;
      if claim.claimed {
        return if entry.leaseOwner != Some(client) then Taken else AlreadyYours(claim.leaseId, claim.expiresAt);
      }
      var ok := Dispatch(id, command);
      return Asked(ok);
    }

    /** A cheap look before an input is reserved. */
    method HasRemoteLease(id: Id, session: string, client: string, lease: string, now: int) returns (ok: bool)
      requires Valid()
      ensures ok == Leases(State(), SendRemote(id, session, client, lease, "", true, now))
    {
      if id !in entries { return false; }
      var e := entries[id];
      return e.attached && !e.awaitingResync && session !in operations && e.summary.Some? &&
             e.summary.value.session == session && e.leaseOwner == Some(client) && e.summary.value.claim.claimed &&
             e.summary.value.claim.leaseId == Some(lease) && e.summary.value.claim.expiresAt.Millis? &&
             e.summary.value.claim.expiresAt.ms > now;
    }

    /** Ask for a session, and keep every command away from it. */
    method Enter(id: Id) returns (r: Result<string, string>)
      requires Valid()
      modifies this
      ensures Valid() && made == old(made) && (r.Ok? <==> Enters(old(State()), id))
      ensures State() == Entered(old(State()), id)
      ensures r.Ok? ==> r.value !in old(operations) && r.value in operations
    {
      if id !in entries || !entries[id].attached || entries[id].summary.None? {
        return Err("live_session_unavailable");
      }
      var session := entries[id].summary.value.session;
      if session in operations { return Err("session_operation_in_progress"); }
      operations := operations[session := Operation(id, entries[id], false)];
      return Ok(session);
    }

    /** The commands queued earlier are over: the operation begins, unless its session has changed meanwhile. */
    method BeginOperation(session: string) returns (ok: bool)
      requires Valid() && session in operations && !operations[session].begun
      modifies this
      ensures Valid() && made == old(made) && ok == StillThere(old(State()), session)
      ensures State() == Begun(old(State()), session)
    {
      var op := operations[session];
      var e := op.entry;
      ok := op.id in entries && entries[op.id] == e && e.attached && e.summary.Some? &&
        e.summary.value.session == session;
      operations := if ok then operations[session := op.(begun := true)] else operations - {session};
    }

    method Leave(session: string)
      requires Valid()
      modifies this
      ensures Valid() && made == old(made)
      ensures State() == old(State()).(operations := old(operations) - {session})
    {
      operations := operations - {session};
    }
  }
}
