/**
 * Remote control of live sessions over a machine connection (backend/machine-connector.ts).
 *
 * Control frames are checked, reserved in the replay journal when they are inputs, and chained
 * onto the connection's dispatch tail: each closure is a promise that begins once its predecessor
 * has resolved, and it may be suspended at each of its awaits. The tombstone table and the client
 * owners belong to the process and outlive a connection.
 */
module MachineConnector {
  import opened Wrappers
  import opened ReplayJournal

  const MAX_IN_FLIGHT := 16
  const DEDUP_MAX := 8192
  const DEDUP_TTL_MS := 10 * 60_000

  datatype Kind = Claim | Release | Input

  datatype Op = Op(kind: Kind, client: string, request: string, process: string, session: string, lease: string,
                   text: string)

  function KeyOf(op: Op): ReqId {
    ReqId(op.client, op.request)
  }

  datatype Tombstone = Tombstone(key: ReqId, at: int, pending: bool)

  /** A closure: a control operation, the cleanup after a revocation, or the release of all clients after closing. */
  datatype Work = Control(op: Op) | Cleanup(client: string) | Drain

  /** Where a closure is: not begun; racing its operation against the timer; answered as timed out and awaiting the late
      operation; awaiting releases; returned, its bookkeeping still to come; resolved. */
  datatype Phase = Waiting | Racing | AwaitingLate | Releasing | Returned | Resolved

  /** A promise chained onto the one at place `after`; -1 stands for the promise that was resolved from the start. */
  datatype Job = Job(work: Work, after: int, phase: Phase)

  datatype Connection = Connection(ready: bool, jobs: seq<Job>, tail: int, inFlight: nat,
                                   clients: set<string>, revoked: set<string>)

  const OPENED: Connection := Connection(true, [], -1, 0, {}, {})

  datatype Reply = Queued | Refused(error: string)

  /** The process-wide state: tombstones in insertion order, client owners and the connections. */
  datatype Process = Process(tombstones: seq<Tombstone>, owners: map<string, nat>, conns: map<nat, Connection>)

  // ---- tombstones ----

  predicate HasKey(t: seq<Tombstone>, key: ReqId) {
    exists i :: 0 <= i < |t| && t[i].key == key
  }

  predicate Pending(t: seq<Tombstone>, key: ReqId) {
    exists i :: 0 <= i < |t| && t[i].key == key && t[i].pending
  }

  function Kept(t: seq<Tombstone>, cutoff: int): seq<Tombstone> {
    if t == [] then []
    else (if !t[0].pending && t[0].at < cutoff then [] else [t[0]]) + Kept(t[1..], cutoff)
  }

  /** Index of the oldest settled tombstone, or the length of the table. */
  function OldestSettled(t: seq<Tombstone>): (k: nat)
    ensures k <= |t| && (k < |t| ==> !t[k].pending)
    ensures forall i :: 0 <= i < k ==> t[i].pending
  {
    if t == [] then 0 else if !t[0].pending then 0 else 1 + OldestSettled(t[1..])
  }

  /** Make room for one more tombstone, if that can be done without losing a pending one. */
  function Evicted(t: seq<Tombstone>): seq<Tombstone> {
    var k := OldestSettled(t);
    if |t| >= DEDUP_MAX && k < |t| then t[..k] + t[k + 1..] else t
  }

  function Settled(t: seq<Tombstone>, key: ReqId, now: int): (r: seq<Tombstone>)
    ensures |r| == |t|
    ensures forall i :: 0 <= i < |t| ==> r[i] == if t[i].key == key then Tombstone(key, now, false) else t[i]
  {
    seq(|t|, i requires 0 <= i < |t| => if t[i].key == key then Tombstone(key, now, false) else t[i])
  }

  // ---- what each event does ----

  /** The refusal a frame meets before the tombstone table is looked at, if any. */
  function EarlyRefusal(p: Process, c: nat, op: Op, leased: bool): Option<string>
    requires c in p.conns
  {
    var conn := p.conns[c];
    var foreign := op.client in p.owners && p.owners[op.client] != c;
    var mine := op.client in p.owners && p.owners[op.client] == c;
    if op.client in conn.revoked then Some(if op.kind == Input then "indeterminate" else "lease_invalid")
    else if conn.inFlight >= MAX_IN_FLIGHT then Some("offline")
    else if foreign then Some("conflict")
    else if op.kind != Claim && !mine then Some("lease_invalid")
    else if op.kind == Input && !leased then Some("lease_invalid")
    else None
  }

  /** The tombstone table leaves room for this input. */
  predicate Admits(t: seq<Tombstone>, key: ReqId) {
    !HasKey(t, key) && (|t| < DEDUP_MAX || OldestSettled(t) < |t|)
  }

  /** The durable reservation is asked for. */
  predicate Asks(p: Process, c: nat, op: Op, now: int, leased: bool)
    requires c in p.conns
  {
    op.kind == Input && EarlyRefusal(p, c, op, leased).None? &&
      Admits(Kept(p.tombstones, now - DEDUP_TTL_MS), KeyOf(op))
  }

  /** One more closure, chained onto the tail and the new tail itself. */
  function Chain(conn: Connection, work: Work): Connection {
    conn.(jobs := conn.jobs + [Job(work, conn.tail, Waiting)], tail := |conn.jobs|)
  }

  function Chained(p: Process, c: nat, work: Work, more: nat): Process
    requires c in p.conns
  {
    p.(conns := p.conns[c := Chain(p.conns[c], work).(inFlight := p.conns[c].inFlight + more)])
  }

  function Received(p: Process, c: nat, op: Op, now: int, leased: bool, answer: Answer): (Process, Reply)
    requires c in p.conns
  {
    var early := EarlyRefusal(p, c, op, leased);
    if early.Some? then (p, Refused(early.value))
    else if op.kind != Input then (Chained(p, c, Control(op), 1), Queued)
    else
      var pruned := p.(tombstones := Kept(p.tombstones, now - DEDUP_TTL_MS));
      if !Admits(pruned.tombstones, KeyOf(op)) || answer != Granted then (pruned, Refused("indeterminate"))
      else
        var buried := pruned.(tombstones := Evicted(pruned.tombstones) + [Tombstone(KeyOf(op), now, true)]);
        (Chained(buried, c, Control(op), 1), Queued)
  }

  function Revoked(p: Process, c: nat, client: string): Process
    requires c in p.conns
  {
    var conn := p.conns[c];
    Chained(p.(conns := p.conns[c := conn.(revoked := conn.revoked + {client})]), c, Cleanup(client), 0)
  }

  function Phased(p: Process, c: nat, j: nat, phase: Phase): Process
    requires c in p.conns && j < |p.conns[c].jobs|
  {
    p.(conns := p.conns[c := p.conns[c].(jobs := p.conns[c].jobs[j := p.conns[c].jobs[j].(phase := phase)])])
  }

  /** The promise a closure is chained onto has resolved. */
  predicate CanBegin(conn: Connection, j: nat) {
    && j < |conn.jobs| && conn.jobs[j].phase == Waiting
    && (conn.jobs[j].after == -1 ||
        (0 <= conn.jobs[j].after < |conn.jobs| && conn.jobs[conn.jobs[j].after].phase == Resolved))
  }

  predicate Owns(p: Process, c: nat, client: string) {
    client in p.owners && p.owners[client] == c
  }

  /** The closure is an operation that gets as far as the session registry. */
  predicate Starts(conn: Connection, j: nat, targetOk: bool) {
    && j < |conn.jobs| && conn.jobs[j].work.Control? && conn.ready
    && conn.jobs[j].work.op.client !in conn.revoked && (conn.jobs[j].work.op.kind == Input || targetOk)
  }

  /** A closure runs up to its first await, or to its end. */
  function Begun(p: Process, c: nat, j: nat, targetOk: bool): Process
    requires c in p.conns && j < |p.conns[c].jobs|
  {
    var conn := p.conns[c];
    match conn.jobs[j].work
    case Control(op) =>
      if !Starts(conn, j, targetOk) then Phased(p, c, j, Returned)
      else if op.kind == Claim then
        var claimed :=
          p.(owners := p.owners[op.client := c], conns := p.conns[c := conn.(clients := conn.clients + {op.client})]);
        Phased(claimed, c, j, Racing)
      else Phased(p, c, j, Racing)
    case Cleanup(client) =>
      Phased(p, c, j, if client in conn.clients && Owns(p, c, client) then Releasing else Returned)
    case Drain => Phased(p, c, j, Releasing)
  }

  /** The awaited releases are over; a revoked client whose release failed is kept. */
  function Released(p: Process, c: nat, j: nat, ok: bool): Process
    requires c in p.conns && j < |p.conns[c].jobs|
  {
    var conn := p.conns[c];
    var done := Phased(p, c, j, Returned);
    match conn.jobs[j].work
    case Control(_) => done
    case Cleanup(client) =>
      if ok then
        done.(owners := p.owners - {client},
              conns := done.conns[c := done.conns[c].(clients := conn.clients - {client})])
      else done
    case Drain => done.(owners := map k | k in p.owners && !(k in conn.clients && p.owners[k] == c) :: p.owners[k])
  }

  /** The bookkeeping after a closure; then its promise is resolved. */
  function Concluded(p: Process, c: nat, j: nat, now: int): Process
    requires c in p.conns && j < |p.conns[c].jobs|
  {
    var done := Phased(p, c, j, Resolved);
    match p.conns[c].jobs[j].work
    case Control(op) =>
      var conn := done.conns[c];
      Process(if op.kind == Input then Settled(p.tombstones, KeyOf(op), now) else p.tombstones, p.owners,
              done.conns[c := conn.(inFlight := if conn.inFlight > 0 then conn.inFlight - 1 else 0)])
    case _ => done
  }

  /** A closed connection takes no more frames, and releases its clients once the chain has resolved. */
  function Closed(p: Process, c: nat): Process
    requires c in p.conns
  {
    var conn := p.conns[c];
    if !conn.ready then p
    else p.(conns := p.conns[c := Chain(conn, Drain).(ready := false, tail := conn.tail)])
  }

  // ---- the connector object ----

  class Connector {
    var tombstones: seq<Tombstone>
    var owners: map<string, nat>
    var conns: map<nat, Connection>

    ghost function View(): Process
      reads this
    {
      Process(tombstones, owners, conns)
    }

    constructor ()
      ensures View() == Process([], map[], map[])
    {
      tombstones, owners, conns := [], map[], map[];
    }

    method PruneTombstones(now: int)
      modifies this`tombstones
      ensures tombstones == Kept(old(tombstones), now - DEDUP_TTL_MS)
    {
      var t, cutoff := tombstones, now - DEDUP_TTL_MS;
      var kept := [];
      for i := 0 to |t|
        invariant kept + Kept(t[i..], cutoff) == Kept(t, cutoff)
      {
        ghost var rest := Kept(t[i + 1..], cutoff);
        assert t[i..][1..] == t[i + 1..];
        if t[i].pending || t[i].at >= cutoff {
          AppendAssoc(kept, t[i], rest);
          kept := kept + [t[i]];
        } else {
          assert [] + rest == rest;
        }
      }
      tombstones := kept;
    }

    method FindSettled() returns (k: nat)
      ensures k == OldestSettled(tombstones)
    {
      k := 0;
      while k < |tombstones| && tombstones[k].pending
        invariant k <= |tombstones|
        invariant k + OldestSettled(tombstones[k..]) == OldestSettled(tombstones)
      {
        assert tombstones[k..][1..] == tombstones[k + 1..];
        k := k + 1;
      }
    }

    method Receive(c: nat, op: Op, now: int, leased: bool, store: ReplayStore, fault: Fault)
      returns (reply: Reply, ghost answer: Answer)
      requires c in conns && store.Valid()
      modifies this, store
      ensures store.Valid() && old(store.states) <= store.states
      ensures Asks(old(View()), c, op, now, leased) ==>
                Reserves(old(store.View()), KeyOf(op), store.states[|old(store.states)| - 1..], answer, store.View())
      ensures !Asks(old(View()), c, op, now, leased) ==>
                store.View() == old(store.View()) && store.states == old(store.states)
      ensures (View(), reply) == Received(old(View()), c, op, now, leased, answer)
    {
      hide Reserves, Untouched, Attempts, Kept, Pending, Settled;
      answer := Threw;
      var conn := conns[c];
      if op.client in conn.revoked {
        return Refused(if op.kind == Input then "indeterminate" else "lease_invalid"), answer;
      }
      if conn.inFlight >= MAX_IN_FLIGHT { return Refused("offline"), answer; }
      if op.client in owners && owners[op.client] != c { return Refused("conflict"), answer; }
      if op.kind != Claim && !(op.client in owners && owners[op.client] == c) {
        return Refused("lease_invalid"), answer;
      }
      if op.kind == Input {
        // Invalid leases must not consume the finite, durable journal.
        if !leased { return Refused("lease_invalid"), answer; }
        PruneTombstones(now);
        if HasKey(tombstones, KeyOf(op)) { return Refused("indeterminate"), answer; }
        var oldest := FindSettled();
        if |tombstones| >= DEDUP_MAX && oldest == |tombstones| { return Refused("indeterminate"), answer; }
        var r := store.Reserve(op.client, op.request, fault);
        answer := r;
        if r != Granted { return Refused("indeterminate"), answer; }
        if |tombstones| >= DEDUP_MAX && oldest < |tombstones| {
          tombstones := tombstones[..oldest] + tombstones[oldest + 1..];
        }
        tombstones := tombstones + [Tombstone(KeyOf(op), now, true)];
      }
      conns := conns[c := Chain(conn, Control(op)).(inFlight := conn.inFlight + 1)];
      return Queued, answer;
    }

    /** A revocation fences the client at once; its cleanup waits for its turn. */
    method RevokeClient(c: nat, client: string)
      requires c in conns
      modifies this
      ensures View() == Revoked(old(View()), c, client)
    {
      var conn := conns[c].(revoked := conns[c].revoked + {client});
      conns := conns[c := Chain(conn, Cleanup(client))];
    }

    method SetPhase(c: nat, j: nat, phase: Phase)
      requires c in conns && j < |conns[c].jobs|
      modifies this`conns
      ensures View() == Phased(old(View()), c, j, phase)
    {
      conns := conns[c := conns[c].(jobs := conns[c].jobs[j := conns[c].jobs[j].(phase := phase)])];
    }

    /** The predecessor has resolved, and the closure runs up to its first await. */
    method Begin(c: nat, j: nat, targetOk: bool)
      requires c in conns && CanBegin(conns[c], j)
      modifies this
      ensures View() == Begun(old(View()), c, j, targetOk)
    {
      var conn := conns[c];
      match conn.jobs[j].work
      case Control(op) =>
        if !conn.ready || op.client in conn.revoked || (op.kind != Input && !targetOk) {
          SetPhase(c, j, Returned);
          return;
        }
        if op.kind == Claim {
          conns := conns[c := conn.(clients := conn.clients + {op.client})];
          owners := owners[op.client := c];
        }
        SetPhase(c, j, Racing);
      case Cleanup(client) =>
        if client in conn.clients && client in owners && owners[client] == c {
          SetPhase(c, j, Releasing);
        } else {
          SetPhase(c, j, Returned);
        }
      case Drain =>
        SetPhase(c, j, Releasing);
    }

    /** The timer wins the race: the outcome is reported as indeterminate and the operation is awaited all the same. */
    method TimeOut(c: nat, j: nat)
      requires c in conns && j < |conns[c].jobs| && conns[c].jobs[j].phase == Racing
      modifies this
      ensures View() == Phased(old(View()), c, j, AwaitingLate)
    {
      SetPhase(c, j, AwaitingLate);
    }

    /** The operation settles, in time or late. */
    method Settle(c: nat, j: nat)
      requires c in conns && j < |conns[c].jobs| && conns[c].jobs[j].phase in {Racing, AwaitingLate}
      modifies this
      ensures View() == Phased(old(View()), c, j, Returned)
    {
      SetPhase(c, j, Returned);
    }

    /** The awaited releases of a cleanup or of a closed connection are over. */
    method FinishRelease(c: nat, j: nat, ok: bool)
      requires c in conns && j < |conns[c].jobs| && conns[c].jobs[j].phase == Releasing
      modifies this
      ensures View() == Released(old(View()), c, j, ok)
    {
      var work := conns[c].jobs[j].work;
      SetPhase(c, j, Returned);
      match work
      case Control(_) =>
      case Cleanup(client) =>
        if ok {
          conns := conns[c := conns[c].(clients := conns[c].clients - {client})];
          owners := owners - {client};
        }
      case Drain =>
        ReleaseOwners(c);
    }

    method ReleaseOwners(c: nat)
      requires c in conns
      modifies this`owners
      ensures owners == map k | k in old(owners) && !(k in conns[c].clients && old(owners)[k] == c) :: old(owners)[k]
    {
      var todo := conns[c].clients;
      while todo != {}
        invariant todo <= conns[c].clients
        invariant owners ==
                  map k | k in old(owners) && !(k in conns[c].clients - todo && old(owners)[k] == c) :: old(owners)[k]
        decreases |todo|
      {
        var client :| client in todo;
        if client in owners && owners[client] == c { owners := owners - {client}; }
        todo := todo - {client};
      }
    }

    /** What follows a closure, whatever became of it: a place is free again, and an input's tombstone is settled. */
    method Conclude(c: nat, j: nat, now: int)
      requires c in conns && j < |conns[c].jobs| && conns[c].jobs[j].phase == Returned
      modifies this
      ensures View() == Concluded(old(View()), c, j, now)
    {
      var work := conns[c].jobs[j].work;
      SetPhase(c, j, Resolved);
      match work
      case Control(op) =>
        var conn := conns[c];
        conns := conns[c := conn.(inFlight := if conn.inFlight > 0 then conn.inFlight - 1 else 0)];
        if op.kind == Input { SettleTombstone(KeyOf(op), now); }
      case _ =>
    }

    method SettleTombstone(key: ReqId, now: int)
      modifies this`tombstones
      ensures tombstones == Settled(old(tombstones), key, now)
    {
      var updated := [];
      for i := 0 to |tombstones|
        invariant |updated| == i && forall j :: 0 <= j < i ==> updated[j] == Settled(tombstones, key, now)[j]
      {
        updated := updated + [if tombstones[i].key == key then Tombstone(key, now, false) else tombstones[i]];
      }
      tombstones := updated;
    }

    method OpenConnection(c: nat)
      modifies this
      ensures View() == old(View()).(conns := old(conns)[c := OPENED])
    {
      conns := conns[c := OPENED];
    }

    method CloseConnection(c: nat)
      requires c in conns
      modifies this
      ensures View() == Closed(old(View()), c)
    {
      var conn := conns[c];
      if !conn.ready { return; }
      conns := conns[c := Chain(conn, Drain).(ready := false, tail := conn.tail)];
    }
  }

  // ---- runs of the process and its journal ----

  /** The machine's journal with the number the connector's process has there, and what that process holds; other
      processes may have the journal open too. */
  datatype World =
    World(journal: ReplayJournal.World, me: nat, process: Process, nextConn: nat, handed: seq<ReqId>)

  datatype Step =
    | Connect
    | Receive(c: nat, op: Op, now: int, leased: bool, path: seq<Disk>, answer: Answer)
    | Revoke(c: nat, client: string)
    | Begin(c: nat, j: nat, targetOk: bool)
    | TimeOut(c: nat, j: nat)
    | Settle(c: nat, j: nat)
    | FinishRelease(c: nat, j: nat, ok: bool)
    | Conclude(c: nat, j: nat, now: int)
    | Close(c: nat)
    | Host(event: Event, next: nat)

  /** What ends the connector's process; opening the journal, what other processes do and what becomes of the lock file
      leave it as it is. */
  predicate EndsProcess(e: Event, me: nat) {
    match e
    case Kill(p) => p == me
    case KillIn(p, _, _, _) => p == me
    case CloseStore(p) => p == me
    case Crash(_) => true
    case CrashIn(_, _, _, _, _) => true
    case _ => false
  }

  predicate At(p: Process, c: nat, j: nat, phases: set<Phase>) {
    c in p.conns && j < |p.conns[c].jobs| && p.conns[c].jobs[j].phase in phases
  }

  /** Any closure may go on from any of its awaits; the only order there is comes from the promises it waits for. */
  ghost predicate Moves(w: World, s: Step, w': World) {
    var p, conns := w.process, w.process.conns;
    var w1 := w.(process := w'.process);
    match s
    case Connect =>
      w' == w1.(nextConn := w.nextConn + 1) && w'.process == p.(conns := conns[w.nextConn := OPENED])
    case Receive(c, op, now, leased, path, answer) =>
      c in conns && conns[c].ready && w' == w1.(journal := w'.journal) &&
      w'.process == Received(p, c, op, now, leased, answer).0 &&
      (if Asks(p, c, op, now, leased)
       then ReplayJournal.Next(w.journal, Event.Reserve(w.me, KeyOf(op), path, answer), w'.journal)
       else w'.journal == w.journal)
    case Revoke(c, client) =>
      c in conns && conns[c].ready && w' == w1 && w'.process == Revoked(p, c, client)
    case Begin(c, j, targetOk) =>
      c in conns && CanBegin(conns[c], j) && w'.process == Begun(p, c, j, targetOk) &&
      w' == w1.(handed := if Starts(conns[c], j, targetOk) && conns[c].jobs[j].work.op.kind == Input
                          then w.handed + [KeyOf(conns[c].jobs[j].work.op)] else w.handed)
    case TimeOut(c, j) =>
      At(p, c, j, {Racing}) && w' == w1 && w'.process == Phased(p, c, j, AwaitingLate)
    case Settle(c, j) =>
      At(p, c, j, {Racing, AwaitingLate}) && w' == w1 && w'.process == Phased(p, c, j, Returned)
    case FinishRelease(c, j, ok) =>
      At(p, c, j, {Releasing}) && w' == w1 && w'.process == Released(p, c, j, ok)
    case Conclude(c, j, now) =>
      At(p, c, j, {Returned}) && w' == w1 && w'.process == Concluded(p, c, j, now)
    case Close(c) =>
      c in conns && w' == w1 && w'.process == Closed(p, c)
    case Host(e, next) =>
      ReplayJournal.Next(w.journal, e, w'.journal) && !(e.Reserve? && e.process == w.me) &&
      w' == w1.(journal := w'.journal, me := if EndsProcess(e, w.me) then next else w.me) &&
      w'.process == if EndsProcess(e, w.me) then Process([], map[], map[]) else p
  }

  ghost predicate Execution(worlds: seq<World>, steps: seq<Step>) {
    && |worlds| == |steps| + 1
    && worlds[0] == World.World(ReplayJournal.World(Disk(None, {None}, None, None), map[], []), worlds[0].me,
                                Process([], map[], map[]), 0, [])
    && forall i :: 0 <= i < |steps| ==> Moves(worlds[i], steps[i], worlds[i + 1])
  }

  // ---- what every step keeps ----

  function Weight(job: Job): nat {
    if job.work.Control? && job.phase != Resolved then 1 else 0
  }

  /** The control operations whose promise has not resolved. */
  function Unresolved(jobs: seq<Job>): nat {
    if jobs == [] then 0 else Unresolved(jobs[..|jobs| - 1]) + Weight(jobs[|jobs| - 1])
  }

  /** `inFlight` counts the control operations that have not resolved, and never passes its bound. */
  predicate Counted(conn: Connection) {
    conn.inFlight == Unresolved(conn.jobs) <= MAX_IN_FLIGHT
  }

  lemma {:induction false} UnresolvedUpdate(jobs: seq<Job>, j: nat, job: Job)
    requires j < |jobs|
    ensures Unresolved(jobs[j := job]) == Unresolved(jobs) - Weight(jobs[j]) + Weight(job)
  {
    hide Weight;
    var n := |jobs| - 1;
    if j == n {
      assert jobs[j := job][..n] == jobs[..n];
    } else {
      assert jobs[j := job][..n] == jobs[..n][j := job];
      UnresolvedUpdate(jobs[..n], j, job);
    }
  }

  lemma ChainCounts(conn: Connection, work: Work)
    requires Counted(conn) && (work.Control? ==> conn.inFlight < MAX_IN_FLIGHT)
    ensures Unresolved(Chain(conn, work).jobs) == conn.inFlight + (if work.Control? then 1 else 0) <= MAX_IN_FLIGHT
  {
    assert (conn.jobs + [Job(work, conn.tail, Waiting)])[..|conn.jobs|] == conn.jobs;
  }

  /** One closure has gone on, without resolving. */
  predicate GoesOn(conn: Connection, conn': Connection, j: nat) {
    && j < |conn.jobs| == |conn'.jobs| && conn'.jobs[j].phase !in {Waiting, Resolved}
    && conn'.jobs == conn.jobs[j := conn.jobs[j].(phase := conn'.jobs[j].phase)]
    && conn'.tail == conn.tail && conn'.ready == conn.ready && conn'.inFlight == conn.inFlight
  }

  lemma StepGoesOn(w: World, s: Step, w': World)
    requires Moves(w, s, w') && (s.Begin? || s.TimeOut? || s.Settle? || s.FinishRelease?)
    ensures s.c in w.process.conns && s.c in w'.process.conns
    ensures GoesOn(w.process.conns[s.c], w'.process.conns[s.c], s.j)
    ensures w'.process.conns == w.process.conns[s.c := w'.process.conns[s.c]]
    ensures CanBegin(w.process.conns[s.c], s.j) || UnderWay(w.process.conns[s.c].jobs[s.j])
  {
    hide Received, Concluded, Settled, Reserves, Revoked, Closed;
  }

  lemma GoingOnCounts(conn: Connection, conn': Connection, j: nat)
    requires Counted(conn) && GoesOn(conn, conn', j) && conn.jobs[j].phase != Resolved
    ensures Counted(conn')
  {
    UnresolvedUpdate(conn.jobs, j, conn'.jobs[j]);
  }

  lemma ConcludeCounts(p: Process, c: nat, j: nat, now: int)
    requires c in p.conns && j < |p.conns[c].jobs| && Counted(p.conns[c]) && p.conns[c].jobs[j].phase != Resolved
    ensures var p' := Concluded(p, c, j, now); p'.conns == p.conns[c := p'.conns[c]] && Counted(p'.conns[c])
  {
    hide Settled;
    var jobs := p.conns[c].jobs;
    UnresolvedUpdate(jobs, j, jobs[j].(phase := Resolved));
  }

  lemma MovesKeepsCount(w: World, s: Step, w': World)
    requires Moves(w, s, w') && forall c :: c in w.process.conns ==> Counted(w.process.conns[c])
    ensures forall c :: c in w'.process.conns ==> Counted(w'.process.conns[c])
  {
    forall c | c in w'.process.conns ensures Counted(w'.process.conns[c]) {
      if c in w.process.conns && w'.process.conns[c] != w.process.conns[c] {
        ConnectionKeepsCount(w, s, w', c);
      } else {
        hide Reserves, Received, Begun, Released, Concluded, Closed, Revoked;
      }
    }
  }

  lemma ReceivedCounts(p: Process, c: nat, op: Op, now: int, leased: bool, answer: Answer)
    requires c in p.conns && Counted(p.conns[c])
    ensures var p' := Received(p, c, op, now, leased, answer).0;
            p'.conns == p.conns[c := p'.conns[c]] && Counted(p'.conns[c])
  {
    hide Kept, Evicted, Unresolved, Weight;
    if EarlyRefusal(p, c, op, leased).None? { ChainCounts(p.conns[c], Control(op)); }
  }

  lemma ConnectionKeepsCount(w: World, s: Step, w': World, c: nat)
    requires Moves(w, s, w') && c in w.process.conns && c in w'.process.conns
    requires forall d :: d in w.process.conns ==> Counted(w.process.conns[d])
    requires w'.process.conns[c] != w.process.conns[c]
    ensures Counted(w'.process.conns[c])
  {
    hide Reserves, Received, Concluded, Begun, Released, Phased, Unresolved, Weight, GoesOn;
    var conn := w.process.conns[c];
    match s
    case Connect => NothingCounted();
    case Receive(d, op, now, leased, path, answer) =>
      ReceivedCounts(w.process, d, op, now, leased, answer);
    case Revoke(_, client) => ChainCounts(conn, Cleanup(client));
    case Close(_) => ChainCounts(conn, Drain);
    case Conclude(d, j, now) =>
      ConcludeCounts(w.process, d, j, now);
    case Host(_, _) =>
    case _ =>
      StepGoesOn(w, s, w');
      GoingOnCounts(w.process.conns[s.c], w'.process.conns[s.c], s.j);
  }

  lemma NothingCounted()
    ensures Counted(OPENED)
  {
  }

  // ---- the promise chain ----

  /** Each closure is chained onto the one queued before it, and none has begun before all earlier ones resolved. */
  predicate InLine(jobs: seq<Job>) {
    && (forall j :: 0 <= j < |jobs| ==> jobs[j].after == j - 1)
    && (forall j, k :: 0 <= k < j < |jobs| && jobs[j].phase != Waiting ==> jobs[k].phase == Resolved)
  }

  predicate InOrder(conn: Connection) {
    InLine(conn.jobs) && (conn.ready ==> conn.tail == |conn.jobs| - 1)
  }

  /** A closure that has begun and has not resolved. */
  predicate UnderWay(job: Job) {
    job.phase != Waiting && job.phase != Resolved
  }

  lemma BeginKeepsOrder(conn: Connection, j: nat)
    requires InOrder(conn) && CanBegin(conn, j)
    ensures forall k :: 0 <= k < j ==> conn.jobs[k].phase == Resolved
    ensures forall k :: j < k < |conn.jobs| ==> conn.jobs[k].phase == Waiting
  {
    if j > 0 { assert conn.jobs[j].after == j - 1; }
  }

  lemma ChainKeepsOrder(conn: Connection, work: Work)
    requires InOrder(conn) && conn.ready
    ensures InOrder(Chain(conn, work))
  {
  }

  lemma GoingOnKeepsOrder(conn: Connection, conn': Connection, j: nat)
    requires InOrder(conn) && GoesOn(conn, conn', j) && (CanBegin(conn, j) || UnderWay(conn.jobs[j]))
    ensures InOrder(conn')
  {
    if conn.jobs[j].phase == Waiting { BeginKeepsOrder(conn, j); }
  }

  lemma ConcludingKeepsOrder(p: Process, c: nat, j: nat, now: int)
    requires c in p.conns && j < |p.conns[c].jobs| && InOrder(p.conns[c]) && UnderWay(p.conns[c].jobs[j])
    ensures var p' := Concluded(p, c, j, now); p'.conns == p.conns[c := p'.conns[c]] && InOrder(p'.conns[c])
  {
    hide Settled;
  }

  lemma MovesKeepsOrder(w: World, s: Step, w': World)
    requires Moves(w, s, w') && forall c :: c in w.process.conns ==> InOrder(w.process.conns[c])
    ensures forall c :: c in w'.process.conns ==> InOrder(w'.process.conns[c])
  {
    forall c | c in w'.process.conns ensures InOrder(w'.process.conns[c]) {
      if c in w.process.conns && w'.process.conns[c] != w.process.conns[c] {
        ConnectionKeepsOrder(w, s, w', c);
      } else {
        hide Reserves, Received, Begun, Released, Concluded, Closed, Revoked;
      }
    }
  }

  lemma ConnectionKeepsOrder(w: World, s: Step, w': World, c: nat)
    requires Moves(w, s, w') && c in w.process.conns && c in w'.process.conns
    requires forall d :: d in w.process.conns ==> InOrder(w.process.conns[d])
    requires w'.process.conns[c] != w.process.conns[c]
    ensures InOrder(w'.process.conns[c])
  {
    hide Reserves, Kept, Evicted, Concluded, Begun, Released, Phased, InLine, GoesOn;
    var conn := w.process.conns[c];
    match s
    case Connect => NothingInOrder();
    case Receive(_, op, _, _, _, _) => ChainKeepsOrder(conn, Control(op));
    case Revoke(_, client) => ChainKeepsOrder(conn, Cleanup(client));
    case Close(_) => ChainKeepsOrder(conn, Drain);
    case Host(_, _) =>
    case Conclude(d, j, now) => ConcludingKeepsOrder(w.process, d, j, now);
    case _ =>
      StepGoesOn(w, s, w');
      GoingOnKeepsOrder(w.process.conns[s.c], w'.process.conns[s.c], s.j);
  }

  lemma NothingInOrder()
    ensures InOrder(OPENED)
  {
  }

  /** An input with this key is closure `j` of connection `c`. */
  predicate InputAt(p: Process, c: nat, j: int, key: ReqId) {
    c in p.conns && 0 <= j < |p.conns[c].jobs| && var work := p.conns[c].jobs[j].work;
    work.Control? && work.op.kind == Input && KeyOf(work.op) == key
  }

  ghost predicate Accounted(w: World) {
    && (forall c, j, key :: InputAt(w.process, c, j, key) ==>
          key in w.journal.granted && (w.process.conns[c].jobs[j].phase == Waiting ==> key !in w.handed))
    && (forall c, i, d, j, key :: InputAt(w.process, c, i, key) && InputAt(w.process, d, j, key) ==> c == d && i == j)
    && Distinct(w.handed) && (forall key :: key in w.handed ==> key in w.journal.granted)
    && (forall c :: c in w.process.conns ==> c < w.nextConn)
  }

  /** This step has just chained the closure at this place. */
  predicate JustQueued(w: World, s: Step, c: nat, j: int) {
    s.Receive? && c == s.c && c in w.process.conns && j == |w.process.conns[c].jobs|
  }

  /** A closure of the new state was there before, and it has not gone back to waiting nor come back unresolved. */
  predicate WasThere(p: Process, p': Process, c: nat, j: int, key: ReqId)
    requires InputAt(p', c, j, key)
  {
    InputAt(p, c, j, key) &&
    (p'.conns[c].jobs[j].phase == Waiting ==> p.conns[c].jobs[j].phase == Waiting) &&
    (p.conns[c].jobs[j].phase == Resolved ==> p'.conns[c].jobs[j].phase == Resolved)
  }

  lemma ReceivedOrigin(p: Process, d: nat, op: Op, now: int, leased: bool, answer: Answer, c: nat, j: int, key: ReqId)
    requires d in p.conns && InputAt(Received(p, d, op, now, leased, answer).0, c, j, key)
    ensures if c == d && j == |p.conns[c].jobs| then Asks(p, d, op, now, leased) && answer == Granted &&
      key == KeyOf(op)
            else WasThere(p, Received(p, d, op, now, leased, answer).0, c, j, key)
  {
    hide Kept, Evicted, Pending, Settled;
  }

  lemma GoesOnOrigin(w: World, s: Step, w': World, c: nat, j: nat, key: ReqId)
    requires Moves(w, s, w') && InputAt(w'.process, c, j, key)
    requires s.Begin? || s.TimeOut? || s.Settle? || s.FinishRelease?
    ensures WasThere(w.process, w'.process, c, j, key)
  {
    StepGoesOn(w, s, w');
    hide Moves, UnderWay;
  }

  lemma ConcludedOrigin(p: Process, d: nat, k: nat, now: int, c: nat, j: nat, key: ReqId)
    requires d in p.conns && k < |p.conns[d].jobs| && p.conns[d].jobs[k].phase != Waiting
    requires InputAt(Concluded(p, d, k, now), c, j, key)
    ensures WasThere(p, Concluded(p, d, k, now), c, j, key)
  {
    hide Settled;
  }

  lemma ChainedOrigin(p: Process, d: nat, client: string, c: nat, j: nat, key: ReqId)
    requires d in p.conns
    ensures InputAt(Revoked(p, d, client), c, j, key) ==> WasThere(p, Revoked(p, d, client), c, j, key)
    ensures InputAt(Closed(p, d), c, j, key) ==> WasThere(p, Closed(p, d), c, j, key)
  {
  }

  /** An input in the new state was there before, or has just been asked for and granted. */
  lemma OriginIsInput(w: World, s: Step, w': World, c: nat, j: nat, key: ReqId)
    requires Moves(w, s, w') && InputAt(w'.process, c, j, key)
    requires forall d :: d in w.process.conns ==> d < w.nextConn
    ensures if JustQueued(w, s, c, j)
            then Asks(w.process, s.c, s.op, s.now, s.leased) && s.answer == Granted && key == KeyOf(s.op)
            else WasThere(w.process, w'.process, c, j, key)
  {
    hide Reserves, Asks, Begun, Released, Received, Concluded, Revoked, Closed, Phased, CanBegin, ReplayJournal.Next;
    match s
    case Receive(d, op, now, leased, _, answer) => ReceivedOrigin(w.process, d, op, now, leased, answer, c, j, key);
    case Revoke(d, client) => ChainedOrigin(w.process, d, client, c, j, key);
    case Close(d) => ChainedOrigin(w.process, d, "", c, j, key);
    case Conclude(d, k, now) => ConcludedOrigin(w.process, d, k, now, c, j, key);
    case Connect =>
    case Host(_, _) =>
    case _ => GoesOnOrigin(w, s, w', c, j, key);
  }

  lemma MovesKeepsAccount(w: World, s: Step, w': World)
    requires Moves(w, s, w') && Accounted(w) && ReplayJournal.Safe(w.journal)
    ensures Accounted(w') && ReplayJournal.Safe(w'.journal)
  {
    JournalStep(w, s, w');
    HandedStep(w, s, w');
    hide Moves, InputAt, ReplayJournal.Safe, Asks;
    forall c, j, key | InputAt(w'.process, c, j, key)
      ensures key in w'.journal.granted && (w'.process.conns[c].jobs[j].phase == Waiting ==> key !in w'.handed)
    {
      OriginIsInput(w, s, w', c, j, key);
      WaitingIsUnhanded(w, s, w', c, j, key);
    }
    forall c, i, d, j, key | InputAt(w'.process, c, i, key) && InputAt(w'.process, d, j, key) ensures c == d && i == j {
      OriginIsInput(w, s, w', c, i, key);
      OriginIsInput(w, s, w', d, j, key);
    }
    ConnectionsAreOld(w, s, w');
  }

  lemma ConnectionsAreOld(w: World, s: Step, w': World)
    requires Moves(w, s, w') && forall c :: c in w.process.conns ==> c < w.nextConn
    ensures forall c :: c in w'.process.conns ==> c < w'.nextConn
  {
    hide Reserves, Kept, Evicted, Settled;
  }

  lemma JournalStep(w: World, s: Step, w': World)
    requires Moves(w, s, w') && ReplayJournal.Safe(w.journal)
    ensures ReplayJournal.Safe(w'.journal) && w.journal.granted <= w'.journal.granted
    ensures s.Receive? && Asks(w.process, s.c, s.op, s.now, s.leased) && s.answer == Granted ==>
              KeyOf(s.op) !in w.journal.granted && w'.journal.granted == w.journal.granted + [KeyOf(s.op)]
  {
    if s.Host? {
      NextIsSafe(w.journal, s.event, w'.journal);
    } else if s.Receive? && Asks(w.process, s.c, s.op, s.now, s.leased) {
      NextIsSafe(w.journal, Event.Reserve(w.me, KeyOf(s.op), s.path, s.answer), w'.journal);
    }
  }

  lemma HandedStep(w: World, s: Step, w': World)
    requires Moves(w, s, w') && Accounted(w)
    ensures Distinct(w'.handed) && forall key :: key in w'.handed ==> key in w.journal.granted
  {
    hide Reserves, Received, Released, Concluded;
    if s.Begin? && w'.handed != w.handed {
      assert InputAt(w.process, s.c, s.j, KeyOf(w.process.conns[s.c].jobs[s.j].work.op));
    }
  }

  lemma WaitingIsUnhanded(w: World, s: Step, w': World, c: nat, j: int, key: ReqId)
    requires Moves(w, s, w') && Accounted(w) && ReplayJournal.Safe(w.journal) && InputAt(w'.process, c, j, key)
    ensures w'.process.conns[c].jobs[j].phase == Waiting ==> key !in w'.handed
  {
    OriginIsInput(w, s, w', c, j, key);
    JournalStep(w, s, w');
    hide Reserves, Received, Released, Concluded;
    if s.Begin? && w'.handed != w.handed {
      assert InputAt(w.process, s.c, s.j, KeyOf(w.process.conns[s.c].jobs[s.j].work.op));
    }
  }

  // ---- the tombstone table ----

  predicate UniqueKeys(t: seq<Tombstone>) {
    forall i, j :: 0 <= i < j < |t| ==> t[i].key != t[j].key
  }

  lemma {:induction false} KeptFacts(t: seq<Tombstone>, cutoff: int)
    ensures var r := Kept(t, cutoff);
            && |r| <= |t| && (UniqueKeys(t) ==> UniqueKeys(r))
            && (forall x :: x in r ==> x in t) && (forall x :: x in t && x.pending ==> x in r)
  {
    if t == [] {
    } else {
      KeptFacts(t[1..], cutoff);
      var r, rest := Kept(t, cutoff), Kept(t[1..], cutoff);
      if UniqueKeys(t) {
        assert UniqueKeys(t[1..]);
        forall i, j | 0 <= i < j < |r| ensures r[i].key != r[j].key {
          if |r| > |rest| && i == 0 {
            assert r[j] == rest[j - 1] && rest[j - 1] in t[1..];
          }
        }
      }
    }
  }

  lemma EvictedFacts(t: seq<Tombstone>)
    requires UniqueKeys(t) && |t| <= DEDUP_MAX && (|t| < DEDUP_MAX || OldestSettled(t) < |t|)
    ensures var r := Evicted(t);
            && |r| < DEDUP_MAX && UniqueKeys(r)
            && (forall x :: x in r ==> x in t) && (forall x :: x in t && x.pending ==> x in r)
  {
    var k := OldestSettled(t);
    forall x | x in t && x.pending ensures x in Evicted(t) {
      var i :| 0 <= i < |t| && t[i] == x;
      if i < k { assert t[..k][i] == x; } else if i > k && k < |t| { assert t[k + 1..][i - k - 1] == x; }
    }
  }

  lemma PendingIn(t: seq<Tombstone>, key: ReqId)
    ensures Pending(t, key) <==> exists x :: x in t && x.key == key && x.pending
  {
    if x :| x in t && x.key == key && x.pending {
      var i :| 0 <= i < |t| && t[i] == x;
      assert Pending(t, key);
    }
    if Pending(t, key) {
      var i :| 0 <= i < |t| && t[i].key == key && t[i].pending;
      assert t[i] in t;
    }
  }

  /** The table is bounded, and every unsettled input has its pending tombstone in it. */
  ghost predicate Buried(w: World) {
    && |w.process.tombstones| <= DEDUP_MAX && UniqueKeys(w.process.tombstones)
    && forall c, j, key :: InputAt(w.process, c, j, key) && w.process.conns[c].jobs[j].phase != Resolved ==>
         Pending(w.process.tombstones, key)
  }

  /** The step that resolves the closure of this input. */
  predicate Settles(w: World, s: Step, key: ReqId) {
    match s
    case Conclude(c, j, _) => InputAt(w.process, c, j, key)
    case Host(e, _) => EndsProcess(e, w.me)
    case _ => false
  }

  /** No step loses a pending tombstone, except the one that settles its operation. */
  lemma PendingTombstonesStay(w: World, s: Step, w': World, key: ReqId)
    requires Moves(w, s, w') && Pending(w.process.tombstones, key) && !Settles(w, s, key)
    requires UniqueKeys(w.process.tombstones) && |w.process.tombstones| <= DEDUP_MAX
    ensures Pending(w'.process.tombstones, key)
  {
    hide Kept, Evicted;
    var t, t' := w.process.tombstones, w'.process.tombstones;
    match s
    case Receive(c, op, now, leased, path, answer) =>
      ReceivedTable(w.process, c, op, now, leased, answer, key);
    case Conclude(c, j, now) =>
      var work := w.process.conns[c].jobs[j].work;
      if work.Control? && work.op.kind == Input { OtherKeysStay(t, key, KeyOf(work.op), now); }
    case _ =>
  }

  lemma OtherKeysStay(t: seq<Tombstone>, key: ReqId, other: ReqId, now: int)
    requires Pending(t, key) && key != other
    ensures Pending(Settled(t, other, now), key)
  {
    var i :| 0 <= i < |t| && t[i].key == key && t[i].pending;
    assert Settled(t, other, now)[i] == t[i];
  }

  lemma ReceivedTable(p: Process, c: nat, op: Op, now: int, leased: bool, answer: Answer, key: ReqId)
    requires c in p.conns && UniqueKeys(p.tombstones) && |p.tombstones| <= DEDUP_MAX
    ensures var t' := Received(p, c, op, now, leased, answer).0.tombstones;
            && |t'| <= DEDUP_MAX && UniqueKeys(t') && (Pending(p.tombstones, key) ==> Pending(t', key))
            && (Asks(p, c, op, now, leased) && answer == Granted ==> Pending(t', KeyOf(op)))
  {
    hide Kept, Evicted;
    var t, t' := p.tombstones, Received(p, c, op, now, leased, answer).0.tombstones;
    var pruned := Kept(t, now - DEDUP_TTL_MS);
    KeptFacts(t, now - DEDUP_TTL_MS);
    PendingIn(t, key);
    PendingIn(t', key);
    if Asks(p, c, op, now, leased) && answer == Granted {
      EvictedFacts(pruned);
      var kept := Evicted(pruned);
      assert t' == kept + [Tombstone(KeyOf(op), now, true)];
      forall i | 0 <= i < |kept| ensures kept[i].key != KeyOf(op) {
        assert kept[i] in pruned;
      }
      assert t'[|kept|].key == KeyOf(op);
    }
  }

  lemma TableStep(w: World, s: Step, w': World)
    requires Moves(w, s, w') && Buried(w)
    ensures |w'.process.tombstones| <= DEDUP_MAX && UniqueKeys(w'.process.tombstones)
  {
    hide Kept, Evicted;
    if s.Receive? { ReceivedTable(w.process, s.c, s.op, s.now, s.leased, s.answer, KeyOf(s.op)); }
  }

  lemma MovesKeepsBuried(w: World, s: Step, w': World)
    requires Moves(w, s, w') && Buried(w) && Accounted(w)
    ensures Buried(w')
  {
    hide Received, Begun, Released, Concluded, Closed, Revoked;
    TableStep(w, s, w');
    forall c, j, key | InputAt(w'.process, c, j, key) && w'.process.conns[c].jobs[j].phase != Resolved
      ensures Pending(w'.process.tombstones, key)
    {
      OriginIsInput(w, s, w', c, j, key);
      if JustQueued(w, s, c, j) {
        ReceivedTable(w.process, s.c, s.op, s.now, s.leased, s.answer, key);
      } else {
        NotSettledHere(w, s, w', c, j, key);
        PendingTombstonesStay(w, s, w', key);
      }
    }
  }

  lemma NotSettledHere(w: World, s: Step, w': World, c: nat, j: int, key: ReqId)
    requires Moves(w, s, w') && Accounted(w) && InputAt(w'.process, c, j, key) && InputAt(w.process, c, j, key)
    requires w'.process.conns[c].jobs[j].phase != Resolved
    ensures !Settles(w, s, key) && w.process.conns[c].jobs[j].phase != Resolved
  {
    OriginIsInput(w, s, w', c, j, key);
    hide Reserves, Received, Begun, Released, Concluded, Closed, Revoked;
  }

  // ---- who owns a client ----

  /** Every owner is a connection that has the client among its own. */
  ghost predicate Owned(p: Process) {
    forall client :: client in p.owners ==>
      p.owners[client] in p.conns && client in p.conns[p.owners[client]].clients
  }

  predicate DrainAt(p: Process, c: nat, j: int) {
    c in p.conns && 0 <= j < |p.conns[c].jobs| && p.conns[c].jobs[j].work.Drain?
  }

  predicate Over(job: Job) {
    job.phase == Returned || job.phase == Resolved
  }

  /** The connection is closed and its releases are over. */
  predicate Drained(conn: Connection) {
    exists j :: 0 <= j < |conn.jobs| && conn.jobs[j].work.Drain? && Over(conn.jobs[j])
  }

  /** A drain is there only after closing, and awaits releases only; once it is over, the connection owns nothing. */
  ghost predicate OwnersAreLive(w: World) {
    && Owned(w.process) && (forall c :: c in w.process.conns ==> c < w.nextConn)
    && (forall c, j :: DrainAt(w.process, c, j) ==>
          !w.process.conns[c].ready && w.process.conns[c].jobs[j].phase !in {Racing, AwaitingLate})
    && forall c, client :: c in w.process.conns && Drained(w.process.conns[c]) ==> !Owns(w.process, c, client)
  }

  lemma MovesKeepsOwned(w: World, s: Step, w': World)
    requires Moves(w, s, w') && OwnersAreLive(w)
    ensures Owned(w'.process)
  {
    hide Reserves, Kept, Evicted, Settled, Drained, DrainAt;
  }

  /** A frame adds at most one control closure to its own connection. */
  lemma ReceivedJobs(p: Process, c: nat, op: Op, now: int, leased: bool, answer: Answer)
    requires c in p.conns
    ensures var p' := Received(p, c, op, now, leased, answer).0;
            && c in p'.conns && p'.conns == p.conns[c := p'.conns[c]] && p'.conns[c].ready == p.conns[c].ready
            && (p'.conns[c].jobs == p.conns[c].jobs ||
                p'.conns[c].jobs == p.conns[c].jobs + [Job(Control(op), p.conns[c].tail, Waiting)])
  {
    hide Kept, Evicted, EarlyRefusal, Admits;
  }

  lemma ConcludedJobs(p: Process, c: nat, j: nat, now: int)
    requires c in p.conns && j < |p.conns[c].jobs|
    ensures var p' := Concluded(p, c, j, now);
            && c in p'.conns && p'.conns == p.conns[c := p'.conns[c]] && p'.conns[c].ready == p.conns[c].ready
            && p'.conns[c].jobs == p.conns[c].jobs[j := p.conns[c].jobs[j].(phase := Resolved)]
  {
    hide Settled;
  }

  lemma DrainOrigin(w: World, s: Step, w': World, c: nat, j: int)
    requires Moves(w, s, w') && OwnersAreLive(w) && DrainAt(w'.process, c, j)
    ensures !w'.process.conns[c].ready && w'.process.conns[c].jobs[j].phase !in {Racing, AwaitingLate}
    ensures Over(w'.process.conns[c].jobs[j]) ==>
              DrainAt(w.process, c, j) && (Over(w.process.conns[c].jobs[j]) ||
                                           (s.FinishRelease? && s.c == c && s.j == j))
  {
    hide Reserves, Owned, Drained, Owns, Begun, Released, Received, Concluded, Phased, CanBegin, ReplayJournal.Next;
    if DrainAt(w.process, c, j) { assert !w.process.conns[c].ready; }
    match s
    case Receive(d, op, now, leased, _, answer) => ReceivedJobs(w.process, d, op, now, leased, answer);
    case Conclude(d, k, now) => ConcludedJobs(w.process, d, k, now);
    case Connect =>
    case Revoke(_, _) =>
    case Close(_) =>
    case Host(_, _) =>
    case _ =>
      StepGoesOn(w, s, w');
      if s.c == c && s.j == j { DrainGoesOn(w, s, w'); } else { hide Moves; }
  }

  lemma DrainGoesOn(w: World, s: Step, w': World)
    requires Moves(w, s, w') && (s.Begin? || s.TimeOut? || s.Settle? || s.FinishRelease?)
    requires DrainAt(w.process, s.c, s.j) && w.process.conns[s.c].jobs[s.j].phase !in {Racing, AwaitingLate}
    ensures s.c in w'.process.conns && s.j < |w'.process.conns[s.c].jobs|
    ensures w'.process.conns[s.c].ready == w.process.conns[s.c].ready
    ensures w'.process.conns[s.c].jobs[s.j].phase == if s.FinishRelease? then Returned else Releasing
  {
    hide Received, Revoked, Closed, Concluded, Reserves;
  }

  lemma MovesKeepsOwners(w: World, s: Step, w': World)
    requires Moves(w, s, w') && OwnersAreLive(w)
    ensures OwnersAreLive(w')
  {
    MovesKeepsOwned(w, s, w');
    ConnectionsAreOld(w, s, w');
    hide Moves, Owned, Owns, Over;
    forall c, j | DrainAt(w'.process, c, j)
      ensures !w'.process.conns[c].ready && w'.process.conns[c].jobs[j].phase !in {Racing, AwaitingLate}
    {
      DrainOrigin(w, s, w', c, j);
    }
    forall c, client | c in w'.process.conns && Drained(w'.process.conns[c]) ensures !Owns(w'.process, c, client) {
      var j :| 0 <= j < |w'.process.conns[c].jobs| && w'.process.conns[c].jobs[j].work.Drain? &&
        Over(w'.process.conns[c].jobs[j]);
      DrainOrigin(w, s, w', c, j);
      DrainedStaysFree(w, s, w', c, j, client);
    }
  }

  lemma DrainedStaysFree(w: World, s: Step, w': World, c: nat, j: int, client: string)
    requires Moves(w, s, w') && OwnersAreLive(w) && c in w'.process.conns && DrainAt(w.process, c, j)
    requires Over(w.process.conns[c].jobs[j]) || (s.FinishRelease? && s.c == c && s.j == j)
    ensures !Owns(w'.process, c, client)
  {
    if Over(w.process.conns[c].jobs[j]) {
      assert Drained(w.process.conns[c]);
      OwnerChangesExactly(w, s, w', c, client);
      hide Moves;
    } else {
      hide Drained, Begun, Received, Revoked, Closed, Concluded;
    }
  }

  lemma {:induction false} ExecutionKeepsOwners(worlds: seq<World>, steps: seq<Step>, i: nat)
    requires Execution(worlds, steps) && i < |worlds|
    ensures OwnersAreLive(worlds[i])
  {
    hide Moves;
    if i == 0 {
    } else {
      ExecutionKeepsOwners(worlds, steps, i - 1);
      MovesKeepsOwners(worlds[i - 1], steps[i - 1], worlds[i]);
    }
  }

  /** Once a closed connection has drained, no client belongs to it, and none will: another connection may claim
      them. */
  lemma ClosedConnectionOwnsNothing(worlds: seq<World>, steps: seq<Step>, i: nat, c: nat, client: string)
    requires Execution(worlds, steps) && i < |worlds| && c in worlds[i].process.conns
    requires Drained(worlds[i].process.conns[c])
    ensures !Owns(worlds[i].process, c, client)
  {
    ExecutionKeepsOwners(worlds, steps, i);
  }

  /** The closure is a claim of this client that gets as far as the session registry. */
  predicate ClaimsNow(p: Process, s: Step, c: nat, client: string) {
    s.Begin? && s.c == c && c in p.conns && Starts(p.conns[c], s.j, s.targetOk) &&
    p.conns[c].jobs[s.j].work.op.kind == Claim && p.conns[c].jobs[s.j].work.op.client == client
  }

  /** A client goes to a connection exactly when its claim begins there; whose it was by then is not looked at again. */
  lemma OwnerChangesExactly(w: World, s: Step, w': World, c: nat, client: string)
    requires Moves(w, s, w') && !Owns(w.process, c, client)
    ensures Owns(w'.process, c, client) <==> ClaimsNow(w.process, s, c, client)
  {
    hide Reserves, Kept, Evicted, Settled;
  }

  /** Two connections may both have a claim of a client admitted; the one that begins last takes the client over while
      the claim of the first is still in progress. */
  lemma ClaimIsTakenOver(op: Op)
    requires op.kind == Claim
    ensures var p0 := Process([], map[], map[0 := OPENED, 1 := OPENED]);
            var p1 := Received(p0, 0, op, 0, false, Threw);
            var p2 := Received(p1.0, 1, op, 0, false, Threw);
            && p1.1 == Queued && p2.1 == Queued
            && CanBegin(p2.0.conns[0], 0) && CanBegin(p2.0.conns[1], 0)
            && var p3 := Begun(Begun(p2.0, 0, 0, true), 1, 0, true);
               Owns(p3, 1, op.client) && At(p3, 0, 0, {Racing}) && op.client in p3.conns[0].clients
  {
  }

  // ---- safety over whole executions ----

  ghost predicate Invariant(w: World) {
    && ReplayJournal.Safe(w.journal) && Accounted(w) && Buried(w)
    && forall c :: c in w.process.conns ==> Counted(w.process.conns[c]) && InOrder(w.process.conns[c])
  }

  lemma {:induction false} ExecutionKeepsInvariant(worlds: seq<World>, steps: seq<Step>, i: nat)
    requires Execution(worlds, steps) && i < |worlds|
    ensures Invariant(worlds[i])
  {
    hide Moves, Accounted, Buried, Counted, InOrder;
    if i == 0 {
      EmptyWorldIsSafe(worlds[0]);
    } else {
      ExecutionKeepsInvariant(worlds, steps, i - 1);
      var w, s, w' := worlds[i - 1], steps[i - 1], worlds[i];
      MovesKeepsCount(w, s, w');
      MovesKeepsOrder(w, s, w');
      MovesKeepsAccount(w, s, w');
      MovesKeepsBuried(w, s, w');
    }
  }

  lemma EmptyWorldIsSafe(w: World)
    requires w.process == Process([], map[], map[]) && w.handed == [] && w.journal.granted == []
    requires ReplayJournal.Safe(w.journal)
    ensures Invariant(w)
  {
  }

  /** On every connection at most sixteen control operations are unresolved. */
  lemma AtMostSixteenInFlight(worlds: seq<World>, steps: seq<Step>, i: nat, c: nat)
    requires Execution(worlds, steps) && i < |worlds| && c in worlds[i].process.conns
    ensures Unresolved(worlds[i].process.conns[c].jobs) <= MAX_IN_FLIGHT
  {
    ExecutionKeepsInvariant(worlds, steps, i);
    assert Counted(worlds[i].process.conns[c]);
  }

  ghost predicate HandsOver(worlds: seq<World>, steps: seq<Step>, i: nat, key: ReqId) {
    && i < |steps| && |worlds| == |steps| + 1 && steps[i].Begin?
    && InputAt(worlds[i].process, steps[i].c, steps[i].j, key)
    && Starts(worlds[i].process.conns[steps[i].c], steps[i].j, steps[i].targetOk)
  }

  lemma {:induction false} HandedGrows(worlds: seq<World>, steps: seq<Step>, i: nat, j: nat)
    requires Execution(worlds, steps) && i <= j < |worlds|
    ensures worlds[i].handed <= worlds[j].handed
    decreases j - i
  {
    if i == j {
    } else {
      assert Moves(worlds[j - 1], steps[j - 1], worlds[j]);
      HandedGrows(worlds, steps, i, j - 1);
    }
  }

  /** An input is handed to its session at most once, across reconnects, crashes and restarts. */
  lemma InputHandedAtMostOnce(worlds: seq<World>, steps: seq<Step>, i: nat, j: nat, key: ReqId)
    requires Execution(worlds, steps) && HandsOver(worlds, steps, i, key) && HandsOver(worlds, steps, j, key)
    ensures i == j
  {
    if i != j {
      var a, b := if i < j then i else j, if i < j then j else i;
      assert Moves(worlds[a], steps[a], worlds[a + 1]) && Moves(worlds[b], steps[b], worlds[b + 1]);
      assert key in worlds[a + 1].handed;
      HandedGrows(worlds, steps, a + 1, b);
      ExecutionKeepsInvariant(worlds, steps, b);
    }
  }

  lemma {:induction false} RevocationLasts(worlds: seq<World>, steps: seq<Step>, i: nat, j: nat, c: nat, client: string)
    requires Execution(worlds, steps) && i <= j < |worlds| && c < worlds[i].nextConn
    requires c in worlds[i].process.conns ==> client in worlds[i].process.conns[c].revoked
    ensures c < worlds[j].nextConn && (c in worlds[j].process.conns ==> client in worlds[j].process.conns[c].revoked)
    decreases j - i
  {
    if i == j {
    } else {
      assert Moves(worlds[j - 1], steps[j - 1], worlds[j]);
      RevocationLasts(worlds, steps, i, j - 1, c, client);
    }
  }

  /** What beginning does: an operation runs exactly while its connection is ready, its client is not revoked and, for a
      claim or a release, its target matches; only then an input is handed over or a claim changes the owner. */
  lemma BeginsExactly(w: World, s: Step, w': World)
    requires Moves(w, s, w') && s.Begin?
    ensures s.c in w.process.conns && s.c in w'.process.conns
    ensures s.j < |w.process.conns[s.c].jobs| == |w'.process.conns[s.c].jobs|
    ensures w.process.conns[s.c].jobs[s.j].work == w'.process.conns[s.c].jobs[s.j].work
    ensures var conn, phase := w.process.conns[s.c], w'.process.conns[s.c].jobs[s.j].phase;
            match conn.jobs[s.j].work
            case Control(op) =>
              && (phase == Racing <==>
                  conn.ready && op.client !in conn.revoked && (op.kind == Input || s.targetOk))
              && (phase != Racing ==> phase == Returned)
              && w'.handed == (if phase == Racing && op.kind == Input then w.handed + [KeyOf(op)] else w.handed)
              && w'.process.owners == (if phase == Racing && op.kind == Claim
                                       then w.process.owners[op.client := s.c] else w.process.owners)
              && w'.process.conns[s.c].clients ==
                 conn.clients + (if phase == Racing && op.kind == Claim then {op.client} else {})
            case Cleanup(client) =>
              && w'.handed == w.handed && w'.process.owners == w.process.owners
              && phase == if client in conn.clients && Owns(w.process, s.c, client) then Releasing else Returned
            case Drain =>
              w'.handed == w.handed && w'.process.owners == w.process.owners && phase == Releasing
  {
    hide Reserves, Received, Released, Concluded, Revoked, Closed, ReplayJournal.Next;
  }

  lemma {:induction false} ClosingLasts(worlds: seq<World>, steps: seq<Step>, i: nat, j: nat, c: nat)
    requires Execution(worlds, steps) && i <= j < |worlds| && c < worlds[i].nextConn
    requires c in worlds[i].process.conns ==> !worlds[i].process.conns[c].ready
    ensures c < worlds[j].nextConn && (c in worlds[j].process.conns ==> !worlds[j].process.conns[c].ready)
    decreases j - i
  {
    hide Moves;
    if i == j {
    } else {
      assert Moves(worlds[j - 1], steps[j - 1], worlds[j]);
      ClosingLasts(worlds, steps, i, j - 1, c);
      StaysClosed(worlds[j - 1], steps[j - 1], worlds[j], c);
    }
  }

  lemma StaysClosed(w: World, s: Step, w': World, c: nat)
    requires Moves(w, s, w') && c < w.nextConn && (c in w.process.conns ==> !w.process.conns[c].ready)
    ensures c < w'.nextConn && (c in w'.process.conns ==> !w'.process.conns[c].ready)
  {
    hide Reserves, Begun, Released, Received, Concluded, Phased, CanBegin, ReplayJournal.Next;
    match s
    case Receive(d, op, now, leased, _, answer) => ReceivedJobs(w.process, d, op, now, leased, answer);
    case Conclude(d, k, now) => ConcludedJobs(w.process, d, k, now);
    case Connect =>
    case Revoke(_, _) =>
    case Close(_) =>
    case Host(_, _) =>
    case _ => StepGoesOn(w, s, w');
  }

  /** After a connection has closed, whatever is still queued on it returns at once: no operation is started, no input
      handed over and no client taken, queued before or not. */
  lemma ClosedConnectionStartsNothing(worlds: seq<World>, steps: seq<Step>, i: nat, j: nat, c: nat)
    requires Execution(worlds, steps) && i < j < |steps| && steps[i] == Close(c)
    requires steps[j].Begin? && steps[j].c == c
    ensures worlds[j + 1].handed == worlds[j].handed && worlds[j + 1].process.owners == worlds[j].process.owners
    ensures c in worlds[j + 1].process.conns && steps[j].j < |worlds[j + 1].process.conns[c].jobs|
    ensures var job := worlds[j + 1].process.conns[c].jobs[steps[j].j]; job.work.Control? ==> job.phase == Returned
  {
    InvariantFacts(worlds, steps, i);
    assert Moves(worlds[i], steps[i], worlds[i + 1]) && Moves(worlds[j], steps[j], worlds[j + 1]);
    CloseEndsReady(worlds[i], steps[i], worlds[i + 1]);
    BeginsExactly(worlds[j], steps[j], worlds[j + 1]);
    hide Moves;
    ClosingLasts(worlds, steps, i + 1, j, c);
  }

  lemma CloseEndsReady(w: World, s: Step, w': World)
    requires Moves(w, s, w') && s.Close?
    ensures s.c in w.process.conns && s.c in w'.process.conns && !w'.process.conns[s.c].ready
    ensures w'.nextConn == w.nextConn
  {
    hide Reserves, Begun, Released, Received, Concluded, ReplayJournal.Next;
  }

  /** After a revocation no operation of that client is started on the connection, queued earlier or not: it returns at
      once, and hands nothing over. */
  lemma RevokedClientStartsNothing(worlds: seq<World>, steps: seq<Step>, i: nat, j: nat, client: string)
    requires Execution(worlds, steps) && i < j < |steps|
    requires steps[i].Revoke? && steps[i].client == client && steps[j].Begin? && steps[j].c == steps[i].c
    ensures steps[j].c in worlds[j].process.conns
    ensures var conn := worlds[j].process.conns[steps[j].c];
            Starts(conn, steps[j].j, steps[j].targetOk) ==> conn.jobs[steps[j].j].work.op.client != client
    ensures steps[j].c in worlds[j + 1].process.conns
    ensures steps[j].j < |worlds[j + 1].process.conns[steps[j].c].jobs|
    ensures var job := worlds[j + 1].process.conns[steps[j].c].jobs[steps[j].j];
            job.work.Control? && job.work.op.client == client ==>
              job.phase == Returned && worlds[j + 1].handed == worlds[j].handed &&
              worlds[j + 1].process.owners == worlds[j].process.owners
  {
    ExecutionKeepsInvariant(worlds, steps, i);
    assert Moves(worlds[i], steps[i], worlds[i + 1]) && Moves(worlds[j], steps[j], worlds[j + 1]);
    RevocationLasts(worlds, steps, i + 1, j, steps[i].c, client);
    BeginsExactly(worlds[j], steps[j], worlds[j + 1]);
  }

  /** At every moment at most one closure of a connection is under way, a timed-out operation and a release included:
      whatever is queued behind it has not begun, and whatever was queued before it has resolved. */
  lemma OneOperationAtATime(worlds: seq<World>, steps: seq<Step>, i: nat, c: nat, j: nat)
    requires Execution(worlds, steps) && i < |worlds| && c in worlds[i].process.conns
    requires j < |worlds[i].process.conns[c].jobs| && UnderWay(worlds[i].process.conns[c].jobs[j])
    ensures var jobs := worlds[i].process.conns[c].jobs;
            && (forall k :: 0 <= k < j ==> jobs[k].phase == Resolved)
            && (forall k :: j < k < |jobs| ==> jobs[k].phase == Waiting)
  {
    ExecutionKeepsInvariant(worlds, steps, i);
    assert InOrder(worlds[i].process.conns[c]);
  }

  lemma {:induction false} OperationLasts(worlds: seq<World>, steps: seq<Step>, i: nat, m: nat, c: nat, j: nat)
    requires Execution(worlds, steps) && i <= m < |worlds| && c < worlds[i].nextConn
    requires c in worlds[i].process.conns ==> At(worlds[i].process, c, j, {Racing, AwaitingLate})
    requires forall k :: i <= k < m ==> steps[k] != Settle(c, j)
    ensures c < worlds[m].nextConn
    ensures (c in worlds[m].process.conns ==> At(worlds[m].process, c, j, {Racing, AwaitingLate}))
    decreases m - i
  {
    hide Moves;
    if i == m {
    } else {
      assert Moves(worlds[m - 1], steps[m - 1], worlds[m]);
      OperationLasts(worlds, steps, i, m - 1, c, j);
      StaysUnderWay(worlds[m - 1], steps[m - 1], worlds[m], c, j);
    }
  }

  lemma StaysUnderWay(w: World, s: Step, w': World, c: nat, j: nat)
    requires Moves(w, s, w') && c < w.nextConn && s != Settle(c, j)
    requires c in w.process.conns ==> At(w.process, c, j, {Racing, AwaitingLate})
    ensures c < w'.nextConn && (c in w'.process.conns ==> At(w'.process, c, j, {Racing, AwaitingLate}))
  {
    hide Reserves, Begun, Released, Received, Concluded, Phased, CanBegin, ReplayJournal.Next;
    match s
    case Receive(d, op, now, leased, _, answer) => ReceivedJobs(w.process, d, op, now, leased, answer);
    case Conclude(d, k, now) => ConcludedJobs(w.process, d, k, now);
    case Connect =>
    case Revoke(_, _) =>
    case Close(_) =>
    case Host(_, _) =>
    case _ =>
      StepGoesOn(w, s, w');
      if s.c == c && s.j == j { StaysAwaited(w, s, w'); } else { hide Moves; }
  }

  /** An operation under way is there after its timer, and no other step but its settling touches it. */
  lemma StaysAwaited(w: World, s: Step, w': World)
    requires Moves(w, s, w') && (s.Begin? || s.TimeOut? || s.FinishRelease?)
    requires At(w.process, s.c, s.j, {Racing, AwaitingLate})
    ensures At(w'.process, s.c, s.j, {Racing, AwaitingLate})
  {
    hide Received, Revoked, Closed, Concluded, Reserves, Begun, Released, ReplayJournal.Next;
  }

  lemma InvariantFacts(worlds: seq<World>, steps: seq<Step>, i: nat)
    requires Execution(worlds, steps) && i < |worlds|
    ensures forall c :: c in worlds[i].process.conns ==>
              c < worlds[i].nextConn && InOrder(worlds[i].process.conns[c])
  {
    hide Moves;
    ExecutionKeepsInvariant(worlds, steps, i);
  }

  lemma StartedIsRacing(w: World, s: Step, w': World)
    requires Moves(w, s, w') && s.Begin? && s.c in w.process.conns && s.c < w.nextConn
    requires Starts(w.process.conns[s.c], s.j, s.targetOk)
    ensures s.c < w'.nextConn && At(w'.process, s.c, s.j, {Racing})
  {
    hide Reserves, Received, Released, Concluded, Revoked, Closed, ReplayJournal.Next;
  }

  lemma BegunIsHere(w: World, s: Step, w': World)
    requires Moves(w, s, w') && s.Begin?
    ensures s.c in w.process.conns && CanBegin(w.process.conns[s.c], s.j)
  {
    hide Reserves, Received, Released, Concluded, Revoked, Closed, ReplayJournal.Next, Begun;
  }

  /** Between two closures of one connection, of which the first started an operation, that operation settled,
      even when it had timed out. */
  lemma NextWaitsForSettling(worlds: seq<World>, steps: seq<Step>, i: nat, m: nat)
    requires Execution(worlds, steps) && i < m < |steps|
    requires steps[i].Begin? && steps[m].Begin? && steps[i].c == steps[m].c
    requires steps[i].c in worlds[i].process.conns
    requires Starts(worlds[i].process.conns[steps[i].c], steps[i].j, steps[i].targetOk)
    ensures exists k :: i < k < m && steps[k] == Settle(steps[i].c, steps[i].j)
  {
    var c, j := steps[i].c, steps[i].j;
    InvariantFacts(worlds, steps, i);
    InvariantFacts(worlds, steps, m);
    assert Moves(worlds[i], steps[i], worlds[i + 1]) && Moves(worlds[m], steps[m], worlds[m + 1]);
    StartedIsRacing(worlds[i], steps[i], worlds[i + 1]);
    BegunIsHere(worlds[m], steps[m], worlds[m + 1]);
    hide Moves;
    if forall k :: i + 1 <= k < m ==> steps[k] != Settle(c, j) {
      OperationLasts(worlds, steps, i + 1, m, c, j);
      BeginKeepsOrder(worlds[m].process.conns[c], steps[m].j);
    }
  }
}
