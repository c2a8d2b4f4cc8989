/**
 * What single steps of the remote control connection do (backend/machine-connector.ts), said of
 * the frame, the table and the queue themselves.
 */
module ConnectorSteps {
  import opened MachineConnector
  import ReplayJournal
  import opened Wrappers

  // ---- the tombstone table ----

  /** `a` comes before `b` in the table. */
  predicate Before(t: seq<Tombstone>, a: Tombstone, b: Tombstone) {
    exists i, j :: 0 <= i < j < |t| && t[i] == a && t[j] == b
  }

  lemma BeforeInTail(t: seq<Tombstone>, a: Tombstone, b: Tombstone)
    requires t != [] && (Before(t[1..], a, b) || (a == t[0] && b in t[1..]))
    ensures Before(t, a, b)
  {
    if Before(t[1..], a, b) {
      var i, j :| 0 <= i < j < |t[1..]| && t[1..][i] == a && t[1..][j] == b;
      assert t[i + 1] == a && t[j + 1] == b;
    } else {
      var j :| 0 <= j < |t[1..]| && t[1..][j] == b;
      assert t[0] == a && t[j + 1] == b;
    }
  }

  lemma {:induction false} KeptAre(t: seq<Tombstone>, cutoff: int, x: Tombstone)
    ensures x in Kept(t, cutoff) <==> x in t && (x.pending || x.at >= cutoff)
  {
    if t == [] {
    } else {
      KeptAre(t[1..], cutoff, x);
      assert x in t <==> x == t[0] || x in t[1..];
    }
  }

  /** Pruning keeps exactly the tombstones that are pending or young enough, in their order. */
  lemma {:induction false} KeptExactly(t: seq<Tombstone>, cutoff: int)
    ensures forall x :: x in Kept(t, cutoff) <==> x in t && (x.pending || x.at >= cutoff)
    ensures forall i, j :: 0 <= i < j < |Kept(t, cutoff)| ==> Before(t, Kept(t, cutoff)[i], Kept(t, cutoff)[j])
  {
    forall x ensures x in Kept(t, cutoff) <==> x in t && (x.pending || x.at >= cutoff) { KeptAre(t, cutoff, x); }
    if t == [] {
    } else {
      KeptExactly(t[1..], cutoff);
      var r, rest := Kept(t, cutoff), Kept(t[1..], cutoff);
      var n := |r| - |rest|;
      assert r == (if n == 0 then [] else [t[0]]) + rest;
      hide Kept, Before;
      forall i, j | 0 <= i < j < |r| ensures Before(t, r[i], r[j]) {
        if i >= n { assert Before(t[1..], rest[i - n], rest[j - n]); } else { assert r[j] == rest[j - n]; }
        BeforeInTail(t, r[i], r[j]);
      }
    }
  }

  /** A full table loses its oldest settled tombstone, and no table anything else. */
  lemma EvictedExactly(t: seq<Tombstone>)
    ensures |t| < DEDUP_MAX || (forall x :: x in t ==> x.pending) ==> Evicted(t) == t
    ensures |t| >= DEDUP_MAX && (exists x :: x in t && !x.pending) ==>
              exists k :: 0 <= k < |t| && !t[k].pending && (forall i :: 0 <= i < k ==> t[i].pending) &&
                          Evicted(t) == t[..k] + t[k + 1..]
  {
    var k := OldestSettled(t);
    if k < |t| { assert !t[k].pending && t[k] in t; }
  }

  /** No tombstone of the key is pending or young enough to count. */
  predicate Unheard(t: seq<Tombstone>, key: ReplayJournal.ReqId, cutoff: int) {
    forall x :: x in t && x.key == key ==> !x.pending && x.at < cutoff
  }

  /** The tombstones that count leave room for one more, or one of them may go. */
  predicate HasRoom(t: seq<Tombstone>, cutoff: int) {
    |Kept(t, cutoff)| < DEDUP_MAX || exists x :: x in t && !x.pending && x.at >= cutoff
  }

  lemma TableFacts(t: seq<Tombstone>, key: ReplayJournal.ReqId)
    ensures HasKey(t, key) <==> exists x :: x in t && x.key == key
    ensures OldestSettled(t) < |t| <==> exists x :: x in t && !x.pending
  {
    if x :| x in t && x.key == key {
      var i :| 0 <= i < |t| && t[i] == x;
    }
    if x :| x in t && !x.pending {
      var i :| 0 <= i < |t| && t[i] == x;
      assert OldestSettled(t) <= i;
    }
    if OldestSettled(t) < |t| { assert t[OldestSettled(t)] in t; }
  }

  lemma AdmitsExactly(t: seq<Tombstone>, key: ReplayJournal.ReqId, cutoff: int)
    ensures Admits(Kept(t, cutoff), key) <==> Unheard(t, key, cutoff) && HasRoom(t, cutoff)
  {
    hide Kept, HasKey;
    KeptExactly(t, cutoff);
    TableFacts(Kept(t, cutoff), key);
  }

  // ---- a control frame ----

  /** What a frame is answered when nothing is looked up or written for it. */
  ghost function Refusal(p: Process, c: nat, op: Op, leased: bool): Option<string>
    requires c in p.conns
  {
    if op.client in p.conns[c].revoked then Some(if op.kind == Input then "indeterminate" else "lease_invalid")
    else if p.conns[c].inFlight >= MAX_IN_FLIGHT then Some("offline")
    else if exists d: nat :: d != c && Owns(p, d, op.client) then Some("conflict")
    else if op.kind != Claim && !Owns(p, c, op.client) then Some("lease_invalid")
    else if op.kind == Input && !leased then Some("lease_invalid")
    else None
  }

  /** The journal is asked exactly for inputs that no refusal meets, that were not heard of and that the table has room
      for: an input without a current lease costs no place in it. */
  lemma AsksExactly(p: Process, c: nat, op: Op, now: int, leased: bool)
    requires c in p.conns
    ensures Asks(p, c, op, now, leased) <==>
            && op.kind == Input && leased && Owns(p, c, op.client)
            && op.client !in p.conns[c].revoked && p.conns[c].inFlight < MAX_IN_FLIGHT
            && Unheard(p.tombstones, KeyOf(op), now - DEDUP_TTL_MS) && HasRoom(p.tombstones, now - DEDUP_TTL_MS)
  {
    hide Kept, Admits, Unheard, HasRoom;
    AdmitsExactly(p.tombstones, KeyOf(op), now - DEDUP_TTL_MS);
  }

  /** Every answer to a control frame, and what it leaves behind. */
  lemma ReceivedExactly(p: Process, c: nat, op: Op, now: int, leased: bool, answer: ReplayJournal.Answer)
    requires c in p.conns
    ensures var (p', reply) := Received(p, c, op, now, leased, answer);
            var cutoff, refusal, conn := now - DEDUP_TTL_MS, Refusal(p, c, op, leased), p.conns[c];
            var chained := conn.(jobs := conn.jobs + [Job(Control(op), conn.tail, Waiting)], tail := |conn.jobs|,
                                 inFlight := conn.inFlight + 1);
            if refusal.Some? then reply == Refused(refusal.value) && p' == p
            else if op.kind != Input then reply == Queued && p' == p.(conns := p.conns[c := chained])
            else if !Unheard(p.tombstones, KeyOf(op), cutoff) || !HasRoom(p.tombstones, cutoff) ||
                 answer != ReplayJournal.Granted
            then reply == Refused("indeterminate") && p' == p.(tombstones := Kept(p.tombstones, cutoff))
            else reply == Queued && p'.owners == p.owners && p'.conns == p.conns[c := chained] &&
                 p'.tombstones == Evicted(Kept(p.tombstones, cutoff)) + [Tombstone(KeyOf(op), now, true)]
  {
    hide Kept, Evicted, Admits, Unheard, HasRoom;
    AdmitsExactly(p.tombstones, KeyOf(op), now - DEDUP_TTL_MS);
    if op.client in p.owners { assert Owns(p, p.owners[op.client], op.client); }
  }

  // ---- what follows an operation ----

  /** When the closure of an input resolves, its tombstone is settled at that time and no other one changes; other
      closures change none. */
  lemma ConcludingSettles(w: World, s: Step, w': World)
    requires Moves(w, s, w') && s.Conclude?
    ensures s.c in w.process.conns && s.j < |w.process.conns[s.c].jobs| && s.c in w'.process.conns
    ensures s.j < |w'.process.conns[s.c].jobs| && w'.process.conns[s.c].jobs[s.j].phase == Resolved
    ensures var t, t', work := w.process.tombstones, w'.process.tombstones, w.process.conns[s.c].jobs[s.j].work;
            && |t'| == |t|
            && forall i :: 0 <= i < |t| ==>
                 t'[i] == if work.Control? && work.op.kind == Input && t[i].key == KeyOf(work.op)
                          then Tombstone(t[i].key, s.now, false) else t[i]
    ensures w'.process.owners == w.process.owners
  {
    hide ReplayJournal.Reserves, Received, Begun, Released, Closed, Revoked, ReplayJournal.Next;
  }

  // ---- revoking and closing ----

  /** A revocation fences its client and queues one cleanup behind everything that is queued. */
  lemma RevokesExactly(w: World, s: Step, w': World)
    requires Moves(w, s, w') && s.Revoke?
    ensures s.c in w.process.conns
    ensures var conn := w.process.conns[s.c];
            w'.process == w.process.(conns := w.process.conns[s.c :=
              conn.(revoked := conn.revoked + {s.client}, tail := |conn.jobs|,
                    jobs := conn.jobs + [Job(Cleanup(s.client), conn.tail, Waiting)])])
  {
    hide ReplayJournal.Reserves, Received, Begun, Released, Closed, Concluded, ReplayJournal.Next;
  }

  /** Closing ends the connection and queues the release of its clients behind everything that is queued; closing again
      does nothing. */
  lemma ClosesExactly(w: World, s: Step, w': World)
    requires Moves(w, s, w') && s.Close?
    ensures s.c in w.process.conns
    ensures var conn := w.process.conns[s.c];
            w'.process == if !conn.ready then w.process else w.process.(conns := w.process.conns[s.c :=
              conn.(ready := false, jobs := conn.jobs + [Job(Drain, conn.tail, Waiting)])])
  {
    hide ReplayJournal.Reserves, Received, Begun, Released, Revoked, Concluded, ReplayJournal.Next;
  }

  /** The step takes a client away from a connection: another one's claim begins, a cleanup of the client succeeds, the
      connection itself has drained, or the process ends. */
  predicate Takes(w: World, s: Step, d: nat, client: string) {
    match s
    case Begin(c, j, targetOk) => c != d && ClaimsNow(w.process, s, c, client)
    case FinishRelease(c, j, ok) =>
      c in w.process.conns && j < |w.process.conns[c].jobs| &&
      (match w.process.conns[c].jobs[j].work
       case Control(_) => false
       case Cleanup(who) => who == client && ok
       case Drain => c == d && client in w.process.conns[c].clients)
    case Host(e, _) => EndsProcess(e, w.me)
    case _ => false
  }

  /** A client leaves a connection by such a step and by no other. */
  lemma OwnerLostExactly(w: World, s: Step, w': World, d: nat, client: string)
    requires Moves(w, s, w') && Owns(w.process, d, client)
    ensures !Owns(w'.process, d, client) <==> Takes(w, s, d, client)
  {
    hide ReplayJournal.Reserves, Kept, Evicted, Settled, EarlyRefusal, Admits, ReplayJournal.Next;
  }

  /** What a closure is for stays as it was queued. */
  lemma WorkStays(w: World, s: Step, w': World, c: nat, k: nat, work: Work)
    requires Moves(w, s, w') && c < w.nextConn
    requires c in w.process.conns ==> k < |w.process.conns[c].jobs| && w.process.conns[c].jobs[k].work == work
    ensures c < w'.nextConn
    ensures c in w'.process.conns ==> k < |w'.process.conns[c].jobs| && w'.process.conns[c].jobs[k].work == work
  {
    hide ReplayJournal.Reserves, Begun, Released, Received, Concluded, Phased, CanBegin, ReplayJournal.Next;
    match s
    case Receive(d, op, now, leased, _, answer) => ReceivedJobs(w.process, d, op, now, leased, answer);
    case Conclude(d, j, now) => ConcludedJobs(w.process, d, j, now);
    case Connect =>
    case Revoke(_, _) =>
    case Close(_) =>
    case Host(_, _) =>
    case _ => StepGoesOn(w, s, w');
  }

  lemma {:induction false} WorkLasts(worlds: seq<World>, steps: seq<Step>, i: nat, j: nat, c: nat, k: nat, work: Work)
    requires Execution(worlds, steps) && i <= j < |worlds| && c < worlds[i].nextConn && c in worlds[i].process.conns
    requires k < |worlds[i].process.conns[c].jobs| && worlds[i].process.conns[c].jobs[k].work == work
    ensures c < worlds[j].nextConn
    ensures c in worlds[j].process.conns ==>
              k < |worlds[j].process.conns[c].jobs| && worlds[j].process.conns[c].jobs[k].work == work
    decreases j - i
  {
    hide Moves;
    if i == j {
    } else {
      assert Moves(worlds[j - 1], steps[j - 1], worlds[j]);
      WorkLasts(worlds, steps, i, j - 1, c, k, work);
      WorkStays(worlds[j - 1], steps[j - 1], worlds[j], c, k, work);
    }
  }

  /** A client that is revoked on a connection and does not belong to it never will. */
  lemma {:induction false} RevokedStaysFree(worlds: seq<World>, steps: seq<Step>, i: nat, m: nat, j: nat, c: nat,
                                            client: string)
    requires Execution(worlds, steps) && i < m <= j < |worlds| && steps[i] == Revoke(c, client)
    requires !Owns(worlds[m].process, c, client)
    ensures !Owns(worlds[j].process, c, client)
    decreases j - m
  {
    hide Moves;
    if m == j {
    } else {
      var w, s, w' := worlds[j - 1], steps[j - 1], worlds[j];
      assert Moves(w, s, w');
      RevokedStaysFree(worlds, steps, i, m, j - 1, c, client);
      OwnerChangesExactly(w, s, w', c, client);
      if ClaimsNow(w.process, s, c, client) { RevokedClientStartsNothing(worlds, steps, i, j - 1, client); }
    }
  }

  /** The cleanup that a revocation queued is over: it found nothing to release, or the release succeeded. */
  predicate CleanedAt(worlds: seq<World>, steps: seq<Step>, m: nat, c: nat, k: nat)
    requires m < |steps| && |worlds| == |steps| + 1
  {
    steps[m] == FinishRelease(c, k, true) ||
    (steps[m].Begin? && steps[m].c == c && steps[m].j == k && c in worlds[m + 1].process.conns &&
     k < |worlds[m + 1].process.conns[c].jobs| && worlds[m + 1].process.conns[c].jobs[k].phase == Returned)
  }

  /** After the cleanup that a revocation queued, the client does not belong to the connection, and never will again. */
  lemma RevokedClientIsReleased(worlds: seq<World>, steps: seq<Step>, i: nat, m: nat, j: nat, c: nat, client: string)
    requires Execution(worlds, steps) && i < m < j < |worlds| && steps[i] == Revoke(c, client)
    requires c in worlds[i].process.conns && CleanedAt(worlds, steps, m, c, |worlds[i].process.conns[c].jobs|)
    ensures !Owns(worlds[j].process, c, client)
  {
    var k := |worlds[i].process.conns[c].jobs|;
    assert Moves(worlds[i], steps[i], worlds[i + 1]) && Moves(worlds[m], steps[m], worlds[m + 1]);
    InvariantFacts(worlds, steps, i);
    RevokesExactly(worlds[i], steps[i], worlds[i + 1]);
    InvariantFacts(worlds, steps, i + 1);
    ExecutionKeepsOwners(worlds, steps, m);
    CleanupFrees(worlds[m], steps[m], worlds[m + 1], c, k, client) by {
      WorkLasts(worlds, steps, i + 1, m, c, k, Cleanup(client));
    }
    hide Moves;
    RevokedStaysFree(worlds, steps, i, m + 1, j, c, client);
  }

  lemma CleanupFrees(w: World, s: Step, w': World, c: nat, k: nat, client: string)
    requires Moves(w, s, w') && Owned(w.process)
    requires c in w.process.conns ==>
               k < |w.process.conns[c].jobs| && w.process.conns[c].jobs[k].work == Cleanup(client)
    requires CleanedAt([w, w'], [s], 0, c, k)
    ensures !Owns(w'.process, c, client)
  {
    if s.Begin? { BeginsExactly(w, s, w'); }
    hide Begun, Received, Revoked, Closed, Concluded;
  }
}
