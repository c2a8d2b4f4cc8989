/**
 * The durable replay journal for remote input (backend/machine-input-replay.ts).
 *
 * A reservation is written to a temporary file, synced, renamed over the journal and made
 * durable by a directory sync. The disk keeps every name-to-file binding a crash may leave
 * behind; a file that was not synced may come back with any content at all.
 */
module ReplayJournal {
  import opened Wrappers

  /** SHA-256 of the pair is taken to be injective, so the pair stands for its digest. */
  datatype ReqId = ReqId(client: string, request: string)

  /** The journal text: the canonical serialisation of a list of ids, or any other text. */
  datatype Content = Ids(ids: seq<ReqId>) | Other(text: string)

  datatype File = File(content: Content, synced: bool)

  /** `outcomes` are the files the journal name may be bound to after a crash; `lock` is the inode of the lock file. */
  datatype Disk = Disk(live: Option<File>, outcomes: set<Option<File>>, temp: Option<File>, lock: Option<nat>)

  const MAX: nat := 100_000

  predicate Distinct(ids: seq<ReqId>) {
    forall i, j :: 0 <= i < j < |ids| ==> ids[i] != ids[j]
  }

  function Journal(ids: seq<ReqId>): Option<File> {
    Some(File(Ids(ids), true))
  }

  // ---- the steps on the disk ----

  function Written(d: Disk, content: Content): Disk {
    d.(temp := Some(File(content, false)))
  }

  function SyncedFile(d: Disk): Disk {
    if d.temp.Some? then d.(temp := Some(d.temp.value.(synced := true))) else d
  }

  function Renamed(d: Disk): Disk {
    if d.temp.Some? then d.(live := d.temp, outcomes := d.outcomes + {d.temp}, temp := None) else d
  }

  function SyncedDirectory(d: Disk): Disk {
    d.(outcomes := {d.live})
  }

  function Unlinked(d: Disk): Disk {
    d.(temp := None)
  }

  /** What the journal may hold once the machine is up again. */
  ghost predicate CrashLeaves(d: Disk, content: Option<Content>) {
    exists f :: f in d.outcomes && Survives(f, content)
  }

  predicate Survives(f: Option<File>, content: Option<Content>) {
    if f.None? then content.None? else content.Some? && (f.value.synced ==> content.value == f.value.content)
  }

  function AfterCrash(d: Disk, content: Option<Content>): Disk {
    var live := if content.None? then None else Some(File(content.value, true));
    Disk(live, {live}, None, d.lock)
  }

  // ---- the store ----

  datatype Stage = Checking | Creating | Writing | SyncingFile | Rechecking | Renaming | SyncingDirectory

  /** A call may fail at one stage, before or after that stage took effect. */
  datatype Fault = NoFault | Fails(at: Stage, tookEffect: bool)

  datatype Answer = Granted | Duplicate | Threw

  /** What a process keeps of the journal, with the inode of the lock it created. */
  datatype Store = Store(seen: seq<ReqId>, expected: Option<seq<ReqId>>, poisoned: bool, closed: bool, lock: nat)

  predicate Matches(d: Disk, expected: Option<seq<ReqId>>) {
    if d.live.None? then expected.None? else expected.Some? && d.live.value.content == Ids(expected.value)
  }

  /** The journal and the lock are as this store left them. */
  predicate Untouched(d: Disk, s: Store) {
    d.lock == Some(s.lock) && Matches(d, s.expected)
  }

  /** What opening reads from the journal; None when its text is not a canonical list of distinct ids. */
  function Loaded(d: Disk, lock: nat): Option<Store> {
    match d.live
    case None => Some(Store([], None, false, false, lock))
    case Some(File(Ids(ids), _)) =>
      if |ids| <= MAX && Distinct(ids) then Some(Store(ids, Some(ids), false, false, lock)) else None
    case _ => None
  }

  /** A journal that can be opened: at most the maximum of ids, none of them twice. */
  predicate Readable(content: Content) {
    content.Ids? && |content.ids| <= MAX && Distinct(content.ids)
  }

  /** Closing removes the lock file unless it was replaced or removed by somebody else. */
  function Unlocked(d: Disk, lock: nat): Disk {
    if d.lock == Some(lock) then d.(lock := None) else d
  }

  predicate Usable(s: Store) {
    !s.closed && !s.poisoned
  }

  /** The call gets as far as touching the disk. */
  predicate Attempts(s: Store, id: ReqId) {
    Usable(s) && id !in s.seen && |s.seen| < MAX
  }

  /** A disk state during a call that puts `grown` in place. */
  predicate Between(d: Disk, x: Disk, grown: Option<File>) {
    && x.outcomes <= d.outcomes + {grown} && x.lock == d.lock
    && (x.live == d.live || x.live == grown)
    && (d.live in d.outcomes ==> x.live in x.outcomes)
  }

  /** One call of `reserve`: `path` holds the disk states from the call to the answer. */
  ghost predicate Reserves(s: Store, id: ReqId, path: seq<Disk>, r: Answer, s': Store) {
    && path != []
    && (var d, last, grown := path[0], path[|path| - 1], Journal(s.seen + [id]);
        && (forall k :: 0 <= k < |path| ==> Between(d, path[k], grown))
        && (!Attempts(s, id) ==> path == [d] && s' == s)
        && (!Untouched(d, s) ==> forall k :: 0 <= k < |path| ==>
            path[k].live == d.live && path[k].outcomes == d.outcomes)
        && (r == Duplicate <==> Usable(s) && id in s.seen)
        && (r == Threw && Attempts(s, id) ==> s' == s.(poisoned := true))
        && (r == Granted ==>
              && Attempts(s, id) && Untouched(d, s)
              && s' == s.(seen := s.seen + [id], expected := Some(s.seen + [id]))
              && last.outcomes == {grown} && last.live == grown))
  }

  class ReplayStore {
    const lock: nat
    var disk: Disk
    var seen: seq<ReqId>
    var expected: Option<seq<ReqId>>
    var poisoned: bool
    var closed: bool
    /** Every state the disk has been in since the store was opened, the present one last. */
    ghost var states: seq<Disk>

    ghost function View(): Store
      reads this
    {
      Store(seen, expected, poisoned, closed, lock)
    }

    ghost predicate Valid()
      reads this
    {
      states != [] && disk == states[|states| - 1]
    }

    constructor (disk: Disk, lock: nat, seen: seq<ReqId>, expected: Option<seq<ReqId>>)
      ensures Valid() && this.disk == disk && View() == Store(seen, expected, false, false, lock)
    {
      this.disk, this.lock, this.seen, this.expected := disk, lock, seen, expected;
      poisoned, closed, states := false, false, [disk];
    }

    method Reach(next: Disk)
      modifies this`disk, this`states
      ensures Valid() && disk == next && states == old(states) + [next]
    {
      disk := next;
      states := states + [next];
    }

    /** Write and sync the temporary file. */
    method Stage(content: Content, fault: Fault) returns (ok: bool)
      requires Valid()
      modifies this`disk, this`states
      ensures Valid() && old(states) <= states
      ensures forall k :: |old(states)| <= k < |states| ==>
                states[k].live == old(disk.live) && states[k].outcomes == old(disk.outcomes) &&
                  states[k].lock == old(disk.lock)
      ensures ok ==> disk == old(disk).(temp := Some(File(content, true)))
      ensures fault.NoFault? ==> ok
    {
      if fault.Fails? && fault.at == Creating && !fault.tookEffect { return false; }
      Reach(Written(disk, Other("")));
      if fault.Fails? && fault.at == Creating { return false; }
      if fault.Fails? && fault.at == Writing && !fault.tookEffect {
        Reach(Written(disk, Other("partial")));
        return false;
      }
      Reach(Written(disk, content));
      if fault.Fails? && fault.at == Writing { return false; }
      if fault.Fails? && fault.at == SyncingFile && !fault.tookEffect { return false; }
      Reach(SyncedFile(disk));
      return !(fault.Fails? && fault.at == SyncingFile);
    }

    /** Rename the staged file over the journal and sync the directory. */
    method Publish(fault: Fault) returns (ok: bool)
      requires Valid() && disk.temp.Some?
      modifies this`disk, this`states
      ensures Valid() && old(states) <= states
      ensures forall k :: |old(states)| <= k < |states| ==>
                && states[k].live == old(disk.temp) && states[k].lock == old(disk.lock)
                && states[k].live in states[k].outcomes && states[k].outcomes <= old(disk.outcomes) + {old(disk.temp)}
      ensures ok ==> disk == Disk(old(disk.temp), {old(disk.temp)}, None, old(disk.lock))
      ensures fault.NoFault? ==> ok
    {
      if fault.Fails? && fault.at == Renaming && !fault.tookEffect { return false; }
      Reach(Renamed(disk));
      if fault.Fails? && fault.at == Renaming { return false; }
      if fault.Fails? && fault.at == SyncingDirectory && !fault.tookEffect { return false; }
      Reach(SyncedDirectory(disk));
      return !(fault.Fails? && fault.at == SyncingDirectory);
    }

    /** The try block of `reserve`, with its cleanup. */
    method Persist(next: seq<ReqId>, fault: Fault) returns (ok: bool)
      requires Valid()
      modifies this`disk, this`states
      ensures Valid() && old(states) <= states
      ensures forall k :: |old(states)| <= k < |states| ==> Between(old(disk), states[k], Journal(next))
      ensures !Untouched(old(disk), View()) ==> forall k :: |old(states)| <= k < |states| ==>
                states[k].live == old(disk.live) && states[k].outcomes == old(disk.outcomes)
      ensures ok ==> Untouched(old(disk), View()) && disk.live == Journal(next) && disk.outcomes == {Journal(next)}
      ensures fault.NoFault? && Untouched(old(disk), View()) ==> ok
    {
      ok := !(fault.Fails? && fault.at == Checking) && disk.lock == Some(lock) && Matches(disk, expected);
      if ok { ok := Stage(Ids(next), fault); }
      if ok { ok := !(fault.Fails? && fault.at == Rechecking) && Matches(disk, expected); }
      if ok { ok := Publish(fault); }
      if !ok && disk.temp.Some? { Reach(Unlinked(disk)); }
    }

    method Reserve(client: string, request: string, fault: Fault) returns (r: Answer)
      requires Valid()
      modifies this
      ensures Valid() && old(states) <= states
      ensures Reserves(old(View()), ReqId(client, request), states[|old(states)| - 1..], r, View())
      ensures fault.NoFault? && Attempts(old(View()), ReqId(client, request)) && Untouched(old(disk), old(View())) ==>
                r == Granted
      ensures old(closed) || old(poisoned) ==> r == Threw && View() == old(View()) && disk == old(disk)
      ensures var id, open := ReqId(client, request), !old(closed) && !old(poisoned);
              var kept := old(disk).lock == Some(lock) &&
                          if old(disk).live.None? then old(expected).None?
                          else old(expected).Some? && old(disk).live.value.content == Ids(old(expected).value);
              && (r == Duplicate <==> open && id in old(seen))
              && (r == Granted ==> open && id !in old(seen) && |old(seen)| < 100_000 && kept)
              && (open && id !in old(seen) && |old(seen)| < 100_000 && kept && fault.NoFault? ==> r == Granted)
              && (r == Granted ==> seen == old(seen) + [id] && expected == Some(seen) && disk.live == Journal(seen))
              && (r == Threw && open && |old(seen)| < 100_000 ==> poisoned && seen == old(seen))
    {
      if closed || poisoned { return Threw; }
      var id := ReqId(client, request);
      if id in seen { return Duplicate; }
      if |seen| >= MAX { return Threw; }
      var next := seen + [id];
      var ok := Persist(next, fault);
      ghost var path := states[|old(states)| - 1..];
      assert path[0] == old(disk);
      assert forall k :: 0 < k < |path| ==> path[k] == states[|old(states)| - 1 + k];
      if !ok {
        poisoned := true;
        return Threw;
      }
      seen := next;
      expected := Some(next);
      return Granted;
    }

    method Close()
      requires Valid()
      modifies this
      ensures Valid() && View() == old(View()).(closed := true)
      ensures disk == if old(closed) || old(disk).lock != Some(lock) then old(disk) else old(disk).(lock := None)
    {
      if !closed {
        closed := true;
        if disk.lock == Some(lock) { Reach(disk.(lock := None)); }
      }
    }
  }

  /** Opening needs the lock and a well-formed journal; a corrupt journal gives the lock back. */
  method OpenMachineInputReplay(disk: Disk, lock: nat) returns (store: Option<ReplayStore>)
    ensures store.Some? <==> disk.lock.None? && Loaded(disk, lock).Some?
    ensures store.Some? <==> disk.lock.None? && (disk.live.None? || Readable(disk.live.value.content))
    ensures store.Some? ==>
              var s := store.value;
              && s.expected == (if disk.live.None? then None else Some(disk.live.value.content.ids))
              && s.seen == (if disk.live.None? then [] else disk.live.value.content.ids) && !s.poisoned && !s.closed
    ensures store.Some? ==>
              fresh(store.value) && store.value.Valid() && store.value.View() == Loaded(disk, lock).value &&
              store.value.disk == disk.(lock := Some(lock))
  {
    if disk.lock.Some? { return None; }
    match disk.live
    case None =>
      var s := new ReplayStore(disk.(lock := Some(lock)), lock, [], None);
      return Some(s);
    case Some(File(Ids(ids), _)) =>
      if |ids| > MAX || !AllDistinct(ids) { return None; }
      var s := new ReplayStore(disk.(lock := Some(lock)), lock, ids, Some(ids));
      return Some(s);
    case _ =>
      return None;
  }

  /** `new Set(ids).size == ids.length`. */
  function AllDistinct(ids: seq<ReqId>): (r: bool)
    ensures r <==> Distinct(ids)
  {
    ids == [] || (ids[0] !in ids[1..] && (var r := AllDistinct(ids[1..]); DistinctCons(ids); r))
  }

  lemma DistinctCons(ids: seq<ReqId>)
    requires ids != []
    ensures Distinct(ids) <==> ids[0] !in ids[1..] && Distinct(ids[1..])
  {
    if Distinct(ids) {
      forall i, j | 0 <= i < j < |ids[1..]| ensures ids[1..][i] != ids[1..][j] {
        assert ids[i + 1] != ids[j + 1];
      }
    }
  }

  // ---- runs with crashes ----

  /** The machine: its disk, the store of every process that has one open, and every id answered true so far. */
  datatype World = World(disk: Disk, processes: map<nat, Store>, granted: seq<ReqId>)

  /** The machine may crash and a process may be killed, between calls or inside one; a killed process leaves the disk
      as it is. The lock file may be removed or replaced by hand between calls, so a second process may open the journal
      while the first still has it open. */
  datatype Event =
    | Open(process: nat, lock: nat)
    | Reserve(process: nat, id: ReqId, path: seq<Disk>, answer: Answer)
    | CrashIn(process: nat, id: ReqId, path: seq<Disk>, at: nat, left: Option<Content>)
    | Crash(left: Option<Content>)
    | KillIn(process: nat, id: ReqId, path: seq<Disk>, at: nat)
    | Kill(process: nat)
    | CloseStore(process: nat)
    | SetLock(found: Option<nat>)

  /** A call that was cut short at one of the disk states it passes through. */
  ghost predicate CutShort(w: World, p: nat, id: ReqId, path: seq<Disk>, at: nat) {
    && p in w.processes && at < |path| && path[0] == w.disk
    && exists answer, s' :: Reserves(w.processes[p], id, path, answer, s')
  }

  ghost predicate Next(w: World, e: Event, w': World) {
    match e
    case Open(p, lock) =>
      p !in w.processes && w.disk.lock.None? && Loaded(w.disk, lock).Some? &&
      w' == World(w.disk.(lock := Some(lock)), w.processes[p := Loaded(w.disk, lock).value], w.granted)
    case Reserve(p, id, path, answer) =>
      p in w.processes && path != [] && path[0] == w.disk && p in w'.processes &&
      Reserves(w.processes[p], id, path, answer, w'.processes[p]) &&
      w' == World(path[|path| - 1], w.processes[p := w'.processes[p]],
                  if answer == Granted then w.granted + [id] else w.granted)
    case CrashIn(p, id, path, at, left) =>
      CutShort(w, p, id, path, at) && CrashLeaves(path[at], left) &&
      w' == World(AfterCrash(path[at], left), map[], w.granted)
    case Crash(left) =>
      CrashLeaves(w.disk, left) && w' == World(AfterCrash(w.disk, left), map[], w.granted)
    case KillIn(p, id, path, at) =>
      CutShort(w, p, id, path, at) && w' == World(path[at], w.processes - {p}, w.granted)
    case Kill(p) =>
      w' == w.(processes := w.processes - {p})
    case CloseStore(p) =>
      p in w.processes && w' == World(Unlocked(w.disk, w.processes[p].lock), w.processes - {p}, w.granted)
    case SetLock(found) =>
      w' == w.(disk := w.disk.(lock := found))
  }

  ghost predicate Run(worlds: seq<World>, events: seq<Event>) {
    && |worlds| == |events| + 1
    && worlds[0] == World(Disk(None, {None}, None, None), map[], [])
    && forall i :: 0 <= i < |events| ==> Next(worlds[i], events[i], worlds[i + 1])
  }

  /** Every id answered true is in this journal, which is whole and synced. */
  predicate Remembers(f: Option<File>, granted: seq<ReqId>) {
    if f.None? then granted == []
    else f.value.synced && f.value.content.Ids? && forall id :: id in granted ==> id in f.value.content.ids
  }

  /** As long as a store is of any use, the ids it has seen are those of the journal it expects to find. */
  predicate Consistent(s: Store) {
    Usable(s) ==> s.seen == if s.expected.None? then [] else s.expected.value
  }

  ghost predicate Safe(w: World) {
    && w.disk.live in w.disk.outcomes
    && (forall f :: f in w.disk.outcomes ==> Remembers(f, w.granted))
    && (forall p :: p in w.processes ==> Consistent(w.processes[p]))
    && Distinct(w.granted)
  }

  /** A store that may touch the journal has seen every id granted so far, by whichever process. */
  lemma SeesEveryGrant(w: World, p: nat, id: ReqId)
    requires Safe(w) && p in w.processes && Attempts(w.processes[p], id) && Untouched(w.disk, w.processes[p])
    ensures forall x :: x in w.granted ==> x in w.processes[p].seen
  {
    assert Remembers(w.disk.live, w.granted);
  }

  /** In the middle of a call the disk still remembers every id answered before it. */
  lemma MidCallRemembers(w: World, p: nat, id: ReqId, path: seq<Disk>, answer: Answer, s': Store, k: nat)
    requires Safe(w) && p in w.processes && k < |path| && path[0] == w.disk
    requires Reserves(w.processes[p], id, path, answer, s')
    ensures forall f :: f in path[k].outcomes ==> Remembers(f, w.granted)
    ensures path[k].live in path[k].outcomes
  {
    var s := w.processes[p];
    if Attempts(s, id) && Untouched(w.disk, s) {
      SeesEveryGrant(w, p, id);
      assert Between(w.disk, path[k], Journal(s.seen + [id]));
      forall f | f in path[k].outcomes ensures Remembers(f, w.granted) {
        assert f in w.disk.outcomes || f == Journal(s.seen + [id]);
      }
    }
  }

  lemma NextIsSafe(w: World, e: Event, w': World)
    requires Safe(w) && Next(w, e, w')
    ensures Safe(w')
  {
    match e
    case Reserve(p, id, path, answer) =>
      MidCallRemembers(w, p, id, path, answer, w'.processes[p], |path| - 1);
      if answer == Granted { SeesEveryGrant(w, p, id); }
    case CrashIn(p, id, path, at, left) =>
      var answer, s' :| Reserves(w.processes[p], id, path, answer, s');
      MidCallRemembers(w, p, id, path, answer, s', at);
    case KillIn(p, id, path, at) =>
      var answer, s' :| Reserves(w.processes[p], id, path, answer, s');
      MidCallRemembers(w, p, id, path, answer, s', at);
    case _ =>
  }

  lemma {:induction false} RunIsSafe(worlds: seq<World>, events: seq<Event>, i: nat)
    requires Run(worlds, events) && i < |worlds|
    ensures Safe(worlds[i])
  {
    if i == 0 {
    } else {
      RunIsSafe(worlds, events, i - 1);
      NextIsSafe(worlds[i - 1], events[i - 1], worlds[i]);
    }
  }

  ghost predicate GrantsAt(events: seq<Event>, i: nat, id: ReqId) {
    i < |events| && events[i].Reserve? && events[i].id == id && events[i].answer == Granted
  }

  lemma {:induction false} GrantedGrows(worlds: seq<World>, events: seq<Event>, i: nat, j: nat)
    requires Run(worlds, events) && i <= j < |worlds|
    ensures worlds[i].granted <= worlds[j].granted
    decreases j - i
  {
    if i == j {
    } else {
      assert Next(worlds[j - 1], events[j - 1], worlds[j]);
      GrantedGrows(worlds, events, i, j - 1);
    }
  }

  /** Over every run of opens, calls, failures, kills and crashes inside calls and reopens, with any number of processes
      that have the journal open at once, no id is granted twice. */
  lemma GrantedAtMostOnce(worlds: seq<World>, events: seq<Event>, i: nat, j: nat, id: ReqId)
    requires Run(worlds, events) && GrantsAt(events, i, id) && GrantsAt(events, j, id)
    ensures i == j
  {
    if i != j {
      var a, b := if i < j then i else j, if i < j then j else i;
      assert Next(worlds[a], events[a], worlds[a + 1]) && Next(worlds[b], events[b], worlds[b + 1]);
      assert id in worlds[a + 1].granted;
      GrantedGrows(worlds, events, a + 1, b);
      RunIsSafe(worlds, events, b);
    }
  }

  /** Whatever a crash leaves, now or in the middle of a call, holds every id granted so far. */
  lemma GrantedSurvivesEveryCrash(worlds: seq<World>, events: seq<Event>, i: nat, e: Event, left: Option<Content>,
                                  after: World)
    requires Run(worlds, events) && i < |worlds| && Next(worlds[i], e, after)
    requires e == Crash(left) || (e.CrashIn? && e.left == left)
    ensures if left.None? then worlds[i].granted == []
            else left.value.Ids? && forall id :: id in worlds[i].granted ==> id in left.value.ids
  {
    RunIsSafe(worlds, events, i);
    NextIsSafe(worlds[i], e, after);
  }

  /** A process killed in the middle of a call loses nothing: whatever the next open reads, and whatever a machine crash
      leaves before it, holds every id granted so far. */
  lemma KilledCallForgetsNothing(worlds: seq<World>, events: seq<Event>, i: nat, e: Event, killed: World,
                                 left: Option<Content>, crashed: World, lock: nat, store: Store)
    requires Run(worlds, events) && i < |worlds| && (e.KillIn? || e.Kill?) && Next(worlds[i], e, killed)
    requires Next(killed, Crash(left), crashed)
    requires Loaded(killed.disk, lock) == Some(store) || Loaded(crashed.disk, lock) == Some(store)
    ensures forall id :: id in worlds[i].granted ==> id in store.seen
  {
    RunIsSafe(worlds, events, i);
    NextIsSafe(worlds[i], e, killed);
    NextIsSafe(killed, Crash(left), crashed);
  }

  /** A journal changed behind the store's back, or a lock that is no longer its own, is noticed before anything is
      granted, and the store is of no use from then on. */
  lemma ForeignChangeIsRefused(s: Store, id: ReqId, path: seq<Disk>, r: Answer, s': Store)
    requires Reserves(s, id, path, r, s') && Attempts(s, id) && !Untouched(path[0], s)
    ensures r == Threw && s'.poisoned
    ensures forall id2, path2, r2, s2 :: Reserves(s', id2, path2, r2, s2) ==> r2 == Threw
  {
  }

  /** A process that another has overtaken, having opened the journal too and granted an id the first has not seen, is
      refused for good the next time it asks for one, and leaves the journal alone. */
  lemma OvertakenProcessIsRefused(worlds: seq<World>, events: seq<Event>, i: nat, p: nat, overtaken: ReqId, id: ReqId,
                                  path: seq<Disk>, r: Answer, s': Store)
    requires Run(worlds, events) && i < |worlds| && p in worlds[i].processes
    requires overtaken in worlds[i].granted && overtaken !in worlds[i].processes[p].seen
    requires Attempts(worlds[i].processes[p], id) && path != [] && path[0] == worlds[i].disk
    requires Reserves(worlds[i].processes[p], id, path, r, s')
    ensures r == Threw && s'.poisoned
    ensures forall k :: 0 <= k < |path| ==>
              path[k].live == worlds[i].disk.live && path[k].outcomes == worlds[i].disk.outcomes
  {
    RunIsSafe(worlds, events, i);
    if Untouched(path[0], worlds[i].processes[p]) { SeesEveryGrant(worlds[i], p, id); }
  }

  // ---- what a reopened journal answers ----

  /** Whatever a crash may leave can be opened, and no store has seen an id twice. */
  ghost predicate Openable(w: World) {
    && (forall f :: f in w.disk.outcomes && f.Some? ==> Readable(f.value.content))
    && forall p :: p in w.processes ==> Distinct(w.processes[p].seen) && |w.processes[p].seen| <= MAX
  }

  lemma DistinctPush(ids: seq<ReqId>, id: ReqId)
    requires Distinct(ids) && id !in ids
    ensures Distinct(ids + [id])
  {
  }

  lemma MidCallOpenable(w: World, p: nat, id: ReqId, path: seq<Disk>, answer: Answer, s': Store, k: nat)
    requires Safe(w) && Openable(w) && p in w.processes && k < |path| && path[0] == w.disk
    requires Reserves(w.processes[p], id, path, answer, s')
    ensures forall f :: f in path[k].outcomes && f.Some? ==> Readable(f.value.content)
    ensures Distinct(s'.seen) && |s'.seen| <= MAX
  {
    var s := w.processes[p];
    if Attempts(s, id) { DistinctPush(s.seen, id); }
    assert Between(w.disk, path[k], Journal(s.seen + [id]));
    forall f | f in path[k].outcomes && f.Some? ensures Readable(f.value.content) {
      assert f in w.disk.outcomes || f == Journal(s.seen + [id]);
    }
  }

  lemma NextIsOpenable(w: World, e: Event, w': World)
    requires Safe(w) && Openable(w) && Next(w, e, w')
    ensures Openable(w')
  {
    match e
    case Reserve(p, id, path, answer) =>
      MidCallOpenable(w, p, id, path, answer, w'.processes[p], |path| - 1);
    case CrashIn(p, id, path, at, left) =>
      var answer, s' :| Reserves(w.processes[p], id, path, answer, s');
      MidCallOpenable(w, p, id, path, answer, s', at);
      MidCallRemembers(w, p, id, path, answer, s', at);
    case KillIn(p, id, path, at) =>
      var answer, s' :| Reserves(w.processes[p], id, path, answer, s');
      MidCallOpenable(w, p, id, path, answer, s', at);
    case _ =>
  }

  lemma {:induction false} RunIsOpenable(worlds: seq<World>, events: seq<Event>, i: nat)
    requires Run(worlds, events) && i < |worlds|
    ensures Openable(worlds[i])
  {
    if i == 0 {
    } else {
      RunIsOpenable(worlds, events, i - 1);
      RunIsSafe(worlds, events, i - 1);
      NextIsOpenable(worlds[i - 1], events[i - 1], worlds[i]);
    }
  }

  /** Once the lock is free the journal can always be opened again; a process that opens it answers Duplicate for every
      id granted before, and when nothing was ever written it starts with no ids. */
  lemma ReopenedAnswersDuplicate(worlds: seq<World>, events: seq<Event>, i: nat, p: nat, lock: nat)
    returns (reopened: World)
    requires Run(worlds, events) && i < |worlds| && worlds[i].disk.lock.None? && p !in worlds[i].processes
    ensures Next(worlds[i], Open(p, lock), reopened) && p in reopened.processes && reopened.disk.lock == Some(lock)
    ensures Usable(reopened.processes[p]) && Untouched(reopened.disk, reopened.processes[p])
    ensures reopened.processes[p].lock == lock
    ensures forall id :: id in worlds[i].granted ==> id in reopened.processes[p].seen
    ensures worlds[i].disk.live.None? ==> reopened.processes[p].seen == []
    ensures forall id, path, answer, s' ::
              id in worlds[i].granted && Reserves(reopened.processes[p], id, path, answer, s') ==> answer == Duplicate
  {
    var w := worlds[i];
    RunIsSafe(worlds, events, i);
    RunIsOpenable(worlds, events, i);
    assert Remembers(w.disk.live, w.granted);
    reopened := World(w.disk.(lock := Some(lock)), w.processes[p := Loaded(w.disk, lock).value], w.granted);
  }

  /** An id that was not seen yet is granted by a call during which nothing fails. */
  lemma GrantIsPossible(w: World, p: nat, id: ReqId) returns (path: seq<Disk>, w': World)
    requires w.disk.live in w.disk.outcomes && p in w.processes
    requires Attempts(w.processes[p], id) && Untouched(w.disk, w.processes[p])
    ensures Next(w, Event.Reserve(p, id, path, Granted), w')
  {
    var s := w.processes[p];
    var grown := Journal(s.seen + [id]);
    path := [w.disk, Disk(grown, {grown}, None, w.disk.lock)];
    w' := World(path[1], w.processes[p := s.(seen := s.seen + [id], expected := Some(s.seen + [id]))],
                w.granted + [id]);
  }

  /** A process that closes its store takes away its own lock file and nobody else's; one that was killed or crashed
      leaves the lock behind, and with it nobody can open the journal. */
  lemma LockOutlivesProcess(w: World, e: Event, w': World)
    requires Next(w, e, w')
    ensures e.CloseStore? ==>
              w'.disk == w.disk.(lock := if w.disk.lock == Some(w.processes[e.process].lock) then None else w.disk.lock)
    ensures e.Kill? || e.KillIn? || e.Crash? || e.CrashIn? ==> w'.disk.lock == w.disk.lock
    ensures w.disk.lock.Some? ==> !e.Open?
  {
    if e.CrashIn? || e.KillIn? {
      var answer, s' :| Reserves(w.processes[e.process], e.id, e.path, answer, s');
      assert Between(w.disk, e.path[e.at], Journal(w.processes[e.process].seen + [e.id]));
    }
  }

  /** The first start on an empty disk, a grant, the process gone and the lock with it, a second start: the same request
      is then a duplicate. */
  lemma GrantedThenDuplicate(id: ReqId, killed: bool) returns (worlds: seq<World>, events: seq<Event>)
    ensures Run(worlds, events) && |events| == if killed then 6 else 5
    ensures events[0] == Open(0, 1) && GrantsAt(events, 1, id)
    ensures if killed then events[2..5] == [Kill(0), SetLock(None), Open(1, 2)]
            else events[2..4] == [CloseStore(0), Open(1, 2)]
    ensures var last := events[|events| - 1]; last.Reserve? && last.id == id && last.answer == Duplicate
  {
    hide Next;
    var w1, w2, path := FirstGrant(id);
    var w3, freeing := ThenFreed(w2, killed);
    var w0 := World(Disk(None, {None}, None, None), map[], []);
    worlds, events := [w0, w1, w2] + w3, [Open(0, 1), Event.Reserve(0, id, path, Granted)] + freeing;
    assert Run(worlds, events);
    var n := |worlds| - 1;
    var reopened := ReopenedAnswersDuplicate(worlds, events, n, 1, 2);
    SeenIsDuplicate(reopened, 1, id);
    worlds, events := worlds + [reopened, reopened],
      events + [Open(1, 2), Event.Reserve(1, id, [reopened.disk], Duplicate)];
  }

  lemma FirstGrant(id: ReqId) returns (w1: World, w2: World, path: seq<Disk>)
    ensures Next(World(Disk(None, {None}, None, None), map[], []), Open(0, 1), w1)
    ensures Next(w1, Event.Reserve(0, id, path, Granted), w2)
    ensures w2.granted == [id] && w2.disk.lock == Some(1)
    ensures w2.processes.Keys == {0} && w2.processes[0].lock == 1
  {
    hide Reserves;
    var w0 := World(Disk(None, {None}, None, None), map[], []);
    w1 := ReopenedAnswersDuplicate([w0], [], 0, 0, 1);
    path, w2 := GrantIsPossible(w1, 0, id);
    GrantedFacts(w1, 0, id, path, w2);
  }

  /** The process goes away, and the lock with it. */
  lemma ThenFreed(w: World, killed: bool) returns (worlds: seq<World>, events: seq<Event>)
    requires w.disk.lock == Some(1) && w.processes.Keys == {0} && w.processes[0].lock == 1
    ensures |worlds| == |events| == if killed then 2 else 1
    ensures events == if killed then [Kill(0), SetLock(None)] else [CloseStore(0)]
    ensures Next(w, events[0], worlds[0]) && (killed ==> Next(worlds[0], events[1], worlds[1]))
    ensures var last := worlds[|worlds| - 1];
            last.granted == w.granted && last.disk.lock.None? && last.processes == map[]
  {
    hide Reserves;
    if killed {
      var w3 := w.(processes := w.processes - {0});
      worlds, events := [w3, w3.(disk := w3.disk.(lock := None))], [Kill(0), SetLock(None)];
    } else {
      worlds, events := [World(w.disk.(lock := None), w.processes - {0}, w.granted)], [CloseStore(0)];
    }
  }

  lemma GrantedFacts(w: World, p: nat, id: ReqId, path: seq<Disk>, w': World)
    requires Next(w, Event.Reserve(p, id, path, Granted), w')
    ensures w'.disk.lock == w.disk.lock && w'.granted == w.granted + [id]
    ensures w'.processes[p].lock == w.processes[p].lock
  {
    assert Between(path[0], path[|path| - 1], Journal(w.processes[p].seen + [id]));
  }

  lemma SeenIsDuplicate(w: World, p: nat, id: ReqId)
    requires p in w.processes && Usable(w.processes[p]) && id in w.processes[p].seen
    ensures Next(w, Event.Reserve(p, id, [w.disk], Duplicate), w)
  {
    assert w.processes[p := w.processes[p]] == w.processes;
  }
}
