/**
 * Overlapping writes of the usage ledger: records are in memory before their lines are in the file,
 * and an append that fails puts back what its own record had replaced.
 */
module UsageWrites {
  import opened Wrappers
  import opened UsageLedger

  /** The lines of one month that are on their way, in order. */
  function Coming(pending: seq<Write>, month: string): seq<Rec> {
    if pending == [] then []
    else (if pending[0].month == month then [pending[0].r] else []) + Coming(pending[1..], month)
  }

  function Lookup(m: map<string, Rec>, id: string): Option<Rec> {
    if id in m then Some(m[id]) else None
  }

  /** Only a record without an effort is replaced, by one with an effort, and it is what the lines before it say. */
  ghost predicate ReplacesLatest(w: Write, lines: seq<Rec>) {
    && w.before == Lookup(Latest(lines), w.r.id)
    && (w.before.Some? ==> w.before.value.effort.None? && w.r.effort.Some?)
  }

  ghost predicate InTurn(pending: seq<Write>, month: string, written: seq<Rec>) {
    pending == [] ||
    ((pending[0].month == month ==> ReplacesLatest(pending[0], written)) &&
     InTurn(pending[1..], month, if pending[0].month == month then written + [pending[0].r] else written))
  }

  /** A month in memory is what was loaded from its file, the lines appended since and those on their way. */
  ghost predicate Tracks(f: Flow, month: string, before: seq<Rec>, appended: seq<Rec>) {
    && month in f.store.months && OneEach(f.store.months[month])
    && LinesOf(f.store, month) == before + appended
    && AsMap(f.store.months[month]) == Latest(Kept(before) + appended + Coming(f.pending, month))
    && InTurn(f.pending, month, Kept(before) + appended)
  }

  // ---- the last line of an id ----

  lemma {:induction false} LatestConcat(a: seq<Rec>, b: seq<Rec>, id: string)
    ensures Lookup(Latest(a + b), id) == if id in Latest(b) then Some(Latest(b)[id]) else Lookup(Latest(a), id)
    decreases |b|
  {
    if b == [] {
      assert a + b == a;
    } else {
      assert (a + b)[..|a + b| - 1] == a + b[..|b| - 1];
      LatestConcat(a, b[..|b| - 1], id);
    }
  }

  lemma {:induction false} LatestHas(lines: seq<Rec>, id: string)
    ensures id in Latest(lines) <==> exists k :: 0 <= k < |lines| && lines[k].id == id
    ensures id in Latest(lines) ==> Latest(lines)[id].id == id
  {
    if lines == [] {
    } else {
      var n := |lines| - 1;
      LatestHas(lines[..n], id);
      if k :| 0 <= k < |lines| && lines[k].id == id && k < n { assert lines[..n][k].id == id; }
      if lines[n].id == id { assert lines[n].id == id; }
    }
  }

  lemma SameMap(m: map<string, Rec>, n: map<string, Rec>)
    requires forall id :: Lookup(m, id) == Lookup(n, id)
    ensures m == n
  {
    forall id ensures id in m <==> id in n { assert Lookup(m, id) == Lookup(n, id); }
    forall id | id in m ensures m[id] == n[id] { assert Lookup(m, id) == Lookup(n, id); }
  }

  // ---- taking a record ----

  lemma {:induction false} ComingPush(pending: seq<Write>, w: Write, month: string)
    ensures Coming(pending + [w], month) == Coming(pending, month) + if w.month == month then [w.r] else []
  {
    if pending == [] {
      assert [w][1..] == [];
    } else {
      assert (pending + [w])[1..] == pending[1..] + [w];
      ComingPush(pending[1..], w, month);
    }
  }

  lemma {:induction false} InTurnPush(pending: seq<Write>, w: Write, month: string, written: seq<Rec>)
    requires InTurn(pending, month, written)
    requires w.month == month ==> ReplacesLatest(w, written + Coming(pending, month))
    ensures InTurn(pending + [w], month, written)
    decreases |pending|
  {
    hide ReplacesLatest;
    if pending == [] {
      assert [w][1..] == [] && written + [] == written;
    } else {
      assert (pending + [w])[1..] == pending[1..] + [w];
      var next := if pending[0].month == month then written + [pending[0].r] else written;
      assert written + Coming(pending, month) == next + Coming(pending[1..], month);
      InTurnPush(pending[1..], w, month, next);
    }
  }

  /** Taking a record keeps memory and lines in step. */
  lemma StoringTracks(f: Flow, r: Rec, monthOf: MonthOf, month: string, before: seq<Rec>, appended: seq<Rec>)
    requires Tracks(f, month, before, appended)
    ensures Tracks(Stored(f, r, monthOf), month, before, appended)
  {
    hide Latest, Kept, AsMap, Put, Find, OneEach, Replay, Coming, InTurn;
    var rs := f.store.months[month];
    if monthOf(r.at) == month && !Settled(rs, r) {
      var w := Write(month, r, Held(rs, r.id));
      var lines := Kept(before) + appended + Coming(f.pending, month);
      AsMapFind(rs, r.id);
      AsMapPut(rs, r);
      PutFinds(rs, r, r.id);
      LatestPush(lines, r);
      ComingPush(f.pending, w, month);
      InTurnPush(f.pending, w, month, Kept(before) + appended);
      assert lines + [r] == Kept(before) + appended + (Coming(f.pending, month) + [r]);
    } else if f.pending != Stored(f, r, monthOf).pending {
      var w := Write(monthOf(r.at), r, Held(Loaded(f.store, monthOf(r.at)).months[monthOf(r.at)], r.id));
      ComingPush(f.pending, w, month);
      InTurnPush(f.pending, w, month, Kept(before) + appended);
      assert Coming(f.pending, month) + [] == Coming(f.pending, month);
    }
  }

  // ---- the end of an append ----

  /** Another write of the same id waits behind the oldest one. */
  predicate Overtaken(pending: seq<Write>)
    requires pending != []
  {
    exists k :: 0 < k < |pending| && pending[k].month == pending[0].month && pending[k].r.id == pending[0].r.id
  }

  lemma AppendTracks(f: Flow, month: string, before: seq<Rec>, appended: seq<Rec>)
    requires f.pending != [] && Tracks(f, month, before, appended)
    ensures Tracks(Flushed(f, true), month, before,
                   if f.pending[0].month == month then appended + [f.pending[0].r] else appended)
  {
    hide Latest, Kept, AsMap, OneEach, RolledBack, Coming, InTurn, ReplacesLatest;
    var r, rest := f.pending[0].r, Coming(f.pending[1..], month);
    HeadGoes(f.pending, month, Kept(before) + appended);
    if f.pending[0].month == month {
      AppendAssoc(Kept(before) + appended, r, rest);
      ConcatAssoc(Kept(before), appended, [r]);
      ConcatAssoc(before, appended, [r]);
    }
  }

  lemma HeadGoes(pending: seq<Write>, month: string, written: seq<Rec>)
    requires pending != [] && InTurn(pending, month, written)
    ensures var w, rest := pending[0], Coming(pending[1..], month);
            if w.month == month
            then Coming(pending, month) == [w.r] + rest && InTurn(pending[1..], month, written + [w.r])
            else Coming(pending, month) == rest && InTurn(pending[1..], month, written)
  {
    hide ReplacesLatest;
    var rest := Coming(pending[1..], month);
    assert [] + rest == rest;
  }

  lemma DroppedHas(rs: Records, gone: string, id: string)
    requires OneEach(rs)
    ensures OneEach(Dropped(rs, gone))
    ensures Held(Dropped(rs, gone), id) == if id == gone then None else Held(rs, id)
  {
    var i, after := Find(rs, gone), Dropped(rs, gone);
    if i >= 0 {
      assert forall k :: 0 <= k < |after| ==> after[k] == rs[if k < i then k else k + 1];
      if id != gone && Find(rs, id) >= 0 {
        var j := Find(rs, id);
        assert after[if j < i then j else j - 1] == rs[j];
      }
    }
  }

  lemma AsMapHeld(rs: Records, id: string)
    ensures Lookup(AsMap(rs), id) == Held(rs, id)
  {
    AsMapFind(rs, id);
  }

  lemma RolledBackHas(rs: Records, w: Write, id: string)
    requires OneEach(rs) && (w.before.Some? ==> w.before.value.id == w.r.id)
    ensures OneEach(RolledBack(rs, w))
    ensures Lookup(AsMap(RolledBack(rs, w)), id) == if id == w.r.id then w.before else Lookup(AsMap(rs), id)
  {
    hide AsMap, Find, OneEach, Dropped, Put;
    AsMapHeld(rs, id);
    AsMapHeld(RolledBack(rs, w), id);
    if w.before.Some? { PutFinds(rs, w.before.value, id); } else { DroppedHas(rs, w.r.id, id); }
  }

  lemma {:induction false} ComingHas(pending: seq<Write>, month: string, id: string)
    ensures id in Latest(Coming(pending, month)) <==>
            exists k :: 0 <= k < |pending| && pending[k].month == month && pending[k].r.id == id
  {
    hide Latest;
    LatestHas(Coming(pending, month), id);
    if pending == [] {
    } else {
      var rest := pending[1..];
      ComingHas(rest, month, id);
      LatestHas(Coming(rest, month), id);
      if k :| 0 <= k < |pending| && pending[k].month == month && pending[k].r.id == id && k > 0 {
        assert rest[k - 1].month == month && rest[k - 1].r.id == id;
      }
      if k :| 0 <= k < |rest| && rest[k].month == month && rest[k].r.id == id {
        assert pending[k + 1].month == month && pending[k + 1].r.id == id;
      }
      if pending[0].month == month {
        LatestConcat([pending[0].r], Coming(rest, month), id);
        LatestHas([pending[0].r], id);
        if pending[0].r.id == id { assert [pending[0].r][0].id == id; }
      } else {
        assert [] + Coming(rest, month) == Coming(rest, month);
      }
    }
  }

  /** A line can be left out when no write that waits is of its id. */
  lemma {:induction false} InTurnWithout(pending: seq<Write>, month: string, a: seq<Rec>, r: Rec, c: seq<Rec>)
    requires InTurn(pending, month, a + [r] + c)
    requires forall k :: 0 <= k < |pending| && pending[k].month == month ==> pending[k].r.id != r.id
    ensures InTurn(pending, month, a + c)
    decreases |pending|
  {
    hide Latest;
    if pending == [] {
    } else {
      var w := pending[0];
      var next := if w.month == month then c + [w.r] else c;
      if w.month == month { LineOfOther(a, r, c, w.r.id); }
      assert a + [r] + c + [w.r] == a + [r] + (c + [w.r]) && a + c + [w.r] == a + (c + [w.r]);
      InTurnWithout(pending[1..], month, a, r, next);
    }
  }

  lemma LineOfOther(a: seq<Rec>, r: Rec, c: seq<Rec>, id: string)
    requires id != r.id
    ensures Lookup(Latest(a + [r] + c), id) == Lookup(Latest(a + c), id)
  {
    hide Latest;
    LatestConcat(a + [r], c, id);
    LatestConcat(a, c, id);
    LatestPush(a, r);
  }

  /** A record that another write of its id waits to replace has no effort. */
  lemma {:induction false} OvertakenHasNoEffort(pending: seq<Write>, month: string, lines: seq<Rec>, r: Rec)
    requires InTurn(pending, month, lines) && Lookup(Latest(lines), r.id) == Some(r)
    requires exists k :: 0 <= k < |pending| && pending[k].month == month && pending[k].r.id == r.id
    ensures r.effort.None?
    decreases |pending|
  {
    hide Latest;
    var w := pending[0];
    if w.month == month && w.r.id == r.id {
    } else {
      var k :| 0 <= k < |pending| && pending[k].month == month && pending[k].r.id == r.id;
      assert pending[1..][k - 1].r.id == r.id;
      if w.month == month { LatestPush(lines, w.r); }
      OvertakenHasNoEffort(pending[1..], month, if w.month == month then lines + [w.r] else lines, r);
    }
  }

  /** A failed append leaves memory and lines in step exactly when no other write of its id waits behind it: otherwise
      memory loses the record that the waiting write is about to put into the file. */
  lemma RollbackExactly(f: Flow, month: string, before: seq<Rec>, appended: seq<Rec>)
    requires f.pending != [] && f.pending[0].month == month && Tracks(f, month, before, appended)
    ensures Tracks(Flushed(f, false), month, before, appended) <==> !Overtaken(f.pending)
    ensures Overtaken(f.pending) ==>
              f.pending[0].r.id !in AsMap(Flushed(f, false).store.months[month]) &&
              f.pending[0].r.id in Latest(Kept(before) + appended + Coming(f.pending[1..], month))
  {
    hide Latest, Kept, AsMap, OneEach, RolledBack;
    var w, rest := f.pending[0], f.pending[1..];
    var lines := Kept(before) + appended;
    BeforeHasId(w, lines);
    forall id ensures OneEach(RolledBack(f.store.months[month], w)) &&
                      Lookup(AsMap(RolledBack(f.store.months[month], w)), id) ==
                      (if id == w.r.id then w.before else Lookup(AsMap(f.store.months[month]), id)) {
      RolledBackHas(f.store.months[month], w, id);
    }
    assert lines + ([w.r] + Coming(rest, month)) == lines + [w.r] + Coming(rest, month);
    ComingHas(rest, month, w.r.id);
    LatestConcat(lines, Coming(rest, month), w.r.id);
    if Overtaken(f.pending) {
      var k :| 0 < k < |f.pending| && f.pending[k].month == month && f.pending[k].r.id == w.r.id;
      assert rest[k - 1].r.id == w.r.id;
      LatestPush(lines, w.r);
      OvertakenHasNoEffort(rest, month, lines + [w.r], w.r);
    } else {
      forall k | 0 <= k < |rest| && rest[k].month == month ensures rest[k].r.id != w.r.id {
        assert f.pending[k + 1] == rest[k];
      }
      assert lines + [] == lines && lines + [w.r] + [] == lines + [w.r];
      InTurnWithout(rest, month, lines, w.r, []);
      forall id ensures Lookup(AsMap(RolledBack(f.store.months[month], w)), id) ==
        Lookup(Latest(lines + Coming(rest, month)), id) {
        if id != w.r.id { LineOfOther(lines, w.r, Coming(rest, month), id); }
      }
      SameMap(AsMap(RolledBack(f.store.months[month], w)), Latest(lines + Coming(rest, month)));
    }
  }

  lemma BeforeHasId(w: Write, lines: seq<Rec>)
    requires ReplacesLatest(w, lines)
    ensures w.before.Some? ==> w.before.value.id == w.r.id
  {
    LatestHas(lines, w.r.id);
  }

  lemma RollbackElsewhere(f: Flow, month: string, before: seq<Rec>, appended: seq<Rec>)
    requires f.pending != [] && f.pending[0].month != month && Tracks(f, month, before, appended)
    ensures Tracks(Flushed(f, false), month, before, appended)
  {
    hide Latest, Kept, AsMap, OneEach, RolledBack;
    assert [] + Coming(f.pending[1..], month) == Coming(f.pending[1..], month);
  }

  // ---- runs ----

  datatype Step = Take(r: Rec) | Flush(ok: bool)

  function Then(f: Flow, step: Step, monthOf: MonthOf): Flow {
    match step
    case Take(r) => Stored(f, r, monthOf)
    case Flush(ok) => if f.pending == [] then f else Flushed(f, ok)
  }

  function RunFrom(f: Flow, steps: seq<Step>, monthOf: MonthOf): Flow {
    if steps == [] then f else Then(RunFrom(f, steps[..|steps| - 1], monthOf), steps[|steps| - 1], monthOf)
  }

  /** No append fails while another write of its id waits. */
  predicate NoneOvertaken(f: Flow, steps: seq<Step>, monthOf: MonthOf) {
    forall k :: 0 <= k < |steps| && steps[k] == Flush(false) ==>
      var g := RunFrom(f, steps[..k], monthOf); g.pending == [] || !Overtaken(g.pending)
  }

  lemma StepTracks(f: Flow, step: Step, monthOf: MonthOf, month: string, before: seq<Rec>, appended: seq<Rec>)
    returns (more: seq<Rec>)
    requires Tracks(f, month, before, appended)
    requires step == Flush(false) ==> f.pending == [] || !Overtaken(f.pending)
    ensures Tracks(Then(f, step, monthOf), month, before, more)
  {
    hide Tracks, Stored, Flushed;
    more := appended;
    match step
    case Take(r) => StoringTracks(f, r, monthOf, month, before, appended);
    case Flush(ok) =>
      if f.pending == [] {
      } else if ok {
        AppendTracks(f, month, before, appended);
        more := if f.pending[0].month == month then appended + [f.pending[0].r] else appended;
      } else if f.pending[0].month == month {
        RollbackExactly(f, month, before, appended);
      } else {
        RollbackElsewhere(f, month, before, appended);
      }
  }

  lemma {:induction false} RunTracks(f: Flow, steps: seq<Step>, monthOf: MonthOf, month: string, before: seq<Rec>)
    returns (appended: seq<Rec>)
    requires Tracks(f, month, before, []) && NoneOvertaken(f, steps, monthOf)
    ensures Tracks(RunFrom(f, steps, monthOf), month, before, appended)
    decreases |steps|
  {
    hide Tracks, Then, Overtaken;
    if steps == [] {
      appended := [];
    } else {
      var n := |steps| - 1;
      assert NoneOvertaken(f, steps[..n], monthOf) by {
        assert forall k :: 0 <= k < n ==> steps[..n][..k] == steps[..k];
      }
      appended := RunTracks(f, steps[..n], monthOf, month, before);
      assert steps[n] == Flush(false) ==>
        var g := RunFrom(f, steps[..n], monthOf); g.pending == [] || !Overtaken(g.pending);
      appended := StepTracks(RunFrom(f, steps[..n], monthOf), steps[n], monthOf, month, before, appended);
    }
  }

  /** However writes overlap and appends fail, as long as none fails with another write of its id behind it: once
      all appends are over, a month in memory holds what its file says, the lines loaded earlier being those that were
      kept. */
  lemma QuietMemoryIsTheFile(s: Store, steps: seq<Step>, monthOf: MonthOf, month: string) returns (appended: seq<Rec>)
    requires month !in s.months && NoneOvertaken(Flow(Loaded(s, month), []), steps, monthOf)
    requires RunFrom(Flow(Loaded(s, month), []), steps, monthOf).pending == []
    ensures var t := RunFrom(Flow(Loaded(s, month), []), steps, monthOf).store;
            && month in t.months && LinesOf(t, month) == LinesOf(s, month) + appended
            && AsMap(t.months[month]) == Latest(Kept(LinesOf(s, month)) + appended)
  {
    hide Latest, Kept, AsMap, Replay, RunFrom, NoneOvertaken, OneEach;
    var before := LinesOf(s, month);
    LoadMirrors(s, month);
    assert Kept(before) + [] == Kept(before) && Kept(before) + [] + [] == Kept(before);
    assert Tracks(Flow(Loaded(s, month), []), month, before, []);
    appended := RunTracks(Flow(Loaded(s, month), []), steps, monthOf, month, before);
    assert Kept(before) + appended + [] == Kept(before) + appended;
  }

  /** A message is taken, taken again with its effort, the first append fails and the second succeeds: the file
      holds the message and memory does not, so a report leaves it out until the file is read again. */
  lemma OvertakenFailureLosesRecord(id: string, at: int, monthOf: MonthOf)
    ensures var u := Usage(5, 0, 0, 0, 5, 0, 0, 0, 0, 0);
            var r := Rec(id, at, "session", "model", None, 0, u);
            var t := RunFrom(Flow(Store(map[], map[]), []),
                             [Take(r), Take(r.(effort := Some("high"))), Flush(false), Flush(true)], monthOf);
            && t.pending == [] && monthOf(at) in t.store.months && t.store.months[monthOf(at)] == []
            && LinesOf(t.store, monthOf(at)) == [r.(effort := Some("high"))]
  {
    var r := Rec(id, at, "session", "model", None, 0, Usage(5, 0, 0, 0, 5, 0, 0, 0, 0, 0));
    var q, m, f0 := r.(effort := Some("high")), monthOf(at), Flow(Store(map[], map[]), []);
    var f1, f2 := Then(f0, Take(r), monthOf), Then(Then(f0, Take(r), monthOf), Take(q), monthOf);
    TakesFirst(r, m, monthOf);
    TakesUpgrade(r, q, m, monthOf);
    var f3, f4 := Then(f2, Flush(false), monthOf), Then(Then(f2, Flush(false), monthOf), Flush(true), monthOf);
    assert [r, q][..0] == [] && [q][..0] == [];
    assert f3.store.months[m] == [] && f3.pending == [Write(m, q, Some(r))];
    assert f4.pending == [] && f4.store.files[m] == [q];
    var steps := [Take(r), Take(q), Flush(false), Flush(true)];
    assert steps[..3] == [Take(r), Take(q), Flush(false)] && steps[..3][..2] == [Take(r), Take(q)];
    assert steps[..3][..2][..1] == [Take(r)] && steps[..3][..2][..1][..0] == [];
    assert RunFrom(f0, [Take(r)], monthOf) == f1;
    assert RunFrom(f0, [Take(r), Take(q)], monthOf) == f2;
    assert RunFrom(f0, [Take(r), Take(q), Flush(false)], monthOf) == f3;
  }

  lemma TakesFirst(r: Rec, month: string, monthOf: MonthOf)
    requires monthOf(r.at) == month
    ensures Then(Flow(Store(map[], map[]), []), Take(r), monthOf) ==
      Flow(Store(map[month := [r]], map[]), [Write(month, r, None)])
  {
    var g := Then(Flow(Store(map[], map[]), []), Take(r), monthOf);
    assert g.store.months[month] == [r] && g.store.months == map[month := [r]];
    assert g.pending == [] + [Write(month, r, None)];
  }

  lemma TakesUpgrade(r: Rec, q: Rec, month: string, monthOf: MonthOf)
    requires monthOf(q.at) == month && q.id == r.id && r.effort.None? && q.effort.Some?
    ensures Then(Flow(Store(map[month := [r]], map[]), [Write(month, r, None)]), Take(q), monthOf) ==
            Flow(Store(map[month := [q]], map[]), [Write(month, r, None), Write(month, q, Some(r))])
  {
    var g := Then(Flow(Store(map[month := [r]], map[]), [Write(month, r, None)]), Take(q), monthOf);
    assert Find([r], q.id) == 0;
    assert g.store.months[month] == [q] && g.store.months == map[month := [q]];
    assert g.pending == [Write(month, r, None)] + [Write(month, q, Some(r))];
  }
}
