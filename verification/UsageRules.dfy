/**
 * What the usage ledger counts, which records it takes and where it puts them
 * (backend/usage-ledger.ts), said of the numbers and records themselves.
 */
module UsageRules {
  import opened Wrappers
  import opened UsageLedger
  import opened UsageWrites

  /** A message counts unless it has neither tokens nor cost; its numbers are its own, and its total is the one it
      reports, or else the sum of its tokens. */
  lemma UsageIsCounted(raw: RawUsage)
    ensures var tokens := raw.input + raw.output + raw.cacheRead + raw.cacheWrite;
            && (UsageTotals(raw).None? <==> tokens == 0 && raw.cost == 0)
            && (UsageTotals(raw).Some? ==>
                  var u := UsageTotals(raw).value;
                  && u.input == raw.input && u.output == raw.output && u.cacheRead == raw.cacheRead
                  && u.cacheWrite == raw.cacheWrite && u.cost == raw.cost && u.inputCost == raw.inputCost
                  && u.outputCost == raw.outputCost && u.cacheReadCost == raw.cacheReadCost
                  && u.cacheWriteCost == raw.cacheWriteCost
                  && u.total == match raw.total case Some(total) => total case None => tokens)
  {
  }

  /** A date is in a month when it starts with it and a hyphen. */
  lemma MonthsAreNamed(date: string, month: string)
    ensures InMonth(date, month) <==> |date| > |month| && date[..|month|] == month && date[|month|] == '-'
  {
    if InMonth(date, month) {
      assert date[..|month| + 1] == month + "-";
      assert date[..|month|] == date[..|month| + 1][..|month|] && date[|month|] == date[..|month| + 1][|month|];
    }
  }

  /** Records without an effort are shown together, and apart from all others that have one. */
  lemma EffortsAreNamed(r: Rec)
    ensures EffortOf(r) == match r.effort case Some(effort) => effort case None => "unknown"
  {
  }

  /** What the month in memory holds for an id. */
  function Stands(s: Store, month: string, id: string): Option<Rec> {
    if month in s.months then Lookup(AsMap(s.months[month]), id) else None
  }

  lemma StandsIsHeld(s: Store, month: string, id: string)
    requires month in s.months
    ensures Stands(s, month, id) == Held(s.months[month], id)
  {
    AsMapFind(s.months[month], id);
  }

  /** A record is taken exactly when its id is new, or stands without an effort and now comes with one. It is in
      memory at once in the place of the other one, its line is queued with what it replaced, and nothing else
      changes. */
  lemma TakesExactly(f: Flow, r: Rec, monthOf: MonthOf)
    requires AllOneEach(f.store)
    ensures var month := monthOf(r.at);
            var l, g := Loaded(f.store, month), Stored(f, r, monthOf);
            var had := Stands(l, month, r.id);
            if had.None? || (had.value.effort.None? && r.effort.Some?)
            then g.pending == f.pending + [Write(month, r, had)] && g.store.files == l.files &&
                 g.store.months.Keys == l.months.Keys &&
                 (forall m :: m in l.months && m != month ==> g.store.months[m] == l.months[m]) &&
                 AsMap(g.store.months[month]) == AsMap(l.months[month])[r.id := r]
            else g == f.(store := l)
  {
    hide AsMap, Put, Find, Replay, OneEach;
    var month := monthOf(r.at);
    var l := Loaded(f.store, month);
    ReplayIsOneEach(LinesOf(f.store, month));
    StandsIsHeld(l, month, r.id);
    AsMapPut(l.months[month], r);
  }

  /** A month is read from its file once, and stays as it is in memory from then on. */
  lemma LoadsExactly(s: Store, month: string)
    ensures var l := Loaded(s, month);
            && l.files == s.files && l.months.Keys == s.months.Keys + {month}
            && (forall m :: m in s.months ==> l.months[m] == s.months[m])
            && (month !in s.months ==>
                  AsMap(l.months[month]) == Latest(Kept(if month in s.files then s.files[month] else [])))
  {
    hide Replay, AsMap, Latest, Kept;
    ReplayIsLatestKept(LinesOf(s, month));
  }

  /** The oldest append ends: its line stands last in the file of its month, or the record that it had replaced
      stands in memory again, and nothing else changes. */
  lemma FlushesExactly(f: Flow, ok: bool)
    requires f.pending != [] && AllOneEach(f.store) && f.pending[0].month in f.store.months
    requires f.pending[0].before.Some? ==> f.pending[0].before.value.id == f.pending[0].r.id
    ensures var w, s, t := f.pending[0], f.store, Flushed(f, ok).store;
            && Flushed(f, ok).pending == f.pending[1..]
            && (ok ==>
                t == s.(files := s.files[w.month := (if w.month in s.files then s.files[w.month] else []) + [w.r]]))
            && (!ok ==>
                  && t.files == s.files && t.months.Keys == s.months.Keys
                  && (forall m :: m in s.months && m != w.month ==> t.months[m] == s.months[m])
                  && Stands(t, w.month, w.r.id) == w.before
                  && forall id :: id != w.r.id ==> Stands(t, w.month, id) == Stands(s, w.month, id))
  {
    hide AsMap, Put, Find, OneEach, Dropped, Stands;
    if !ok {
      var w, s, t := f.pending[0], f.store, Flushed(f, ok).store;
      forall id ensures Stands(t, w.month, id) == if id == w.r.id then w.before else Stands(s, w.month, id) {
        StandsIsHeld(t, w.month, id);
        StandsIsHeld(s, w.month, id);
        if w.before.Some? { PutFinds(s.months[w.month], w.before.value, id); }
          else { DroppedHas(s.months[w.month], w.r.id, id); }
      }
    }
  }
}
