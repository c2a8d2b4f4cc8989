/**
 * The token usage ledger (backend/usage-ledger.ts): one record per message and month, appended to a
 * month file, and reports grouped by day, model, effort and session behind a versioned cache.
 *
 * Costs are naturals in a fixed small unit. The calendar is a function from time and zone to date.
 * A record survives being written to and read from JSON unchanged.
 */
module UsageLedger {
  import opened Wrappers
  import opened Sums

  // ---- usage ----

  datatype Usage =
    Usage(input: nat, output: nat, cacheRead: nat, cacheWrite: nat, total: nat, cost: nat, inputCost: nat,
          outputCost: nat, cacheReadCost: nat, cacheWriteCost: nat)

  const ZERO: Usage := Usage(0, 0, 0, 0, 0, 0, 0, 0, 0, 0)

  /** The numbers of a message, read as natural or as zero; the reported total may be missing. */
  datatype RawUsage =
    RawUsage(input: nat, output: nat, cacheRead: nat, cacheWrite: nat, total: Option<nat>, cost: nat, inputCost: nat,
             outputCost: nat, cacheReadCost: nat, cacheWriteCost: nat)

  function Parts(r: RawUsage): nat {
    r.input + r.output + r.cacheRead + r.cacheWrite
  }

  function UsageTotals(r: RawUsage): Option<Usage> {
    if Parts(r) == 0 && r.cost == 0 then None
    else Some(Usage(r.input, r.output, r.cacheRead, r.cacheWrite, if r.total.Some? then r.total.value else Parts(r),
                    r.cost, r.inputCost, r.outputCost, r.cacheReadCost, r.cacheWriteCost))
  }

  /** What a stored record must say to be taken back from its file. */
  predicate Storable(u: Usage) {
    u.total > 0 || u.cost > 0
  }

  /** A counted message is lost by a reload exactly when it is free and itself reports a total of zero tokens. */
  lemma StorableExactly(r: RawUsage)
    requires UsageTotals(r).Some?
    ensures Storable(UsageTotals(r).value) <==> !(r.cost == 0 && r.total == Some(0))
  {
  }

  datatype Field = Input | Output | CacheRead | CacheWrite | Tokens | Cost | InputCost | OutputCost | CacheReadCost
      | CacheWriteCost

  function Part(u: Usage, f: Field): nat {
    match f
    case Input => u.input
    case Output => u.output
    case CacheRead => u.cacheRead
    case CacheWrite => u.cacheWrite
    case Tokens => u.total
    case Cost => u.cost
    case InputCost => u.inputCost
    case OutputCost => u.outputCost
    case CacheReadCost => u.cacheReadCost
    case CacheWriteCost => u.cacheWriteCost
  }

  function Plus(a: Usage, b: Usage): Usage {
    Usage(a.input + b.input, a.output + b.output, a.cacheRead + b.cacheRead, a.cacheWrite + b.cacheWrite,
          a.total + b.total, a.cost + b.cost, a.inputCost + b.inputCost, a.outputCost + b.outputCost,
          a.cacheReadCost + b.cacheReadCost, a.cacheWriteCost + b.cacheWriteCost)
  }

  lemma PartPlus(a: Usage, b: Usage, f: Field)
    ensures Part(Plus(a, b), f) == Part(a, f) + Part(b, f)
  {
  }

  lemma SameParts(a: Usage, b: Usage)
    requires forall f :: Part(a, f) == Part(b, f)
    ensures a == b
  {
    assert Part(a, Input) == Part(b, Input) && Part(a, Output) == Part(b, Output);
    assert Part(a, CacheRead) == Part(b, CacheRead) && Part(a, CacheWrite) == Part(b, CacheWrite);
    assert Part(a, Tokens) == Part(b, Tokens) && Part(a, Cost) == Part(b, Cost);
    assert Part(a, InputCost) == Part(b, InputCost) && Part(a, OutputCost) == Part(b, OutputCost);
    assert Part(a, CacheReadCost) == Part(b, CacheReadCost) && Part(a, CacheWriteCost) == Part(b, CacheWriteCost);
  }

  // ---- records ----

  datatype Rec = Rec(id: string, at: int, session: string, model: string, effort: Option<string>, meta: nat,
                     usage: Usage)

  function EffortOf(r: Rec): string {
    if r.effort.Some? then r.effort.value else "unknown"
  }

  /** A month's records, in the order their ids were first stored. */
  type Records = seq<Rec>

  function Find(rs: Records, id: string): (i: int)
    ensures -1 <= i < |rs| && (i >= 0 ==> rs[i].id == id) && (i < 0 ==> forall k :: 0 <= k < |rs| ==> rs[k].id != id)
  {
    if rs == [] then -1 else if rs[|rs| - 1].id == id then |rs| - 1 else Find(rs[..|rs| - 1], id)
  }

  function Put(rs: Records, r: Rec): Records {
    if Find(rs, r.id) >= 0 then rs[Find(rs, r.id) := r] else rs + [r]
  }

  predicate OneEach(rs: Records) {
    forall i, j :: 0 <= i < j < |rs| ==> rs[i].id != rs[j].id
  }

  function AsMap(rs: Records): map<string, Rec> {
    if rs == [] then map[] else AsMap(rs[..|rs| - 1])[rs[|rs| - 1].id := rs[|rs| - 1]]
  }

  // ---- reports ----

  type Table = map<string, Usage>

  datatype Report =
    Report(total: Usage, daily: Table, dailyModels: map<string, Table>, models: Table, efforts: map<string, Table>,
           sessions: Table, recordCount: nat)

  type Calendar = (int, string) -> string

  function RowOf(t: Table, k: string): Usage {
    if k in t then t[k] else ZERO
  }

  function TableOf(t: map<string, Table>, k: string): Table {
    if k in t then t[k] else map[]
  }

  function Bump(t: Table, k: string, u: Usage): Table {
    t[k := Plus(RowOf(t, k), u)]
  }

  predicate InMonth(date: string, month: string) {
    month + "-" <= date
  }

  function Counted(rep: Report, r: Rec, date: string): Report {
    Report(Plus(rep.total, r.usage), Bump(rep.daily, date, r.usage),
           rep.dailyModels[date := Bump(TableOf(rep.dailyModels, date), r.model, r.usage)],
           Bump(rep.models, r.model, r.usage),
           rep.efforts[r.model := Bump(TableOf(rep.efforts, r.model), EffortOf(r), r.usage)],
           Bump(rep.sessions, r.session, r.usage), rep.recordCount)
  }

  function Build(rs: Records, month: string, zone: string, dateOf: Calendar): Report {
    if rs == [] then Report(ZERO, map[], map[], map[], map[], map[], 0)
    else
      var r, rep := rs[|rs| - 1], Build(rs[..|rs| - 1], month, zone, dateOf).(recordCount := |rs|);
      var date := dateOf(r.at, zone);
      if InMonth(date, month) then Counted(rep, r, date) else rep
  }

  /** One column of a table. */
  function Col(t: Table, f: Field): map<string, int> {
    map k | k in t :: Part(t[k], f)
  }

  lemma BumpColumn(t: Table, k: string, u: Usage, f: Field)
    ensures Col(Bump(t, k, u), f) == Col(t, f)[k := At(Col(t, f), k) + Part(u, f)]
    ensures Sum(Col(Bump(t, k, u), f)) == Sum(Col(t, f)) + Part(u, f)
  {
    hide Sum, Part, Plus;
    PartPlus(RowOf(t, k), u, f);
    ZeroPart(f);
    assert Col(Bump(t, k, u), f) == Col(t, f)[k := At(Col(t, f), k) + Part(u, f)];
    SumUpdate(Col(t, f), k, At(Col(t, f), k) + Part(u, f));
  }

  lemma ZeroPart(f: Field)
    ensures Part(ZERO, f) == 0
  {
  }

  /** The rows of one table split a usage. */
  ghost predicate Splits(t: Table, u: Usage, f: Field) {
    Sum(Col(t, f)) == Part(u, f)
  }

  /** Each row of `whole` is split by the table of the same key. */
  ghost predicate SplitsRows(parts: map<string, Table>, whole: Table, f: Field) {
    parts.Keys == whole.Keys && forall k :: k in whole ==> Splits(parts[k], whole[k], f)
  }

  ghost predicate Conserved(rep: Report, f: Field) {
    Splits(rep.daily, rep.total, f) && Splits(rep.models, rep.total, f) && Splits(rep.sessions, rep.total, f) &&
    SplitsRows(rep.dailyModels, rep.daily, f) && SplitsRows(rep.efforts, rep.models, f)
  }

  lemma BumpSplits(t: Table, k: string, whole: Usage, u: Usage, f: Field)
    requires Splits(t, whole, f)
    ensures Splits(Bump(t, k, u), Plus(whole, u), f)
  {
    hide Sum, Col, Part, Plus, Bump;
    BumpColumn(t, k, u, f);
    PartPlus(whole, u, f);
  }

  lemma EmptySplits(f: Field)
    ensures Splits(map[], ZERO, f)
  {
    hide Sum;
    assert Col(map[], f) == map[];
    SumEmpty(Col(map[], f));
  }

  lemma BumpSplitsRows(parts: map<string, Table>, whole: Table, k: string, j: string, u: Usage, f: Field)
    requires SplitsRows(parts, whole, f)
    ensures SplitsRows(parts[k := Bump(TableOf(parts, k), j, u)], Bump(whole, k, u), f)
  {
    hide Splits, Plus;
    EmptySplits(f);
    BumpSplits(TableOf(parts, k), j, RowOf(whole, k), u, f);
  }

  lemma CountedConserves(rep: Report, r: Rec, date: string, f: Field)
    requires Conserved(rep, f)
    ensures Conserved(Counted(rep, r, date), f)
  {
    hide Splits, SplitsRows, Bump, Plus;
    BumpSplits(rep.daily, date, rep.total, r.usage, f);
    BumpSplits(rep.models, r.model, rep.total, r.usage, f);
    BumpSplits(rep.sessions, r.session, rep.total, r.usage, f);
    BumpSplitsRows(rep.dailyModels, rep.daily, date, r.model, r.usage, f);
    BumpSplitsRows(rep.efforts, rep.models, r.model, EffortOf(r), r.usage, f);
  }

  /** In every report the days, the models and the sessions each add up to the grand total, each model is the sum of
      its efforts, and each day is the sum of its models. */
  lemma {:induction false} ReportConserves(rs: Records, month: string, zone: string, dateOf: Calendar, f: Field)
    ensures Conserved(Build(rs, month, zone, dateOf), f)
    decreases |rs|
  {
    hide Splits, Counted, InMonth;
    EmptySplits(f);
    if rs == [] {
    } else {
      ReportConserves(rs[..|rs| - 1], month, zone, dateOf, f);
      var rep := Build(rs[..|rs| - 1], month, zone, dateOf).(recordCount := |rs|);
      CountedConserves(rep, rs[|rs| - 1], dateOf(rs[|rs| - 1].at, zone), f);
    }
  }

  // ---- rows against records ----

  /** Which records a row of a report stands for. */
  datatype Group =
    | Everything
    | OfDate(date: string)
    | OfDateModel(date: string, model: string)
    | OfModel(model: string)
    | OfEffort(model: string, effort: string)
    | OfSession(session: string)

  predicate Belongs(g: Group, r: Rec, date: string) {
    match g
    case Everything => true
    case OfDate(d) => date == d
    case OfDateModel(d, m) => date == d && r.model == m
    case OfModel(m) => r.model == m
    case OfEffort(m, e) => r.model == m && EffortOf(r) == e
    case OfSession(s) => r.session == s
  }

  function Row(rep: Report, g: Group): Usage {
    match g
    case Everything => rep.total
    case OfDate(d) => RowOf(rep.daily, d)
    case OfDateModel(d, m) => RowOf(TableOf(rep.dailyModels, d), m)
    case OfModel(m) => RowOf(rep.models, m)
    case OfEffort(m, e) => RowOf(TableOf(rep.efforts, m), e)
    case OfSession(s) => RowOf(rep.sessions, s)
  }

  /** The records of the month that belong to a group, added up. */
  function GroupTotal(rs: Records, month: string, zone: string, dateOf: Calendar, g: Group): Usage {
    if rs == [] then ZERO
    else
      var r, rest := rs[|rs| - 1], GroupTotal(rs[..|rs| - 1], month, zone, dateOf, g);
      var date := dateOf(r.at, zone);
      if InMonth(date, month) && Belongs(g, r, date) then Plus(rest, r.usage) else rest
  }

  lemma CountedRow(rep: Report, r: Rec, date: string, g: Group)
    ensures Row(Counted(rep, r, date), g) == if Belongs(g, r, date) then Plus(Row(rep, g), r.usage) else Row(rep, g)
  {
    hide Plus, EffortOf;
  }

  lemma CountKeepsRow(rep: Report, n: nat, g: Group)
    ensures Row(rep.(recordCount := n), g) == Row(rep, g)
  {
  }

  /** Every row of a report is the sum over exactly the records it stands for. */
  lemma {:induction false} RowsAreSums(rs: Records, month: string, zone: string, dateOf: Calendar, g: Group)
    ensures Row(Build(rs, month, zone, dateOf), g) == GroupTotal(rs, month, zone, dateOf, g)
    decreases |rs|
  {
    hide Counted, InMonth, Belongs, Plus, Row;
    if rs == [] {
      EmptyRow(g);
    } else {
      RowsAreSums(rs[..|rs| - 1], month, zone, dateOf, g);
      var rep := Build(rs[..|rs| - 1], month, zone, dateOf);
      CountKeepsRow(rep, |rs|, g);
      CountedRow(rep.(recordCount := |rs|), rs[|rs| - 1], dateOf(rs[|rs| - 1].at, zone), g);
    }
  }

  lemma EmptyRow(g: Group)
    ensures Row(Report(ZERO, map[], map[], map[], map[], map[], 0), g) == ZERO
  {
  }

  // ---- the record count ----

  /** How many records a report of this month counts, in the zone it is asked for. */
  function CountedIn(rs: Records, month: string, zone: string, dateOf: Calendar): nat {
    if rs == [] then 0
    else
      CountedIn(rs[..|rs| - 1], month, zone, dateOf) + if InMonth(dateOf(rs[|rs| - 1].at, zone), month) then 1 else 0
  }

  predicate AllInMonth(rs: Records, month: string, zone: string, dateOf: Calendar) {
    forall i :: 0 <= i < |rs| ==> InMonth(dateOf(rs[i].at, zone), month)
  }

  lemma {:induction false} CountIsLength(rs: Records, month: string, zone: string, dateOf: Calendar)
    ensures Build(rs, month, zone, dateOf).recordCount == |rs|
  {
    if rs == [] {
    } else {
      hide Bump, Plus;
    }
  }

  lemma {:induction false} CountsAllExactly(rs: Records, month: string, zone: string, dateOf: Calendar)
    ensures CountedIn(rs, month, zone, dateOf) <= |rs|
    ensures CountedIn(rs, month, zone, dateOf) == |rs| <==> AllInMonth(rs, month, zone, dateOf)
  {
    hide InMonth;
    if rs == [] {
    } else {
      var n := |rs| - 1;
      CountsAllExactly(rs[..n], month, zone, dateOf);
      if AllInMonth(rs[..n], month, zone, dateOf) {
        forall i | 0 <= i < n ensures InMonth(dateOf(rs[i].at, zone), month) { assert rs[..n][i] == rs[i]; }
      }
    }
  }

  /** The record count of a report is the number of records its sums count exactly when the report's zone puts every
      record stored under the month into the month. */
  lemma RecordCountExactly(rs: Records, month: string, zone: string, dateOf: Calendar)
    ensures Build(rs, month, zone, dateOf).recordCount == CountedIn(rs, month, zone, dateOf) <==>
            forall i :: 0 <= i < |rs| ==> InMonth(dateOf(rs[i].at, zone), month)
  {
    CountIsLength(rs, month, zone, dateOf);
    CountsAllExactly(rs, month, zone, dateOf);
  }

  /** One record of the first of February in UTC, asked for in a zone that is behind: counted, with all sums zero. */
  lemma CountsForeignDay(r: Rec)
    ensures var dateOf := (at: int, zone: string) => if zone == "UTC" then "2024-02-01" else "2024-01-31";
            var rep := Build([r], "2024-02", "America/New_York", dateOf);
            && rep.recordCount == 1 && rep.total == ZERO && rep.daily == map[]
            && CountedIn([r], "2024-02", "America/New_York", dateOf) == 0
            && CountedIn([r], "2024-02", "UTC", dateOf) == 1
  {
    assert "2024-01-31"[6] != "2024-02-"[6];
    assert [r][..0] == [];
  }

  // ---- recording ----

  function RecordsOf(months: map<string, Records>, month: string): Records {
    if month in months then months[month] else []
  }

  /** A message already stored stays, unless it had no effort and now comes with one. */
  predicate Settled(rs: Records, r: Rec) {
    Find(rs, r.id) >= 0 && (rs[Find(rs, r.id)].effort.Some? || r.effort.None?)
  }

  type MonthOf = int -> string

  /** The records of all months and the lines of all month files. */
  datatype Store = Store(months: map<string, Records>, files: map<string, seq<Rec>>)

  /** A month is read from its file the first time it is needed. */
  function Replay(lines: seq<Rec>): Records {
    if lines == [] then []
    else
      var n := |lines| - 1;
      if Storable(lines[n].usage) then Put(Replay(lines[..n]), lines[n]) else Replay(lines[..n])
  }

  function LinesOf(s: Store, month: string): seq<Rec> {
    if month in s.files then s.files[month] else []
  }

  function Loaded(s: Store, month: string): Store {
    if month in s.months then s else s.(months := s.months[month := Replay(LinesOf(s, month))])
  }

  /** One record is taken and its line appended. */
  function Recorded(s: Store, r: Rec, monthOf: MonthOf): Store {
    var month := monthOf(r.at);
    var l := Loaded(s, month);
    if Settled(l.months[month], r) then l
    else Store(l.months[month := Put(l.months[month], r)], l.files[month := LinesOf(l, month) + [r]])
  }

  /** An append on its way, with the record that its own had replaced. */
  datatype Write = Write(month: string, r: Rec, before: Option<Rec>)

  /** Records go to memory at once, and their lines to the files one after the other. */
  datatype Flow = Flow(store: Store, pending: seq<Write>)

  function Held(rs: Records, id: string): Option<Rec> {
    if Find(rs, id) >= 0 then Some(rs[Find(rs, id)]) else None
  }

  function Dropped(rs: Records, id: string): Records {
    if Find(rs, id) >= 0 then rs[..Find(rs, id)] + rs[Find(rs, id) + 1..] else rs
  }

  /** One record is taken and its append queued. */
  function Stored(f: Flow, r: Rec, monthOf: MonthOf): Flow {
    var month := monthOf(r.at);
    var l := Loaded(f.store, month);
    var rs := l.months[month];
    if Settled(rs, r) then f.(store := l)
    else Flow(l.(months := l.months[month := Put(rs, r)]), f.pending + [Write(month, r, Held(rs, r.id))])
  }

  /** What a failed append puts back. */
  function RolledBack(rs: Records, w: Write): Records {
    if w.before.Some? then Put(rs, w.before.value) else Dropped(rs, w.r.id)
  }

  /** The oldest append succeeds or fails. */
  function Flushed(f: Flow, ok: bool): Flow
    requires f.pending != []
  {
    var w, s := f.pending[0], f.store;
    var after := if ok then s.(files := s.files[w.month := LinesOf(s, w.month) + [w.r]])
                 else s.(months := s.months[w.month := RolledBack(RecordsOf(s.months, w.month), w)]);
    Flow(after, f.pending[1..])
  }

  function RecordAll(s: Store, rs: seq<Rec>, monthOf: MonthOf): Store {
    if rs == [] then s else Recorded(RecordAll(s, rs[..|rs| - 1], monthOf), rs[|rs| - 1], monthOf)
  }

  /** Every record is stored under the month of its time. */
  ghost predicate Filed(s: Store, monthOf: MonthOf) {
    && (forall m, i :: m in s.months && 0 <= i < |s.months[m]| ==> monthOf(s.months[m][i].at) == m)
    && (forall m, i :: m in s.files && 0 <= i < |s.files[m]| ==> monthOf(s.files[m][i].at) == m)
  }

  lemma {:induction false} ReplayTakesLines(lines: seq<Rec>, i: nat)
    requires i < |Replay(lines)|
    ensures Replay(lines)[i] in lines
  {
    hide Find;
    if lines == [] {
    } else {
      var n := |lines| - 1;
      assert lines == lines[..n] + [lines[n]];
      if Replay(lines)[i] != lines[n] { ReplayTakesLines(lines[..n], i); }
    }
  }

  lemma LoadedIsFiled(s: Store, month: string, monthOf: MonthOf)
    requires Filed(s, monthOf)
    ensures Filed(Loaded(s, month), monthOf)
  {
    hide Replay;
    var lines := LinesOf(s, month);
    forall i | 0 <= i < |Replay(lines)| ensures monthOf(Replay(lines)[i].at) == month { ReplayTakesLines(lines, i); }
  }

  lemma RecordedIsFiled(s: Store, r: Rec, monthOf: MonthOf)
    requires Filed(s, monthOf)
    ensures Filed(Recorded(s, r, monthOf), monthOf)
  {
    hide Find, Replay;
    LoadedIsFiled(s, monthOf(r.at), monthOf);
  }

  lemma {:induction false} RecordingIsFiled(s: Store, rs: seq<Rec>, monthOf: MonthOf)
    requires Filed(s, monthOf)
    ensures Filed(RecordAll(s, rs, monthOf), monthOf)
  {
    hide Recorded;
    if rs == [] {
    } else {
      RecordingIsFiled(s, rs[..|rs| - 1], monthOf);
      RecordedIsFiled(RecordAll(s, rs[..|rs| - 1], monthOf), rs[|rs| - 1], monthOf);
    }
  }

  /** In the ledger's own zone, by which records are filed, the record count is always exact. */
  lemma OwnZoneCountIsExact(s: Store, rs: seq<Rec>, month: string, zone: string, monthOf: MonthOf, dateOf: Calendar)
    requires Filed(s, monthOf) && month in RecordAll(s, rs, monthOf).months
    requires forall at :: InMonth(dateOf(at, zone), monthOf(at))
    ensures var stored := RecordAll(s, rs, monthOf).months[month];
            Build(stored, month, zone, dateOf).recordCount == CountedIn(stored, month, zone, dateOf)
  {
    hide InMonth, Build, CountedIn, RecordAll;
    RecordingIsFiled(s, rs, monthOf);
    RecordCountExactly(RecordAll(s, rs, monthOf).months[month], month, zone, dateOf);
  }

  predicate SettledIn(s: Store, r: Rec, monthOf: MonthOf) {
    monthOf(r.at) in s.months && Settled(s.months[monthOf(r.at)], r)
  }

  lemma PutFinds(rs: Records, r: Rec, id: string)
    requires OneEach(rs)
    ensures OneEach(Put(rs, r))
    ensures var i, j := Find(rs, id), Find(Put(rs, r), id);
            if id == r.id then j >= 0 && Put(rs, r)[j] == r
            else (i >= 0 <==> j >= 0) && (i >= 0 ==> Put(rs, r)[j] == rs[i])
  {
    var i, j, k, p := Find(rs, id), Find(Put(rs, r), id), Find(rs, r.id), Put(rs, r);
    if k >= 0 { assert p[k] == r; } else { assert p[|rs|] == r; }
    if i >= 0 && id != r.id { assert p[i] == rs[i]; }
  }

  ghost predicate AllOneEach(s: Store) {
    forall m :: m in s.months ==> OneEach(s.months[m])
  }

  lemma {:induction false} ReplayIsOneEach(lines: seq<Rec>)
    ensures OneEach(Replay(lines))
  {
    if lines == [] {
    } else {
      ReplayIsOneEach(lines[..|lines| - 1]);
      PutFinds(Replay(lines[..|lines| - 1]), lines[|lines| - 1], "");
    }
  }

  lemma RecordedFacts(s: Store, r: Rec, monthOf: MonthOf)
    requires AllOneEach(s)
    ensures AllOneEach(Recorded(s, r, monthOf)) && SettledIn(Recorded(s, r, monthOf), r, monthOf)
  {
    hide Put, Find, OneEach, Replay;
    var month := monthOf(r.at);
    ReplayIsOneEach(LinesOf(s, month));
    PutFinds(Loaded(s, month).months[month], r, r.id);
  }

  lemma StaysSettled(s: Store, r: Rec, q: Rec, monthOf: MonthOf)
    requires AllOneEach(s) && SettledIn(s, q, monthOf)
    ensures SettledIn(Recorded(s, r, monthOf), q, monthOf)
  {
    hide Put, Find, OneEach, Replay;
    var month := monthOf(r.at);
    if monthOf(q.at) == month && !Settled(s.months[month], r) { PutFinds(s.months[month], r, q.id); }
  }

  lemma {:induction false} AllSettled(s: Store, rs: seq<Rec>, monthOf: MonthOf)
    requires AllOneEach(s)
    ensures AllOneEach(RecordAll(s, rs, monthOf))
    ensures forall r :: r in rs ==> SettledIn(RecordAll(s, rs, monthOf), r, monthOf)
  {
    hide Recorded, SettledIn, AllOneEach;
    if rs == [] {
    } else {
      var n := |rs| - 1;
      var before := RecordAll(s, rs[..n], monthOf);
      AllSettled(s, rs[..n], monthOf);
      RecordedFacts(before, rs[n], monthOf);
      forall r | r in rs ensures SettledIn(RecordAll(s, rs, monthOf), r, monthOf) {
        if r != rs[n] {
          assert r in rs[..n];
          StaysSettled(before, rs[n], r, monthOf);
        }
      }
    }
  }

  lemma {:induction false} SettledChangesNothing(s: Store, rs: seq<Rec>, monthOf: MonthOf)
    requires forall r :: r in rs ==> SettledIn(s, r, monthOf)
    ensures RecordAll(s, rs, monthOf) == s
  {
    hide Settled;
    if rs == [] {
    } else {
      SettledChangesNothing(s, rs[..|rs| - 1], monthOf);
      assert SettledIn(s, rs[|rs| - 1], monthOf);
    }
  }

  /** Recording the same messages again changes nothing, neither in memory nor in the files. */
  lemma IngestingAgainChangesNothing(s: Store, rs: seq<Rec>, monthOf: MonthOf)
    requires AllOneEach(s)
    ensures RecordAll(RecordAll(s, rs, monthOf), rs, monthOf) == RecordAll(s, rs, monthOf)
  {
    hide SettledIn, AllOneEach, RecordAll;
    AllSettled(s, rs, monthOf);
    SettledChangesNothing(RecordAll(s, rs, monthOf), rs, monthOf);
  }

  // ---- the month file ----

  /** The last line of each id. */
  function Latest(lines: seq<Rec>): map<string, Rec> {
    if lines == [] then map[] else Latest(lines[..|lines| - 1])[lines[|lines| - 1].id := lines[|lines| - 1]]
  }

  function Kept(lines: seq<Rec>): seq<Rec> {
    if lines == [] then []
    else Kept(lines[..|lines| - 1]) + if Storable(lines[|lines| - 1].usage) then [lines[|lines| - 1]] else []
  }

  lemma {:induction false} AsMapFind(rs: Records, id: string)
    ensures id in AsMap(rs) <==> Find(rs, id) >= 0
    ensures Find(rs, id) >= 0 ==> AsMap(rs)[id] == rs[Find(rs, id)]
  {
    if rs == [] {
    } else {
      AsMapFind(rs[..|rs| - 1], id);
    }
  }

  lemma AsMapPut(rs: Records, r: Rec)
    requires OneEach(rs)
    ensures AsMap(Put(rs, r)) == AsMap(rs)[r.id := r]
  {
    hide Put, Find, AsMap;
    var m, n := AsMap(Put(rs, r)), AsMap(rs)[r.id := r];
    forall id ensures (id in m <==> id in n) && (id in m ==> m[id] == n[id]) {
      AsMapFind(rs, id);
      AsMapFind(Put(rs, r), id);
      PutFinds(rs, r, id);
    }
  }

  lemma LatestPush(lines: seq<Rec>, r: Rec)
    ensures Latest(lines + [r]) == Latest(lines)[r.id := r]
  {
    assert (lines + [r])[..|lines|] == lines;
  }

  lemma KeptPush(lines: seq<Rec>, r: Rec)
    ensures Kept(lines + [r]) == if Storable(r.usage) then Kept(lines) + [r] else Kept(lines)
  {
    assert (lines + [r])[..|lines|] == lines;
  }

  lemma {:induction false} ReplayIsLatestKept(lines: seq<Rec>)
    ensures AsMap(Replay(lines)) == Latest(Kept(lines))
  {
    if lines == [] {
    } else {
      var n := |lines| - 1;
      ReplayIsLatestKept(lines[..n]);
      ReplayIsOneEach(lines[..n]);
      if Storable(lines[n].usage) {
        AsMapPut(Replay(lines[..n]), lines[n]);
        LatestPush(Kept(lines[..n]), lines[n]);
      } else {
        assert Kept(lines) == Kept(lines[..n]);
      }
    }
  }

  lemma {:induction false} KeptConcat(a: seq<Rec>, b: seq<Rec>)
    ensures Kept(a + b) == Kept(a) + Kept(b)
    decreases |b|
  {
    if b == [] {
      assert a + b == a;
    } else {
      assert (a + b)[..|a + b| - 1] == a + b[..|b| - 1];
      KeptConcat(a, b[..|b| - 1]);
    }
  }

  lemma {:induction false} KeptTwice(a: seq<Rec>)
    ensures Kept(Kept(a)) == Kept(a)
  {
    if a == [] {
    } else {
      var n := |a| - 1;
      KeptTwice(a[..n]);
      if Storable(a[n].usage) { KeptConcat(Kept(a[..n]), [a[n]]); }
      assert Kept(a[..n]) + [] == Kept(a[..n]);
    }
  }

  /** Every id's last kept line is storable, and is its last line when that one is kept. */
  lemma {:induction false} LatestOfKept(lines: seq<Rec>, id: string)
    ensures id in Latest(Kept(lines)) ==> id in Latest(lines) && Storable(Latest(Kept(lines))[id].usage)
    ensures id in Latest(lines) && Storable(Latest(lines)[id].usage) ==>
              id in Latest(Kept(lines)) && Latest(Kept(lines))[id] == Latest(lines)[id]
  {
    if lines == [] {
    } else {
      hide Storable, Latest, Kept;
      var n := |lines| - 1;
      LatestOfKept(lines[..n], id);
      assert lines == lines[..n] + [lines[n]];
      LatestPush(lines[..n], lines[n]);
      KeptPush(lines[..n], lines[n]);
      if Storable(lines[n].usage) { LatestPush(Kept(lines[..n]), lines[n]); }
    }
  }

  ghost predicate AllStorable(m: map<string, Rec>) {
    forall id :: id in m ==> Storable(m[id].usage)
  }

  lemma DroppingLosesExactly(lines: seq<Rec>)
    ensures Latest(Kept(lines)) == Latest(lines) <==> AllStorable(Latest(lines))
  {
    hide Latest, Kept, Storable;
    forall id ensures id in Latest(Kept(lines)) ==> id in Latest(lines) && Storable(Latest(Kept(lines))[id].usage)
              ensures id in Latest(lines) && Storable(Latest(lines)[id].usage) ==>
                        id in Latest(Kept(lines)) && Latest(Kept(lines))[id] == Latest(lines)[id] {
      LatestOfKept(lines, id);
    }
    if AllStorable(Latest(lines)) { assert Latest(Kept(lines)).Keys == Latest(lines).Keys; }
  }

  /** A month in memory is what was loaded from its file, then one `Put` per line appended since. */
  ghost predicate Mirrors(s: Store, month: string, before: seq<Rec>, appended: seq<Rec>) {
    month in s.months && LinesOf(s, month) == before + appended && OneEach(s.months[month]) &&
    AsMap(s.months[month]) == Latest(Kept(before) + appended)
  }

  lemma LoadMirrors(s: Store, month: string)
    requires month !in s.months
    ensures Mirrors(Loaded(s, month), month, LinesOf(s, month), [])
  {
    hide Latest, Kept, AsMap, Replay, OneEach;
    var lines := LinesOf(s, month);
    ReplayIsLatestKept(lines);
    ReplayIsOneEach(lines);
    assert lines + [] == lines && Kept(lines) + [] == Kept(lines);
  }

  lemma RecordMirrors(s: Store, r: Rec, monthOf: MonthOf, month: string, before: seq<Rec>, appended: seq<Rec>)
    requires Mirrors(s, month, before, appended)
    ensures Mirrors(Recorded(s, r, monthOf), month, before,
                    if monthOf(r.at) == month && !Settled(s.months[month], r) then appended + [r] else appended)
  {
    hide Latest, Kept, AsMap, Put, Find, OneEach, Replay;
    if monthOf(r.at) == month && !Settled(s.months[month], r) {
      AsMapPut(s.months[month], r);
      PutFinds(s.months[month], r, r.id);
      LatestPush(Kept(before) + appended, r);
      assert Kept(before) + (appended + [r]) == Kept(before) + appended + [r];
      assert before + (appended + [r]) == before + appended + [r];
    }
  }

  lemma {:induction false} RunMirrors(s: Store, rs: seq<Rec>, monthOf: MonthOf, month: string)
    returns (appended: seq<Rec>)
    requires month !in s.months && month in RecordAll(s, rs, monthOf).months
    ensures Mirrors(RecordAll(s, rs, monthOf), month, LinesOf(s, month), appended)
  {
    hide Mirrors, Settled, Put, Replay;
    var n := |rs| - 1;
    var t, r := RecordAll(s, rs[..n], monthOf), rs[n];
    if month in t.months {
      appended := RunMirrors(s, rs[..n], monthOf, month);
      RecordMirrors(t, r, monthOf, month, LinesOf(s, month), appended);
      appended := if monthOf(r.at) == month && !Settled(t.months[month], r) then appended + [r] else appended;
    } else {
      UnloadedFile(s, rs[..n], monthOf, month);
      LoadMirrors(t, month);
      var l := Loaded(t, month);
      RecordMirrors(l, r, monthOf, month, LinesOf(s, month), []);
      assert Recorded(l, r, monthOf) == Recorded(t, r, monthOf);
      appended := if !Settled(l.months[month], r) then [] + [r] else [];
    }
  }

  lemma {:induction false} UnloadedFile(s: Store, rs: seq<Rec>, monthOf: MonthOf, month: string)
    requires month !in RecordAll(s, rs, monthOf).months
    ensures LinesOf(RecordAll(s, rs, monthOf), month) == LinesOf(s, month)
  {
    hide Settled, Put, Replay;
    if rs == [] {
    } else {
      UnloadedFile(s, rs[..|rs| - 1], monthOf, month);
    }
  }

  /** After any run of recordings whose appends succeed, reading the month file again gives the records in memory
      exactly when each of them has positive tokens or cost. */
  lemma ReloadIsExact(s: Store, rs: seq<Rec>, monthOf: MonthOf, month: string)
    requires month !in s.months && month in RecordAll(s, rs, monthOf).months
    ensures var t := RecordAll(s, rs, monthOf);
            AsMap(Replay(LinesOf(t, month))) == AsMap(t.months[month]) <==> AllStorable(AsMap(t.months[month]))
  {
    hide Latest, Kept, AsMap, Replay, RecordAll, AllStorable;
    var t := RecordAll(s, rs, monthOf);
    var appended := RunMirrors(s, rs, monthOf, month);
    var before := LinesOf(s, month);
    var effective := Kept(before) + appended;
    ReplayIsLatestKept(LinesOf(t, month));
    KeptConcat(before, appended);
    KeptConcat(Kept(before), appended);
    KeptTwice(before);
    DroppingLosesExactly(effective);
  }

  /** Five free input tokens with a reported total of zero: recorded, counted, and gone after a reload. */
  lemma FreeMessageIsLost(id: string, at: int, monthOf: MonthOf)
    ensures var raw := RawUsage(5, 0, 0, 0, Some(0), 0, 0, 0, 0, 0);
            && UsageTotals(raw).Some?
            && var r := Rec(id, at, "session", "model", None, 0, UsageTotals(raw).value);
               var s := RecordAll(Store(map[], map[]), [r], monthOf);
               monthOf(at) in s.months && s.months[monthOf(at)] == [r] && Replay(LinesOf(s, monthOf(at))) == []
  {
    var r := Rec(id, at, "session", "model", None, 0, Usage(5, 0, 0, 0, 0, 0, 0, 0, 0, 0));
    assert [r][..0] == [];
    assert Recorded(Store(map[], map[]), r, monthOf).files[monthOf(at)] == [r];
  }

  // ---- the report cache ----

  datatype Key = Key(month: string, zone: string)

  datatype Cached = Cached(version: nat, report: Report)

  /** A build under way: the version it was asked at, and its report with the version it was built at. */
  datatype Job = Job(key: Key, version: nat, built: Option<Cached>)

  datatype Desk = Desk(months: map<string, Records>, version: nat, cache: map<Key, Cached>, jobs: seq<Job>)

  datatype Step =
    | Load(month: string, records: Records)
    | Change(month: string, records: Records)
    | Ask(key: Key)
    | Finish(job: nat)
    | Settle(job: nat)

  function Fresh(d: Desk, key: Key, dateOf: Calendar): Report {
    Build(RecordsOf(d.months, key.month), key.month, key.zone, dateOf)
  }

  predicate Hits(d: Desk, key: Key) {
    key in d.cache && d.cache[key].version == d.version
  }

  predicate Underway(d: Desk, key: Key) {
    exists i :: 0 <= i < |d.jobs| && d.jobs[i].key == key && d.jobs[i].version == d.version
  }

  /** A month is loaded once; every later change to it raises the version. */
  function After(d: Desk, step: Step, dateOf: Calendar): Desk {
    match step
    case Load(month, records) => if month in d.months then d else d.(months := d.months[month := records])
    case Change(month, records) =>
      if month in d.months then d.(months := d.months[month := records], version := d.version + 1) else d
    case Ask(key) => if Hits(d, key) || Underway(d, key) then d else d.(jobs := d.jobs + [Job(key, d.version, None)])
    case Finish(i) =>
      if i < |d.jobs| && d.jobs[i].built.None? && d.jobs[i].key.month in d.months
      then d.(jobs := d.jobs[i := d.jobs[i].(built := Some(Cached(d.version, Fresh(d, d.jobs[i].key, dateOf))))]) else d
    case Settle(i) =>
      if i < |d.jobs| && d.jobs[i].built.Some?
      then d.(jobs := d.jobs[..i] + d.jobs[i + 1..],
              cache := if d.jobs[i].version == d.version
                       then d.cache[d.jobs[i].key := Cached(d.version, d.jobs[i].built.value.report)] else d.cache)
      else d
  }

  function Run(steps: seq<Step>, dateOf: Calendar): Desk {
    if steps == [] then Desk(map[], 0, map[], [])
    else After(Run(steps[..|steps| - 1], dateOf), steps[|steps| - 1], dateOf)
  }

  predicate TrueReport(d: Desk, key: Key, c: Cached, dateOf: Calendar) {
    c.version <= d.version && key.month in d.months && (c.version == d.version ==> c.report == Fresh(d, key, dateOf))
  }

  predicate Sound(d: Desk, dateOf: Calendar) {
    (forall key :: key in d.cache ==> TrueReport(d, key, d.cache[key], dateOf)) &&
    (forall i :: 0 <= i < |d.jobs| ==> JobSound(d, d.jobs[i], dateOf))
  }

  predicate JobSound(d: Desk, job: Job, dateOf: Calendar) {
    job.version <= d.version &&
    (job.built.Some? ==> job.version <= job.built.value.version && TrueReport(d, job.key, job.built.value, dateOf))
  }

  lemma StaysTrue(d: Desk, step: Step, key: Key, c: Cached, dateOf: Calendar)
    requires TrueReport(d, key, c, dateOf)
    ensures TrueReport(After(d, step, dateOf), key, c, dateOf)
  {
    hide Build, Underway;
  }

  lemma JobStaysSound(d: Desk, step: Step, job: Job, dateOf: Calendar)
    requires JobSound(d, job, dateOf)
    ensures JobSound(After(d, step, dateOf), job, dateOf)
  {
    hide Build, Underway, TrueReport;
    if job.built.Some? { StaysTrue(d, step, job.key, job.built.value, dateOf); }
  }

  lemma StepKeepsSound(d: Desk, step: Step, dateOf: Calendar)
    requires Sound(d, dateOf)
    ensures Sound(After(d, step, dateOf), dateOf)
  {
    hide Build, Underway, Fresh;
    var e := After(d, step, dateOf);
    forall key | key in d.cache ensures TrueReport(e, key, d.cache[key], dateOf) {
      StaysTrue(d, step, key, d.cache[key], dateOf);
    }
    forall i | 0 <= i < |d.jobs| ensures JobSound(e, d.jobs[i], dateOf) { JobStaysSound(d, step, d.jobs[i], dateOf); }
    match step
    case Finish(i) =>
      if i < |d.jobs| { FinishIsSound(d, i, dateOf); }
    case Settle(i) =>
      if i < |d.jobs| && d.jobs[i].built.Some? { assert JobSound(e, d.jobs[i], dateOf); }
    case _ =>
  }

  lemma FinishIsSound(d: Desk, i: nat, dateOf: Calendar)
    requires Sound(d, dateOf) && i < |d.jobs|
    ensures JobSound(After(d, Finish(i), dateOf), After(d, Finish(i), dateOf).jobs[i], dateOf)
  {
    hide Build;
  }

  lemma {:induction false} RunIsSound(steps: seq<Step>, dateOf: Calendar)
    ensures Sound(Run(steps, dateOf), dateOf)
  {
    hide Sound, After;
    if steps == [] {
      NothingCached(dateOf);
    } else {
      RunIsSound(steps[..|steps| - 1], dateOf);
      StepKeepsSound(Run(steps[..|steps| - 1], dateOf), steps[|steps| - 1], dateOf);
    }
  }

  lemma NothingCached(dateOf: Calendar)
    ensures Sound(Desk(map[], 0, map[], []), dateOf)
  {
  }

  /** Over every interleaving of loads, changes, requests and builds that take their time, a report served from the
      cache is the report a fresh build of the current records would give. */
  lemma CacheIsFresh(steps: seq<Step>, key: Key, dateOf: Calendar)
    requires Hits(Run(steps, dateOf), key)
    ensures Run(steps, dateOf).cache[key].report == Fresh(Run(steps, dateOf), key, dateOf)
  {
    hide Build, After;
    RunIsSound(steps, dateOf);
  }

  /** A build for this key that was asked for at this version. */
  predicate Waits(d: Desk, key: Key, version: nat) {
    exists i :: 0 <= i < |d.jobs| && d.jobs[i].key == key && d.jobs[i].version == version
  }

  /** A finished build read the records as they were at some moment of the run. */
  ghost predicate BuiltDuring(steps: seq<Step>, key: Key, c: Cached, dateOf: Calendar) {
    exists m :: 0 <= m <= |steps| && var d := Run(steps[..m], dateOf);
      d.version == c.version && key.month in d.months && c.report == Fresh(d, key, dateOf)
  }

  lemma BuiltEarlier(steps: seq<Step>, key: Key, c: Cached, dateOf: Calendar)
    requires steps != [] && BuiltDuring(steps[..|steps| - 1], key, c, dateOf)
    ensures BuiltDuring(steps, key, c, dateOf)
  {
    hide Fresh, Run;
    var n := |steps| - 1;
    var m :| 0 <= m <= n && var d := Run(steps[..n][..m], dateOf);
      d.version == c.version && key.month in d.months && c.report == Fresh(d, key, dateOf);
    assert steps[..n][..m] == steps[..m];
  }

  lemma {:induction false} JobsAreBuilt(steps: seq<Step>, k: nat, dateOf: Calendar)
    requires k < |Run(steps, dateOf).jobs| && Run(steps, dateOf).jobs[k].built.Some?
    ensures var job := Run(steps, dateOf).jobs[k]; BuiltDuring(steps, job.key, job.built.value, dateOf)
    decreases |steps|
  {
    hide Fresh, Underway;
    var n := |steps| - 1;
    var d, e := Run(steps[..n], dateOf), Run(steps, dateOf);
    var job := e.jobs[k];
    if i :| 0 <= i < |d.jobs| && d.jobs[i] == job {
      JobsAreBuilt(steps[..n], i, dateOf);
      BuiltEarlier(steps, job.key, job.built.value, dateOf);
    } else {
      assert steps[n] == Finish(k) && job.built.value.report == Fresh(d, job.key, dateOf);
      assert BuiltDuring(steps, job.key, job.built.value, dateOf);
    }
  }

  /** A request that the cache does not answer waits for a build that was asked for at the version of the request, and
      whatever that build reports was read no earlier than that version: a change is never missed by a request that
      came after it. */
  lemma WaitedReportIsCurrent(steps: seq<Step>, i: nat, j: nat, k: nat, key: Key, dateOf: Calendar)
    requires i < j <= |steps| && steps[i] == Ask(key) && !Hits(Run(steps[..i], dateOf), key)
    ensures Waits(Run(steps[..i + 1], dateOf), key, Run(steps[..i], dateOf).version)
    ensures var v, d := Run(steps[..i], dateOf).version, Run(steps[..j], dateOf);
            k < |d.jobs| && d.jobs[k].key == key && d.jobs[k].version == v && d.jobs[k].built.Some? ==>
              d.jobs[k].built.value.version >= v && BuiltDuring(steps[..j], key, d.jobs[k].built.value, dateOf)
  {
    hide Fresh, BuiltDuring, Sound;
    assert steps[..i + 1][..i] == steps[..i];
    var d, e := Run(steps[..i], dateOf), Run(steps[..i + 1], dateOf);
    assert e == After(d, Ask(key), dateOf);
    if !Underway(d, key) { assert e.jobs[|d.jobs|] == Job(key, d.version, None); }
    var f := Run(steps[..j], dateOf);
    if k < |f.jobs| && f.jobs[k].built.Some? {
      JobsAreBuilt(steps[..j], k, dateOf);
      RunIsSound(steps[..j], dateOf);
      SoundJob(f, k, dateOf);
    }
  }

  lemma SoundJob(d: Desk, k: nat, dateOf: Calendar)
    requires Sound(d, dateOf) && k < |d.jobs|
    ensures JobSound(d, d.jobs[k], dateOf)
  {
  }

  // ---- the ledger as an object ----

  lemma UndoUpdate(rs: Records, r: Rec)
    requires Find(rs, r.id) >= 0
    ensures Put(Put(rs, r), rs[Find(rs, r.id)]) == rs
  {
    SameFind(rs, Find(rs, r.id), r);
  }

  lemma UndoPut(rs: Records, r: Rec, month: string)
    ensures RolledBack(Put(rs, r), Write(month, r, Held(rs, r.id))) == rs
  {
    if Find(rs, r.id) >= 0 { UndoUpdate(rs, r); } else { FindPut(rs, r); }
  }

  /** With no other append on its way, a record is stored and its line appended, or nothing has happened but the
      load. */
  lemma OneWriteAtATime(s: Store, r: Rec, monthOf: MonthOf, ok: bool)
    ensures var f := Stored(Flow(s, []), r, monthOf);
            if f.pending == [] then f.store == Loaded(s, monthOf(r.at)) == Recorded(s, r, monthOf)
            else |f.pending| == 1 &&
                 Flushed(f, ok) == Flow(if ok then Recorded(s, r, monthOf) else Loaded(s, monthOf(r.at)), [])
  {
    hide Put, Find, Replay, RolledBack, Held, Settled;
    var month := monthOf(r.at);
    UndoPut(Loaded(s, month).months[month], r, month);
  }

  lemma {:induction false} SameFind(rs: Records, i: nat, r: Rec)
    requires i < |rs| && Find(rs, r.id) == i
    ensures Find(rs[i := r], r.id) == i
  {
    if i < |rs| - 1 {
      assert rs[i := r][..|rs| - 1] == rs[..|rs| - 1][i := r];
      SameFind(rs[..|rs| - 1], i, r);
    }
  }

  lemma FindPut(rs: Records, r: Rec)
    ensures Find(Put(rs, r), r.id) == if Find(rs, r.id) >= 0 then Find(rs, r.id) else |rs|
  {
    if Find(rs, r.id) >= 0 { SameFind(rs, Find(rs, r.id), r); }
  }

  class Ledger {
    const monthOf: MonthOf
    const dateOf: Calendar
    var recordsByMonth: map<string, Records>
    var files: map<string, seq<Rec>>
    var pending: seq<Write>
    var version: nat
    var reportCache: map<Key, Cached>
    var reportJobs: seq<Job>

    function Contents(): Store
      reads this
    {
      Store(recordsByMonth, files)
    }

    function Writes(): Flow
      reads this
    {
      Flow(Contents(), pending)
    }

    function State(): Desk
      reads this
    {
      Desk(recordsByMonth, version, reportCache, reportJobs)
    }

    constructor (monthOf: MonthOf, dateOf: Calendar, files: map<string, seq<Rec>>)
      ensures this.monthOf == monthOf && this.dateOf == dateOf
      ensures Writes() == Flow(Store(map[], files), []) && State() == Desk(map[], 0, map[], [])
    {
      this.monthOf, this.dateOf, this.files := monthOf, dateOf, files;
      recordsByMonth, pending, version, reportCache, reportJobs := map[], [], 0, map[], [];
    }

    method LoadMonth(month: string)
      modifies this`recordsByMonth
      ensures Contents() == Loaded(old(Contents()), month)
      ensures State() == After(old(State()), Load(month, Replay(LinesOf(old(Contents()), month))), dateOf)
    {
      if month in recordsByMonth { return; }
      var lines := if month in files then files[month] else [];
      var monthRecords: Records := [];
      for i := 0 to |lines|
        invariant monthRecords == Replay(lines[..i])
      {
        assert lines[..i + 1][..i] == lines[..i];
        if Storable(lines[i].usage) { monthRecords := Put(monthRecords, lines[i]); }
      }
      assert lines[..|lines|] == lines;
      recordsByMonth := recordsByMonth[month := monthRecords];
    }

    /** Take one record, if it says something new, and queue the append of its line. */
    method RecordUsage(r: Rec) returns (taken: bool)
      modifies this`recordsByMonth, this`pending, this`version
      ensures Writes() == Stored(old(Writes()), r, monthOf)
      ensures taken <==> pending != old(pending)
      ensures var month, s := monthOf(r.at), old(Contents());
              var loaded := After(old(State()), Load(month, Replay(LinesOf(s, month))), dateOf);
              State() == if taken then After(loaded, Change(month, recordsByMonth[month]), dateOf) else loaded
    {
      hide Find, Put, Replay;
      var month := monthOf(r.at);
      LoadMonth(month);
      var monthRecords := recordsByMonth[month];
      var i := Find(monthRecords, r.id);
      if i >= 0 && (monthRecords[i].effort.Some? || r.effort.None?) { return false; }
      var existing := if i >= 0 then Some(monthRecords[i]) else None;
      recordsByMonth := recordsByMonth[month := Put(monthRecords, r)];
      version := version + 1;
      pending := pending + [Write(month, r, existing)];
      return true;
    }

    /** The oldest append ends; when it failed, what it had replaced is put back. */
    method FinishWrite(ok: bool) returns (result: Result<bool, string>)
      requires pending != [] && pending[0].month in recordsByMonth
      modifies this`recordsByMonth, this`files, this`pending, this`version
      ensures Writes() == Flushed(old(Writes()), ok)
      ensures result == if ok then Ok(true) else Err("append_failed")
      ensures var month := old(pending)[0].month;
              State() == if ok then old(State()) else After(old(State()), Change(month, recordsByMonth[month]), dateOf)
    {
      hide Find, Put;
      var w := pending[0];
      pending := pending[1..];
      if ok {
        files := files[w.month := (if w.month in files then files[w.month] else []) + [w.r]];
        return Ok(true);
      }
      var now := recordsByMonth[w.month];
      if w.before.Some? {
        now := Put(now, w.before.value);
      } else {
        var at := Find(now, w.r.id);
        if at >= 0 { now := now[..at] + now[at + 1..]; }
      }
      recordsByMonth := recordsByMonth[w.month := now];
      version := version + 1;
      return Err("append_failed");
    }

    /** A cached report at once, or a build that is under way or started now. */
    method AskReport(key: Key) returns (answer: Option<Report>)
      modifies this`reportJobs
      ensures State() == After(old(State()), Ask(key), dateOf)
      ensures answer == if Hits(old(State()), key) then Some(old(reportCache)[key].report) else None
    {
      if key in reportCache && reportCache[key].version == version { return Some(reportCache[key].report); }
      var underway := false;
      for i := 0 to |reportJobs|
        invariant underway <==> exists k :: 0 <= k < i && reportJobs[k].key == key && reportJobs[k].version == version
      {
        if reportJobs[i].key == key && reportJobs[i].version == version { underway := true; }
      }
      if !underway { reportJobs := reportJobs + [Job(key, version, None)]; }
      return None;
    }

    /** A build reads the records of its month. */
    method FinishReport(i: nat)
      requires i < |reportJobs| && reportJobs[i].built.None? && reportJobs[i].key.month in recordsByMonth
      modifies this`reportJobs
      ensures State() == After(old(State()), Finish(i), dateOf)
    {
      hide Build;
      var key := reportJobs[i].key;
      var report := BuildReport(recordsByMonth[key.month], key.month, key.zone);
      reportJobs := reportJobs[i := reportJobs[i].(built := Some(Cached(version, report)))];
    }

    /** A finished build is cached unless something changed since it was asked for. */
    method SettleReport(i: nat) returns (report: Report)
      requires i < |reportJobs| && reportJobs[i].built.Some?
      modifies this`reportJobs, this`reportCache
      ensures State() == After(old(State()), Settle(i), dateOf) && report == old(reportJobs)[i].built.value.report
    {
      var job := reportJobs[i];
      report := job.built.value.report;
      if job.version == version { reportCache := reportCache[job.key := Cached(version, report)]; }
      reportJobs := reportJobs[..i] + reportJobs[i + 1..];
    }

    method BuildReport(rs: Records, month: string, zone: string) returns (report: Report)
      ensures report == Build(rs, month, zone, dateOf)
    {
      hide InMonth, Plus, Sum, Part;
      report := Report(ZERO, map[], map[], map[], map[], map[], 0);
      for i := 0 to |rs|
        invariant report == Build(rs[..i], month, zone, dateOf).(total := ZERO, recordCount := 0)
      {
        var r := rs[i];
        var date := dateOf(r.at, zone);
        assert rs[..i + 1][..i] == rs[..i];
        if InMonth(date, month) {
          var u := r.usage;
          var models := Bump(TableOf(report.dailyModels, date), r.model, u);
          var efforts := Bump(TableOf(report.efforts, r.model), EffortOf(r), u);
          report := report.(daily := Bump(report.daily, date, u), dailyModels := report.dailyModels[date := models],
                            models := Bump(report.models, r.model, u), efforts := report.efforts[r.model := efforts],
                            sessions := Bump(report.sessions, r.session, u));
        }
      }
      assert rs[..|rs|] == rs;
      ghost var whole := Build(rs, month, zone, dateOf);
      var total := AddRows(report.daily);
      forall f ensures Part(total, f) == Part(whole.total, f) { ReportConserves(rs, month, zone, dateOf, f); }
      SameParts(total, whole.total);
      CountIsLength(rs, month, zone, dateOf);
      report := report.(total := total, recordCount := |rs|);
    }

    method AddRows(t: Table) returns (total: Usage)
      ensures forall f :: Part(total, f) == Sum(Col(t, f))
    {
      hide Plus, Part, SumOver;
      total := ZERO;
      var todo := t.Keys;
      forall f ensures Part(total, f) == SumOver(Col(t, f), t.Keys - todo) {
        ZeroPart(f);
        NoRows(Col(t, f), t.Keys - todo);
      }
      while todo != {}
        invariant todo <= t.Keys
        invariant forall f :: Part(total, f) == SumOver(Col(t, f), t.Keys - todo)
        decreases |todo|
      {
        var k :| k in todo;
        var next := Plus(total, t[k]);
        forall f ensures Part(next, f) == SumOver(Col(t, f), t.Keys - (todo - {k})) {
          PartPlus(total, t[k], f);
          SumPick(Col(t, f), t.Keys - (todo - {k}), k);
          assert t.Keys - (todo - {k}) - {k} == t.Keys - todo;
        }
        total, todo := next, todo - {k};
      }
      assert t.Keys - todo == t.Keys;
      forall f ensures Part(total, f) == Sum(Col(t, f)) { assert Col(t, f).Keys == t.Keys; }
    }
  }

  lemma NoRows(m: map<string, int>, keys: set<string>)
    requires keys == {}
    ensures SumOver(m, keys) == 0
  {
  }
}
