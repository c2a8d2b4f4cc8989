/**
 * The timing ledger (backend/timing-ledger.ts): day buckets of model calls, tool calls and agent
 * runs, filled from append-only files and merged into reports.
 *
 * Durations and token counts are naturals. The calendar is a function from time to date, and what a
 * line of a file says is a function from text to record; a blank or broken line says nothing.
 */
module TimingLedger {
  import opened Wrappers
  import opened LineFeed
  import opened Sums
  import opened TextEncoding

  datatype Kind = Model | Tool | Run
  datatype Scope = Root | Child

  datatype Rec =
    Rec(at: int, kind: Kind, scope: Scope, session: string, caption: string, provider: Option<string>,
        model: Option<string>, totalMs: Option<nat>, durationMs: Option<nat>, ttftMs: Option<nat>,
        thinkingMs: Option<nat>, outputTokens: Option<nat>, tool: Option<string>, isError: bool)

  datatype ModelBucket =
    ModelBucket(calls: nat, errors: nat, totalMs: nat, outputTokens: nat, thinkingMs: nat, thinkingCalls: nat,
                ttftCalls: nat, ttftMs: nat, decodeMs: nat, ttftSamples: seq<nat>)

  datatype ToolBucket = ToolBucket(calls: nat, errors: nat, totalMs: nat, durations: seq<nat>)

  datatype SessionBucket = SessionBucket(caption: string, runs: nat, activeMs: nat, modelMs: nat, toolMs: nat)

  datatype Day =
    Day(activeMs: nat, childActiveMs: nat, modelMs: nat, toolMs: nat, modelCalls: nat, toolCalls: nat,
        outputTokens: nat, errors: nat, runs: nat, childRuns: nat, ttftCalls: nat, ttftMs: nat, thinkingCalls: nat,
        thinkingMs: nat, decodeMs: nat, models: map<string, ModelBucket>, tools: map<string, ToolBucket>,
        sessions: map<string, SessionBucket>)

  const EMPTY_DAY: Day := Day(0, 0, 0, 0, 0, 0, 0, 0, 0, 0, 0, 0, 0, 0, 0, map[], map[], map[])
  const NO_CALLS: ModelBucket := ModelBucket(0, 0, 0, 0, 0, 0, 0, 0, 0, [])
  const NO_USES: ToolBucket := ToolBucket(0, 0, 0, [])

  function Get<T>(o: Option<T>, d: T): T {
    if o.Some? then o.value else d
  }

  function Bit(b: bool): nat {
    if b then 1 else 0
  }

  function ModelKey(r: Rec): string {
    Get(r.provider, "unknown") + "/" + Get(r.model, "unknown")
  }

  function ToolName(r: Rec): string {
    Get(r.tool, "unknown")
  }

  predicate Timed(r: Rec) {
    r.ttftMs.Some? && r.totalMs.Some?
  }

  function DecodeTime(r: Rec): nat
    requires Timed(r)
  {
    Max(0, r.totalMs.value - r.ttftMs.value)
  }

  // ---- every number of the ledger, and what a record adds to it ----

  datatype DayField =
    | ActiveMs | ChildActiveMs | ModelMs | ToolMs | ModelCalls | ToolCalls | OutputTokens | Errors | Runs | ChildRuns
    | TtftCalls | TtftMs | ThinkingCalls | ThinkingMs | DecodeMs

  datatype ModelField = MCalls | MErrors | MTotalMs | MOutputTokens | MThinkingMs | MThinkingCalls | MTtftCalls
      | MTtftMs | MDecodeMs

  datatype ToolField = TCalls | TErrors | TTotalMs

  datatype SessionField = SRuns | SActiveMs | SModelMs | SToolMs

  /** One number of a day or of a report. */
  datatype Cell =
    | OfDay(day: DayField)
    | OfModel(key: string, modelField: ModelField)
    | OfTool(key: string, toolField: ToolField)
    | OfSession(key: string, sessionField: SessionField)

  function DayValue(d: Day, f: DayField): nat {
    match f
    case ActiveMs => d.activeMs
    case ChildActiveMs => d.childActiveMs
    case ModelMs => d.modelMs
    case ToolMs => d.toolMs
    case ModelCalls => d.modelCalls
    case ToolCalls => d.toolCalls
    case OutputTokens => d.outputTokens
    case Errors => d.errors
    case Runs => d.runs
    case ChildRuns => d.childRuns
    case TtftCalls => d.ttftCalls
    case TtftMs => d.ttftMs
    case ThinkingCalls => d.thinkingCalls
    case ThinkingMs => d.thinkingMs
    case DecodeMs => d.decodeMs
  }

  function ModelValue(b: ModelBucket, f: ModelField): nat {
    match f
    case MCalls => b.calls
    case MErrors => b.errors
    case MTotalMs => b.totalMs
    case MOutputTokens => b.outputTokens
    case MThinkingMs => b.thinkingMs
    case MThinkingCalls => b.thinkingCalls
    case MTtftCalls => b.ttftCalls
    case MTtftMs => b.ttftMs
    case MDecodeMs => b.decodeMs
  }

  function ToolValue(b: ToolBucket, f: ToolField): nat {
    match f case TCalls => b.calls case TErrors => b.errors case TTotalMs => b.totalMs
  }

  function SessionValue(b: SessionBucket, f: SessionField): nat {
    match f case SRuns => b.runs case SActiveMs => b.activeMs case SModelMs => b.modelMs case SToolMs => b.toolMs
  }

  function Value(d: Day, c: Cell): nat {
    match c
    case OfDay(f) => DayValue(d, f)
    case OfModel(k, f) => if k in d.models then ModelValue(d.models[k], f) else 0
    case OfTool(k, f) => if k in d.tools then ToolValue(d.tools[k], f) else 0
    case OfSession(k, f) => if k in d.sessions then SessionValue(d.sessions[k], f) else 0
  }

  /** What a record means for a number of a day, said field by field. */
  function DayAdds(r: Rec, f: DayField): nat {
    match f
    case ActiveMs => if r.kind == Run && r.scope == Root then Get(r.durationMs, 0) else 0
    case ChildActiveMs => if r.kind == Run && r.scope == Child then Get(r.durationMs, 0) else 0
    case ModelMs => if r.kind == Model && r.scope == Root then Get(r.totalMs, 0) else 0
    case ToolMs => if r.kind == Tool && r.scope == Root then Get(r.durationMs, 0) else 0
    case ModelCalls => Bit(r.kind == Model)
    case ToolCalls => Bit(r.kind == Tool)
    case OutputTokens => if r.kind == Model then Get(r.outputTokens, 0) else 0
    case Errors => Bit(r.kind != Run && r.isError)
    case Runs => Bit(r.kind == Run && r.scope == Root)
    case ChildRuns => Bit(r.kind == Run && r.scope == Child)
    case TtftCalls => Bit(r.kind == Model && Timed(r))
    case TtftMs => if r.kind == Model && Timed(r) then r.ttftMs.value else 0
    case ThinkingCalls => Bit(r.kind == Model && r.thinkingMs.Some?)
    case ThinkingMs => if r.kind == Model then Get(r.thinkingMs, 0) else 0
    case DecodeMs => if r.kind == Model && Timed(r) then DecodeTime(r) else 0
  }

  function ModelAdds(r: Rec, f: ModelField): nat {
    match f
    case MCalls => 1
    case MErrors => Bit(r.isError)
    case MTotalMs => Get(r.totalMs, 0)
    case MOutputTokens => Get(r.outputTokens, 0)
    case MThinkingMs => Get(r.thinkingMs, 0)
    case MThinkingCalls => Bit(r.thinkingMs.Some?)
    case MTtftCalls => Bit(Timed(r))
    case MTtftMs => if Timed(r) then r.ttftMs.value else 0
    case MDecodeMs => if Timed(r) then DecodeTime(r) else 0
  }

  function Adds(r: Rec, c: Cell): nat {
    match c
    case OfDay(f) => DayAdds(r, f)
    case OfModel(k, f) => if r.kind == Model && ModelKey(r) == k then ModelAdds(r, f) else 0
    case OfTool(k, f) =>
      if r.kind == Tool && ToolName(r) == k
      then match f case TCalls => 1 case TErrors => Bit(r.isError) case TTotalMs => Get(r.durationMs, 0)
      else 0
    case OfSession(k, f) =>
      if r.scope == Root && r.session == k
      then match f
        case SRuns => Bit(r.kind == Run)
        case SActiveMs => if r.kind == Run then Get(r.durationMs, 0) else 0
        case SModelMs => if r.kind == Model then Get(r.totalMs, 0) else 0
        case SToolMs => if r.kind == Tool then Get(r.durationMs, 0) else 0
      else 0
  }

  // ---- one record into one day ----

  function WithSession(d: Day, r: Rec): Day {
    var s := if r.session in d.sessions then d.sessions[r.session] else SessionBucket(r.caption, 0, 0, 0, 0);
    var caption := if r.caption != "" then r.caption else s.caption;
    d.(sessions := d.sessions[r.session :=
         SessionBucket(caption, s.runs + Bit(r.kind == Run),
                       s.activeMs + (if r.kind == Run then Get(r.durationMs, 0) else 0),
                       s.modelMs + (if r.kind == Model then Get(r.totalMs, 0) else 0),
                       s.toolMs + (if r.kind == Tool then Get(r.durationMs, 0) else 0))])
  }

  function ModelCounted(b: ModelBucket, r: Rec): ModelBucket {
    ModelBucket(b.calls + 1, b.errors + Bit(r.isError), b.totalMs + Get(r.totalMs, 0),
                b.outputTokens + Get(r.outputTokens, 0), b.thinkingMs + Get(r.thinkingMs, 0),
                b.thinkingCalls + Bit(r.thinkingMs.Some?), b.ttftCalls + Bit(Timed(r)),
                b.ttftMs + (if Timed(r) then r.ttftMs.value else 0),
                  b.decodeMs + (if Timed(r) then DecodeTime(r) else 0),
                if Timed(r) then b.ttftSamples + [r.ttftMs.value] else b.ttftSamples)
  }

  function CallCounted(d: Day, r: Rec): Day {
    d.(modelCalls := d.modelCalls + 1, outputTokens := d.outputTokens + Get(r.outputTokens, 0),
       modelMs := d.modelMs + (if r.scope == Root then Get(r.totalMs, 0) else 0), errors := d.errors + Bit(r.isError))
  }

  function CallTimed(d: Day, r: Rec): Day {
    d.(ttftCalls := d.ttftCalls + Bit(Timed(r)), ttftMs := d.ttftMs + (if Timed(r) then r.ttftMs.value else 0),
       decodeMs := d.decodeMs + (if Timed(r) then DecodeTime(r) else 0),
       thinkingCalls := d.thinkingCalls + Bit(r.thinkingMs.Some?), thinkingMs := d.thinkingMs + Get(r.thinkingMs, 0))
  }

  function WithModel(d: Day, r: Rec): Day {
    var b := if ModelKey(r) in d.models then d.models[ModelKey(r)] else NO_CALLS;
    CallTimed(CallCounted(d, r), r).(models := d.models[ModelKey(r) := ModelCounted(b, r)])
  }

  function WithTool(d: Day, r: Rec): Day {
    var b := if ToolName(r) in d.tools then d.tools[ToolName(r)] else NO_USES;
    var ms := Get(r.durationMs, 0);
    d.(toolCalls := d.toolCalls + 1, toolMs := d.toolMs + (if r.scope == Root then ms else 0),
       errors := d.errors + Bit(r.isError),
       tools := d.tools[ToolName(r) := ToolBucket(b.calls + 1, b.errors + Bit(r.isError), b.totalMs + ms,
                                                  b.durations + [ms])])
  }

  function WithRun(d: Day, r: Rec): Day {
    var ms := Get(r.durationMs, 0);
    if r.scope == Child then d.(childRuns := d.childRuns + 1, childActiveMs := d.childActiveMs + ms)
    else d.(runs := d.runs + 1, activeMs := d.activeMs + ms)
  }

  function WithRec(d: Day, r: Rec): Day {
    var d1 := match r.kind case Model => WithModel(d, r) case Tool => WithTool(d, r) case Run => WithRun(d, r);
    if r.scope == Root then WithSession(d1, r) else d1
  }

  function DayAt(days: map<string, Day>, date: string): Day {
    if date in days then days[date] else EMPTY_DAY
  }

  type Calendar = int -> string
  type Parser = Text -> Option<Rec>

  function Ingested(days: map<string, Day>, r: Rec, dateOf: Calendar): map<string, Day> {
    days[dateOf(r.at) := WithRec(DayAt(days, dateOf(r.at)), r)]
  }

  function IngestAll(days: map<string, Day>, rs: seq<Rec>, dateOf: Calendar): map<string, Day> {
    if rs == [] then days
    else Ingested(IngestAll(days, rs[..|rs| - 1], dateOf), rs[|rs| - 1], dateOf)
  }

  // ---- a number is the sum of what the records add ----

  lemma SessionLaw(d: Day, r: Rec, c: Cell)
    requires r.scope == Root
    ensures Value(WithSession(d, r), c) == Value(d, c) + (if c.OfSession? then Adds(r, c) else 0)
  {
  }

  lemma ModelLaw(d: Day, r: Rec, c: Cell)
    requires r.kind == Model
    ensures Value(WithModel(d, r), c) == Value(d, c) + (if c.OfSession? then 0 else Adds(r, c))
  {
    hide ModelCounted, ModelKey, ModelValue, ModelAdds, DayValue, DayAdds;
    match c
    case OfDay(f) => ModelDayLaw(d, r, f);
    case OfModel(k, f) =>
      NoCallsIsZero(f);
      ModelRowLaw(if ModelKey(r) in d.models then d.models[ModelKey(r)] else NO_CALLS, r, f);
    case _ =>
  }

  lemma ModelDayLaw(d: Day, r: Rec, f: DayField)
    requires r.kind == Model
    ensures DayValue(WithModel(d, r), f) == DayValue(d, f) + DayAdds(r, f)
  {
    hide ModelCounted, ModelKey;
  }

  lemma ModelRowLaw(b: ModelBucket, r: Rec, f: ModelField)
    ensures ModelValue(ModelCounted(b, r), f) == ModelValue(b, f) + ModelAdds(r, f)
  {
  }

  lemma NoCallsIsZero(f: ModelField)
    ensures ModelValue(NO_CALLS, f) == 0
  {
  }

  lemma ToolLaw(d: Day, r: Rec, c: Cell)
    requires r.kind == Tool
    ensures Value(WithTool(d, r), c) == Value(d, c) + (if c.OfSession? then 0 else Adds(r, c))
  {
  }

  lemma RunLaw(d: Day, r: Rec, c: Cell)
    requires r.kind == Run
    ensures Value(WithRun(d, r), c) == Value(d, c) + (if c.OfSession? then 0 else Adds(r, c))
  {
  }

  lemma RecordLaw(d: Day, r: Rec, c: Cell)
    ensures Value(WithRec(d, r), c) == Value(d, c) + Adds(r, c)
  {
    hide Value, DayAdds, ModelAdds, WithModel, WithTool, WithRun, WithSession, ModelKey, ToolName;
    var d1 := match r.kind case Model => WithModel(d, r) case Tool => WithTool(d, r) case Run => WithRun(d, r);
    match r.kind {
      case Model => ModelLaw(d, r, c);
      case Tool => ToolLaw(d, r, c);
      case Run => RunLaw(d, r, c);
    }
    if r.scope == Root { SessionLaw(d1, r, c); }
  }

  /** The sum of what the records of one date add to a number. */
  function Total(rs: seq<Rec>, date: string, c: Cell, dateOf: Calendar): nat {
    if rs == [] then 0
    else
      var r := rs[|rs| - 1];
      Total(rs[..|rs| - 1], date, c, dateOf) + if dateOf(r.at) == date then Adds(r, c) else 0
  }

  /** Every number of every day is the sum over the records of that date. */
  lemma {:induction false} DaysAreSums(rs: seq<Rec>, date: string, c: Cell, dateOf: Calendar)
    ensures Value(DayAt(IngestAll(map[], rs, dateOf), date), c) == Total(rs, date, c, dateOf)
  {
    hide Value, Adds, WithRec;
    if rs == [] {
      EmptyIsZero(c);
    } else {
      var r, before := rs[|rs| - 1], IngestAll(map[], rs[..|rs| - 1], dateOf);
      DaysAreSums(rs[..|rs| - 1], date, c, dateOf);
      RecordLaw(DayAt(before, date), r, c);
    }
  }

  lemma EmptyIsZero(c: Cell)
    ensures Value(EMPTY_DAY, c) == 0
  {
  }

  // ---- balance ----

  /** A column of one of the three tables of a day. */
  datatype Family = ByModel(modelField: ModelField) | ByTool(toolField: ToolField)
      | BySession(sessionField: SessionField)

  function Column(d: Day, fam: Family): map<string, int> {
    match fam
    case ByModel(f) => map k | k in d.models :: ModelValue(d.models[k], f)
    case ByTool(f) => map k | k in d.tools :: ToolValue(d.tools[k], f)
    case BySession(f) => map k | k in d.sessions :: SessionValue(d.sessions[k], f)
  }

  function CellOf(fam: Family, key: string): Cell {
    match fam
    case ByModel(f) => OfModel(key, f)
    case ByTool(f) => OfTool(key, f)
    case BySession(f) => OfSession(key, f)
  }

  /** The row of a table that a record belongs to. */
  function KeyOf(fam: Family, r: Rec): Option<string> {
    match fam
    case ByModel(_) => if r.kind == Model then Some(ModelKey(r)) else None
    case ByTool(_) => if r.kind == Tool then Some(ToolName(r)) else None
    case BySession(_) => if r.scope == Root then Some(r.session) else None
  }

  function Share(fam: Family, r: Rec): nat {
    if KeyOf(fam, r).Some? then Adds(r, CellOf(fam, KeyOf(fam, r).value)) else 0
  }

  lemma CellIsColumn(d: Day, fam: Family, k: string)
    ensures Value(d, CellOf(fam, k)) == At(Column(d, fam), k)
  {
  }

  lemma ColumnKeys(d: Day, r: Rec, fam: Family)
    ensures Column(WithRec(d, r), fam).Keys ==
            Column(d, fam).Keys + (if KeyOf(fam, r).Some? then {KeyOf(fam, r).value} else {})
  {
    hide ModelCounted, ModelKey, ToolName, ModelValue, ToolValue, SessionValue;
  }

  lemma OwnRowOnly(r: Rec, fam: Family, k: string)
    requires KeyOf(fam, r) != Some(k)
    ensures Adds(r, CellOf(fam, k)) == 0
  {
  }

  /** A record changes at most one row of a table. */
  lemma ColumnStep(d: Day, r: Rec, fam: Family)
    ensures var col := Column(d, fam);
            Column(WithRec(d, r), fam) ==
            match KeyOf(fam, r) case None => col case Some(k) => col[k := At(col, k) + Share(fam, r)]
  {
    hide WithRec, Column, Value, Adds, CellOf, KeyOf;
    var col, next := Column(d, fam), Column(WithRec(d, r), fam);
    ColumnKeys(d, r, fam);
    forall k | k in next ensures next[k] == At(col, k) + (if KeyOf(fam, r) == Some(k) then Share(fam, r) else 0) {
      CellIsColumn(d, fam, k);
      CellIsColumn(WithRec(d, r), fam, k);
      RecordLaw(d, r, CellOf(fam, k));
      if KeyOf(fam, r) != Some(k) { OwnRowOnly(r, fam, k); }
    }
  }

  lemma ColumnSumStep(d: Day, r: Rec, fam: Family)
    ensures Sum(Column(WithRec(d, r), fam)) == Sum(Column(d, fam)) + Share(fam, r)
  {
    hide WithRec, Column, Share, Sum;
    ColumnStep(d, r, fam);
    if KeyOf(fam, r).Some? {
      var k := KeyOf(fam, r).value;
      SumUpdate(Column(d, fam), k, At(Column(d, fam), k) + Share(fam, r));
    } else {
      NoShare(fam, r);
    }
  }

  lemma NoShare(fam: Family, r: Rec)
    requires KeyOf(fam, r).None?
    ensures Share(fam, r) == 0
  {
  }

  /** The tables that split a number of the day; child runs are not split further. */
  function Parts(f: DayField): seq<Family> {
    match f
    case ModelCalls => [ByModel(MCalls)]
    case OutputTokens => [ByModel(MOutputTokens)]
    case TtftCalls => [ByModel(MTtftCalls)]
    case TtftMs => [ByModel(MTtftMs)]
    case ThinkingCalls => [ByModel(MThinkingCalls)]
    case ThinkingMs => [ByModel(MThinkingMs)]
    case DecodeMs => [ByModel(MDecodeMs)]
    case ToolCalls => [ByTool(TCalls)]
    case Errors => [ByModel(MErrors), ByTool(TErrors)]
    case Runs => [BySession(SRuns)]
    case ActiveMs => [BySession(SActiveMs)]
    case ModelMs => [BySession(SModelMs)]
    case ToolMs => [BySession(SToolMs)]
    case ChildRuns => []
    case ChildActiveMs => []
  }

  /** A number of the day is the sum of the columns that split it. */
  ghost predicate Balanced(d: Day, f: DayField) {
    var p := Parts(f);
    |p| > 0 ==> DayValue(d, f) == Sum(Column(d, p[0])) + (if |p| > 1 then Sum(Column(d, p[1])) else 0)
  }

  lemma SharesAddUp(r: Rec, f: DayField)
    ensures var p := Parts(f);
            |p| > 0 ==> DayAdds(r, f) == Share(p[0], r) + (if |p| > 1 then Share(p[1], r) else 0)
  {
    hide ModelKey, ToolName;
  }

  lemma RecordKeepsBalance(d: Day, r: Rec, f: DayField)
    requires Balanced(d, f)
    ensures Balanced(WithRec(d, r), f)
  {
    hide Sum, Column, Share, DayAdds, WithRec, DayValue;
    DayValueIsCell(d, f);
    DayValueIsCell(WithRec(d, r), f);
    RecordLaw(d, r, OfDay(f));
    SharesAddUp(r, f);
    var p := Parts(f);
    if |p| > 0 { ColumnSumStep(d, r, p[0]); }
    if |p| > 1 { ColumnSumStep(d, r, p[1]); }
  }

  lemma DayValueIsCell(d: Day, f: DayField)
    ensures Value(d, OfDay(f)) == DayValue(d, f)
  {
  }

  lemma EmptyIsBalanced(f: DayField)
    ensures Balanced(EMPTY_DAY, f)
  {
    hide Sum, Column;
    var p := Parts(f);
    if |p| > 0 { EmptyColumn(p[0]); }
    if |p| > 1 { EmptyColumn(p[1]); }
  }

  lemma EmptyColumn(fam: Family)
    ensures Sum(Column(EMPTY_DAY, fam)) == 0
  {
    hide Sum;
    assert Column(EMPTY_DAY, fam) == map[];
    SumEmpty(Column(EMPTY_DAY, fam));
  }

  lemma {:induction false} DaysBalance(rs: seq<Rec>, date: string, f: DayField, dateOf: Calendar)
    ensures Balanced(DayAt(IngestAll(map[], rs, dateOf), date), f)
  {
    hide Balanced, WithRec;
    EmptyIsBalanced(f);
    if rs == [] {
    } else {
      DaysBalance(rs[..|rs| - 1], date, f, dateOf);
      RecordKeepsBalance(DayAt(IngestAll(map[], rs[..|rs| - 1], dateOf), date), rs[|rs| - 1], f);
    }
  }

  // ---- merging days into a report ----

  function MergedModel(a: ModelBucket, b: ModelBucket): ModelBucket {
    ModelBucket(a.calls + b.calls, a.errors + b.errors, a.totalMs + b.totalMs, a.outputTokens + b.outputTokens,
                a.thinkingMs + b.thinkingMs, a.thinkingCalls + b.thinkingCalls, a.ttftCalls + b.ttftCalls,
                a.ttftMs + b.ttftMs, a.decodeMs + b.decodeMs, a.ttftSamples + b.ttftSamples)
  }

  function MergedTool(a: ToolBucket, b: ToolBucket): ToolBucket {
    ToolBucket(a.calls + b.calls, a.errors + b.errors, a.totalMs + b.totalMs, a.durations + b.durations)
  }

  function MergedSession(a: SessionBucket, b: SessionBucket): SessionBucket {
    SessionBucket(if b.caption != "" then b.caption else a.caption, a.runs + b.runs, a.activeMs + b.activeMs,
                  a.modelMs + b.modelMs, a.toolMs + b.toolMs)
  }

  function Models(a: map<string, ModelBucket>, b: map<string, ModelBucket>): map<string, ModelBucket> {
    map k | k in a.Keys + b.Keys ::
      if k !in b then a[k] else if k !in a then b[k] else MergedModel(a[k], b[k])
  }

  function Tools(a: map<string, ToolBucket>, b: map<string, ToolBucket>): map<string, ToolBucket> {
    map k | k in a.Keys + b.Keys ::
      if k !in b then a[k] else if k !in a then b[k] else MergedTool(a[k], b[k])
  }

  function Sessions(a: map<string, SessionBucket>, b: map<string, SessionBucket>): map<string, SessionBucket> {
    map k | k in a.Keys + b.Keys ::
      if k !in b then a[k] else if k !in a then b[k] else MergedSession(a[k], b[k])
  }

  function Merged(a: Day, b: Day): Day {
    Day(a.activeMs + b.activeMs, a.childActiveMs + b.childActiveMs, a.modelMs + b.modelMs, a.toolMs + b.toolMs,
        a.modelCalls + b.modelCalls, a.toolCalls + b.toolCalls, a.outputTokens + b.outputTokens, a.errors + b.errors,
        a.runs + b.runs, a.childRuns + b.childRuns, a.ttftCalls + b.ttftCalls, a.ttftMs + b.ttftMs,
        a.thinkingCalls + b.thinkingCalls, a.thinkingMs + b.thinkingMs, a.decodeMs + b.decodeMs,
        Models(a.models, b.models), Tools(a.tools, b.tools), Sessions(a.sessions, b.sessions))
  }

  /** A day's totals as a report lists them. */
  datatype DailyPoint = DailyPoint(date: string, totals: Day, overheadMs: nat)

  function Overhead(d: Day): nat {
    Max(0, d.activeMs - d.modelMs - d.toolMs)
  }

  function PointOf(date: string, d: Day): DailyPoint {
    DailyPoint(date, d.(models := map[], tools := map[], sessions := map[]), Overhead(d))
  }

  function ReportOf(days: map<string, Day>, dates: seq<string>): Day {
    if dates == [] then EMPTY_DAY
    else Merged(ReportOf(days, dates[..|dates| - 1]), DayAt(days, dates[|dates| - 1]))
  }

  lemma MergeLaw(a: Day, b: Day, c: Cell)
    ensures Value(Merged(a, b), c) == Value(a, c) + Value(b, c)
  {
  }

  lemma MergeColumn(a: Day, b: Day, fam: Family)
    ensures Column(Merged(a, b), fam) == Added(Column(a, fam), Column(b, fam))
  {
    hide Merged, Column, Value, CellOf;
    var x, y, z := Column(a, fam), Column(b, fam), Column(Merged(a, b), fam);
    MergeKeys(a, b, fam);
    forall k | k in z ensures z[k] == At(x, k) + At(y, k) {
      CellIsColumn(a, fam, k);
      CellIsColumn(b, fam, k);
      CellIsColumn(Merged(a, b), fam, k);
      MergeLaw(a, b, CellOf(fam, k));
    }
  }

  lemma MergeKeys(a: Day, b: Day, fam: Family)
    ensures Column(Merged(a, b), fam).Keys == Column(a, fam).Keys + Column(b, fam).Keys
  {
    hide ModelValue, ToolValue, SessionValue, MergedModel, MergedTool, MergedSession;
  }

  lemma MergeKeepsBalance(a: Day, b: Day, f: DayField)
    requires Balanced(a, f) && Balanced(b, f)
    ensures Balanced(Merged(a, b), f)
  {
    hide Sum, Column, Merged, DayValue;
    DayValueIsCell(a, f);
    DayValueIsCell(b, f);
    DayValueIsCell(Merged(a, b), f);
    MergeLaw(a, b, OfDay(f));
    var p := Parts(f);
    if |p| > 0 {
      MergeColumn(a, b, p[0]);
      SumAdded(Column(a, p[0]), Column(b, p[0]));
    }
    if |p| > 1 {
      MergeColumn(a, b, p[1]);
      SumAdded(Column(a, p[1]), Column(b, p[1]));
    }
  }

  /** In every report each total is the sum of the rows of the tables that split it. */
  lemma {:induction false} ReportBalances(rs: seq<Rec>, dates: seq<string>, f: DayField, dateOf: Calendar)
    ensures Balanced(ReportOf(IngestAll(map[], rs, dateOf), dates), f)
    decreases |dates|
  {
    hide Balanced, Merged, IngestAll;
    var days := IngestAll(map[], rs, dateOf);
    if dates == [] {
      EmptyIsBalanced(f);
    } else {
      ReportBalances(rs, dates[..|dates| - 1], f, dateOf);
      DaysBalance(rs, dates[|dates| - 1], f, dateOf);
      MergeKeepsBalance(ReportOf(days, dates[..|dates| - 1]), DayAt(days, dates[|dates| - 1]), f);
    }
  }

  /** The sum of what the records of a window add to a number. */
  function WindowTotal(rs: seq<Rec>, dates: seq<string>, c: Cell, dateOf: Calendar): nat {
    if rs == [] then 0
    else
      var r := rs[|rs| - 1];
      WindowTotal(rs[..|rs| - 1], dates, c, dateOf) + if dateOf(r.at) in dates then Adds(r, c) else 0
  }

  predicate Distinct(dates: seq<string>) {
    forall i, j :: 0 <= i < j < |dates| ==> dates[i] != dates[j]
  }

  lemma {:induction false} WindowGrows(rs: seq<Rec>, dates: seq<string>, c: Cell, dateOf: Calendar)
    requires dates != [] && Distinct(dates)
    ensures var n := |dates| - 1;
            WindowTotal(rs, dates, c, dateOf) == WindowTotal(rs, dates[..n], c, dateOf) + Total(rs, dates[n], c, dateOf)
  {
    hide Adds;
    if rs == [] {
    } else {
      var n := |dates| - 1;
      var date := dateOf(rs[|rs| - 1].at);
      WindowGrows(rs[..|rs| - 1], dates, c, dateOf);
      assert dates == dates[..n] + [dates[n]];
      assert date == dates[n] ==> date !in dates[..n];
    }
  }

  lemma {:induction false} EmptyWindow(rs: seq<Rec>, c: Cell, dateOf: Calendar)
    ensures WindowTotal(rs, [], c, dateOf) == 0
  {
    if rs == [] {
    } else {
      EmptyWindow(rs[..|rs| - 1], c, dateOf);
    }
  }

  /** Every number of a report is the sum over the records of its window, each counted once. */
  lemma {:induction false} ReportIsSum(rs: seq<Rec>, dates: seq<string>, c: Cell, dateOf: Calendar)
    requires Distinct(dates)
    ensures Value(ReportOf(IngestAll(map[], rs, dateOf), dates), c) == WindowTotal(rs, dates, c, dateOf)
    decreases |dates|
  {
    hide Value, Merged, IngestAll, WindowTotal, Total;
    var days := IngestAll(map[], rs, dateOf);
    if dates == [] {
      EmptyIsZero(c);
      EmptyWindow(rs, c, dateOf);
    } else {
      var n := |dates| - 1;
      ReportIsSum(rs, dates[..n], c, dateOf);
      MergeLaw(ReportOf(days, dates[..n]), DayAt(days, dates[n]), c);
      DaysAreSums(rs, dates[n], c, dateOf);
      WindowGrows(rs, dates, c, dateOf);
    }
  }

  // ---- the record count ----

  function InWindow(rs: seq<Rec>, dates: seq<string>, dateOf: Calendar): nat {
    if rs == [] then 0
    else InWindow(rs[..|rs| - 1], dates, dateOf) + Bit(dateOf(rs[|rs| - 1].at) in dates)
  }

  lemma OneOfFour(r: Rec)
    ensures DayAdds(r, ModelCalls) + DayAdds(r, ToolCalls) + DayAdds(r, Runs) + DayAdds(r, ChildRuns) == 1
  {
  }

  lemma {:induction false} CountsAreRecords(rs: seq<Rec>, dates: seq<string>, dateOf: Calendar)
    ensures WindowTotal(rs, dates, OfDay(ModelCalls), dateOf) + WindowTotal(rs, dates, OfDay(ToolCalls), dateOf) +
            WindowTotal(rs, dates, OfDay(Runs), dateOf) + WindowTotal(rs, dates, OfDay(ChildRuns), dateOf) ==
            InWindow(rs, dates, dateOf)
  {
    hide DayAdds;
    if rs == [] {
    } else {
      CountsAreRecords(rs[..|rs| - 1], dates, dateOf);
      OneOfFour(rs[|rs| - 1]);
    }
  }

  /** The record count a report shows is the number of records of its window. */
  lemma RecordCountIsExact(rs: seq<Rec>, dates: seq<string>, dateOf: Calendar)
    requires Distinct(dates)
    ensures var d := ReportOf(IngestAll(map[], rs, dateOf), dates);
            d.modelCalls + d.toolCalls + d.runs + d.childRuns == InWindow(rs, dates, dateOf)
  {
    hide IngestAll, ReportOf, WindowTotal, DayAdds;
    ReportIsSum(rs, dates, OfDay(ModelCalls), dateOf);
    ReportIsSum(rs, dates, OfDay(ToolCalls), dateOf);
    ReportIsSum(rs, dates, OfDay(Runs), dateOf);
    ReportIsSum(rs, dates, OfDay(ChildRuns), dateOf);
    CountsAreRecords(rs, dates, dateOf);
  }

  // ---- samples ----

  function SumSeq(s: seq<nat>): nat {
    if s == [] then 0 else SumSeq(s[..|s| - 1]) + s[|s| - 1]
  }

  lemma {:induction false} SumSeqConcat(a: seq<nat>, b: seq<nat>)
    ensures SumSeq(a + b) == SumSeq(a) + SumSeq(b)
    decreases |b|
  {
    if b == [] {
      assert a + b == a;
    } else {
      assert (a + b)[..|a + b| - 1] == a + b[..|b| - 1];
      SumSeqConcat(a, b[..|b| - 1]);
    }
  }

  predicate ModelSampled(b: ModelBucket) {
    |b.ttftSamples| == b.ttftCalls && SumSeq(b.ttftSamples) == b.ttftMs
  }

  predicate ToolSampled(b: ToolBucket) {
    |b.durations| == b.calls && SumSeq(b.durations) == b.totalMs
  }

  /** The samples behind each percentile are exactly the calls behind each average. */
  predicate Sampled(d: Day) {
    (forall k :: k in d.models ==> ModelSampled(d.models[k])) && (forall k :: k in d.tools ==> ToolSampled(d.tools[k]))
  }

  lemma SumSeqPush(s: seq<nat>, x: nat)
    ensures SumSeq(s + [x]) == SumSeq(s) + x
  {
    assert (s + [x])[..|s|] == s;
  }

  lemma CallKeepsSamples(d: Day, r: Rec)
    requires Sampled(d)
    ensures Sampled(WithModel(d, r))
  {
    hide SumSeq, ModelKey;
    var b := if ModelKey(r) in d.models then d.models[ModelKey(r)] else NO_CALLS;
    NothingSampled();
    if Timed(r) { SumSeqPush(b.ttftSamples, r.ttftMs.value); }
    assert ModelSampled(ModelCounted(b, r));
  }

  lemma UseKeepsSamples(d: Day, r: Rec)
    requires Sampled(d)
    ensures Sampled(WithTool(d, r))
  {
    hide SumSeq, ToolName, ModelSampled;
    var u := if ToolName(r) in d.tools then d.tools[ToolName(r)] else NO_USES;
    NothingSampled();
    SumSeqPush(u.durations, Get(r.durationMs, 0));
  }

  lemma RecordKeepsSamples(d: Day, r: Rec)
    requires Sampled(d)
    ensures Sampled(WithRec(d, r))
  {
    hide WithModel, WithTool, ModelSampled, ToolSampled;
    if r.kind == Model { CallKeepsSamples(d, r); }
    if r.kind == Tool { UseKeepsSamples(d, r); }
  }

  lemma NothingSampled()
    ensures SumSeq([]) == 0
  {
  }

  lemma MergeKeepsSamples(a: Day, b: Day)
    requires Sampled(a) && Sampled(b)
    ensures Sampled(Merged(a, b))
  {
    hide SumSeq;
    forall k | k in a.models && k in b.models ensures ModelSampled(MergedModel(a.models[k], b.models[k])) {
      SumSeqConcat(a.models[k].ttftSamples, b.models[k].ttftSamples);
    }
    forall k | k in a.tools && k in b.tools ensures ToolSampled(MergedTool(a.tools[k], b.tools[k])) {
      SumSeqConcat(a.tools[k].durations, b.tools[k].durations);
    }
  }

  lemma {:induction false} DaysAreSampled(rs: seq<Rec>, date: string, dateOf: Calendar)
    ensures Sampled(DayAt(IngestAll(map[], rs, dateOf), date))
  {
    hide WithRec;
    if rs == [] {
    } else {
      hide Sampled;
      DaysAreSampled(rs[..|rs| - 1], date, dateOf);
      RecordKeepsSamples(DayAt(IngestAll(map[], rs[..|rs| - 1], dateOf), date), rs[|rs| - 1]);
    }
  }

  lemma {:induction false} ReportIsSampled(rs: seq<Rec>, dates: seq<string>, dateOf: Calendar)
    ensures Sampled(ReportOf(IngestAll(map[], rs, dateOf), dates))
    decreases |dates|
  {
    hide Merged, IngestAll;
    if dates == [] {
    } else {
      hide Sampled;
      var n := |dates| - 1;
      ReportIsSampled(rs, dates[..n], dateOf);
      DaysAreSampled(rs, dates[n], dateOf);
      MergeKeepsSamples(ReportOf(IngestAll(map[], rs, dateOf), dates[..n]),
                        DayAt(IngestAll(map[], rs, dateOf), dates[n]));
    }
  }

  // ---- percentiles ----

  predicate Sorted(s: seq<nat>) {
    forall i, j :: 0 <= i < j < |s| ==> s[i] <= s[j]
  }

  /** The nearest-rank percentile of a sorted list; the ratio is a fraction. */
  function Percentile(s: seq<nat>, num: nat, den: nat): nat
    requires den > 0 && num <= den
  {
    if s == [] then 0
    else
      var rank := (|s| * num + den - 1) / den - 1;
      RankInRange(|s|, num, den);
      s[Min(|s| - 1, Max(0, rank))]
  }

  lemma CeilDiv(x: nat, den: nat)
    requires den > 0
    ensures var c := (x + den - 1) / den; c >= 0 && c * den - den < x <= c * den
  {
    var c := (x + den - 1) / den;
    assert x + den - 1 == c * den + (x + den - 1) % den;
  }

  lemma MulKeepsOrder(a: int, b: int, c: nat)
    requires a <= b
    ensures a * c <= b * c
  {
  }

  lemma MulReflectsOrder(a: int, b: int, c: nat)
    requires a * c < b * c
    ensures a < b
  {
    if b <= a { MulKeepsOrder(b, a, c); }
  }

  lemma RankInRange(n: nat, num: nat, den: nat)
    requires den > 0 && num <= den
    ensures var c := (n * num + den - 1) / den; 0 <= c <= n && c * den - den < n * num <= c * den
  {
    var x := n * num;
    var c := (x + den - 1) / den;
    CeilDiv(x, den);
    MulKeepsOrder(num, den, n);
    assert x <= n * den;
    assert (c - 1) * den == c * den - den;
    MulReflectsOrder(c - 1, n, den);
  }

  function CountAtMost(s: seq<nat>, x: nat): nat {
    if s == [] then 0 else CountAtMost(s[..|s| - 1], x) + Bit(s[|s| - 1] <= x)
  }

  function CountBelow(s: seq<nat>, x: nat): nat {
    if s == [] then 0 else CountBelow(s[..|s| - 1], x) + Bit(s[|s| - 1] < x)
  }

  lemma {:induction false} CountsOfSorted(s: seq<nat>, i: nat)
    requires Sorted(s) && i < |s|
    ensures CountAtMost(s, s[i]) >= i + 1 && CountBelow(s, s[i]) <= i
  {
    var n := |s| - 1;
    var init := s[..n];
    if i < n {
      assert init[i] == s[i];
      CountsOfSorted(init, i);
      assert s[i] <= s[n];
    } else {
      if n > 0 {
        CountsOfSorted(init, n - 1);
        CountMonotone(init, init[n - 1], s[n]);
        assert init[n - 1] <= s[n];
      }
      CountBound(init, s[n]);
    }
  }

  lemma {:induction false} CountMonotone(s: seq<nat>, x: nat, y: nat)
    requires x <= y
    ensures CountAtMost(s, x) <= CountAtMost(s, y)
  {
    if s == [] {
    } else {
      CountMonotone(s[..|s| - 1], x, y);
    }
  }

  lemma {:induction false} CountBound(s: seq<nat>, x: nat)
    ensures CountBelow(s, x) <= |s|
  {
    if s == [] {
    } else {
      CountBound(s[..|s| - 1], x);
    }
  }

  /** At least the given share of the samples is at or below the percentile, and less than that share is below it. */
  lemma PercentileSplits(s: seq<nat>, num: nat, den: nat)
    requires s != [] && Sorted(s) && 0 < num <= den
    ensures var p := Percentile(s, num, den);
            p in s && CountAtMost(s, p) * den >= |s| * num && CountBelow(s, p) * den < |s| * num
  {
    hide CountAtMost, CountBelow, Sorted;
    var n := |s|;
    var c := (n * num + den - 1) / den;
    RankInRange(n, num, den);
    PositiveRank(n, num, den, c);
    CountsOfSorted(s, c - 1);
    var p := s[c - 1];
    assert Percentile(s, num, den) == p;
    MulKeepsOrder(c, CountAtMost(s, p), den);
    MulKeepsOrder(CountBelow(s, p), c - 1, den);
    assert (c - 1) * den == c * den - den;
  }

  lemma PositiveRank(n: nat, num: nat, den: nat, c: int)
    requires n > 0 && num > 0 && n * num <= c * den
    ensures c > 0
  {
    assert n * num > 0;
    if c <= 0 { MulKeepsOrder(c, 0, den); }
  }

  // ---- reading the tails of files ----

  function Kept(lines: seq<Text>, cutoff: int, parse: Parser): seq<Rec> {
    if lines == [] then []
    else
      var n := |lines| - 1;
      var r := parse(lines[n]);
      Kept(lines[..n], cutoff, parse) + if r.Some? && r.value.at >= cutoff then [r.value] else []
  }

  datatype Ledger = Ledger(days: map<string, Day>, offsets: map<string, nat>)

  function OffsetOf(l: Ledger, file: string): nat {
    if file in l.offsets then l.offsets[file] else 0
  }

  /** Where a read of a file resumes: at its head again when the file shrank. */
  function Resume(l: Ledger, file: string, content: Bytes): (p: nat)
    ensures p <= |content|
  {
    if OffsetOf(l, file) <= |content| then OffsetOf(l, file) else 0
  }

  /** The complete lines of a text, newlines included. */
  function CompletePart(text: Text): Text {
    SplitLengths(text);
    text[..|text| - |Split(text).rest|]
  }

  /** The new offset: the old one and the size of the complete lines when they are encoded again. */
  function Consumed(content: Bytes, p: nat): nat
    requires p <= |content|
  {
    p + EncodedSize(CompletePart(Decode(content[p..])))
  }

  function ReadFile(l: Ledger, file: string, content: Bytes, cutoff: int, parse: Parser, dateOf: Calendar): Ledger {
    var p := Resume(l, file, content);
    var consumed := Consumed(content, p);
    Ledger(IngestAll(l.days, Kept(Split(Decode(content[p..])).lines, cutoff, parse), dateOf),
           if consumed > 0 && p < |content| then l.offsets[file := consumed] else l.offsets)
  }

  /** A directory entry of a refresh: a file that cannot be read is passed over. */
  datatype Listed = Listed(file: string, content: Option<Bytes>)

  function Refreshed(l: Ledger, listing: seq<Listed>, cutoff: int, parse: Parser, dateOf: Calendar): Ledger {
    if listing == [] then l
    else
      var n := |listing| - 1;
      var before := Refreshed(l, listing[..n], cutoff, parse, dateOf);
      match listing[n].content
      case None => before
      case Some(content) => ReadFile(before, listing[n].file, content, cutoff, parse, dateOf)
  }

  lemma {:induction false} IngestConcat(days: map<string, Day>, a: seq<Rec>, b: seq<Rec>, dateOf: Calendar)
    ensures IngestAll(days, a + b, dateOf) == IngestAll(IngestAll(days, a, dateOf), b, dateOf)
    decreases |b|
  {
    hide Ingested;
    if b == [] {
      assert a + b == a;
    } else {
      assert (a + b)[..|a + b| - 1] == a + b[..|b| - 1];
      IngestConcat(days, a, b[..|b| - 1], dateOf);
    }
  }

  lemma KeptPush(lines: seq<Text>, line: Text, cutoff: int, parse: Parser)
    ensures Kept(lines + [line], cutoff, parse) ==
            Kept(lines, cutoff, parse) +
            if parse(line).Some? && parse(line).value.at >= cutoff then [parse(line).value] else []
  {
    assert (lines + [line])[..|lines|] == lines;
  }

  lemma IngestPush(days: map<string, Day>, rs: seq<Rec>, r: Rec, dateOf: Calendar)
    ensures IngestAll(days, rs + [r], dateOf) == Ingested(IngestAll(days, rs, dateOf), r, dateOf)
  {
    hide Ingested;
    assert (rs + [r])[..|rs|] == rs;
  }

  lemma ModelsStep(a: map<string, ModelBucket>, b: map<string, ModelBucket>, todo: set<string>, k: string)
    requires todo <= b.Keys && k in todo
    ensures (k in Models(a, b - todo) <==> k in a) && (k in a ==> Models(a, b - todo)[k] == a[k])
    ensures Models(a, b - (todo - {k})) == Models(a, b - todo)[k := if k in a then MergedModel(a[k], b[k]) else b[k]]
  {
    hide MergedModel;
  }

  lemma ModelsStart(a: map<string, ModelBucket>, b: map<string, ModelBucket>)
    ensures Models(a, b - b.Keys) == a && b - {} == b
  {
  }

  lemma ToolsStep(a: map<string, ToolBucket>, b: map<string, ToolBucket>, todo: set<string>, k: string)
    requires todo <= b.Keys && k in todo
    ensures (k in Tools(a, b - todo) <==> k in a) && (k in a ==> Tools(a, b - todo)[k] == a[k])
    ensures Tools(a, b - (todo - {k})) == Tools(a, b - todo)[k := if k in a then MergedTool(a[k], b[k]) else b[k]]
  {
    hide MergedTool;
  }

  lemma ToolsStart(a: map<string, ToolBucket>, b: map<string, ToolBucket>)
    ensures Tools(a, b - b.Keys) == a && b - {} == b
  {
  }

  lemma SessionsStep(a: map<string, SessionBucket>, b: map<string, SessionBucket>, todo: set<string>, k: string)
    requires todo <= b.Keys && k in todo
    ensures (k in Sessions(a, b - todo) <==> k in a) && (k in a ==> Sessions(a, b - todo)[k] == a[k])
    ensures Sessions(a, b - (todo - {k})) ==
      Sessions(a, b - todo)[k := if k in a then MergedSession(a[k], b[k]) else b[k]]
  {
    hide MergedSession;
  }

  lemma SessionsStart(a: map<string, SessionBucket>, b: map<string, SessionBucket>)
    ensures Sessions(a, b - b.Keys) == a && b - {} == b
  {
  }

  lemma NoRecords(days: map<string, Day>, cutoff: int, parse: Parser, dateOf: Calendar)
    ensures IngestAll(days, Kept([], cutoff, parse), dateOf) == days
  {
  }

  lemma CompleteUpTo(text: Text, last: nat)
    requires last < |text| && text[last] == NEWLINE && OneLine(text[last + 1..])
    ensures CompletePart(text) == text[..last + 1] && Split(text[..last + 1]).lines == Split(text).lines
  {
    hide Split;
    SplitLengths(text);
    SplitAt(text, last + 1);
    SplitOneLine(text[last + 1..]);
  }

  class TimingLedger {
    const parse: Parser
    const dateOf: Calendar
    var days: map<string, Day>
    var fileOffsets: map<string, nat>

    function State(): Ledger
      reads this
    {
      Ledger(days, fileOffsets)
    }

    constructor (parse: Parser, dateOf: Calendar)
      ensures State() == Ledger(map[], map[]) && this.parse == parse && this.dateOf == dateOf
    {
      this.parse, this.dateOf, days, fileOffsets := parse, dateOf, map[], map[];
    }

    method Ingest(r: Rec)
      modifies this`days
      ensures days == Ingested(old(days), r, dateOf)
    {
      hide ModelKey, ToolName;
      var date := dateOf(r.at);
      var day := if date in days then days[date] else EMPTY_DAY;
      match r.kind {
        case Model => day := CountCall(day, r);
        case Tool => day := CountUse(day, r);
        case Run =>
          var ms := Get(r.durationMs, 0);
          if r.scope == Child {
            day := day.(childRuns := day.childRuns + 1, childActiveMs := day.childActiveMs + ms);
          } else {
            day := day.(runs := day.runs + 1, activeMs := day.activeMs + ms);
          }
      }
      if r.scope == Root { day := WithSession(day, r); }
      days := days[date := day];
    }

    /** A model call. */
    method CountCall(d: Day, r: Rec) returns (day: Day)
      requires r.kind == Model
      ensures day == WithModel(d, r)
    {
      hide ModelCounted, ModelKey;
      day := CountOnDay(d, r);
      day := TimeOnDay(day, r);
      var key := ModelKey(r);
      var b := CountInBucket(if key in day.models then day.models[key] else NO_CALLS, r);
      day := day.(models := day.models[key := b]);
    }

    method CountOnDay(d: Day, r: Rec) returns (day: Day)
      ensures day == CallCounted(d, r)
    {
      day := d.(modelCalls := d.modelCalls + 1, outputTokens := d.outputTokens + Get(r.outputTokens, 0));
      if r.scope == Root { day := day.(modelMs := day.modelMs + Get(r.totalMs, 0)); }
      if r.isError { day := day.(errors := day.errors + 1); }
    }

    method TimeOnDay(d: Day, r: Rec) returns (day: Day)
      ensures day == CallTimed(d, r)
    {
      day := d;
      if r.ttftMs.Some? && r.totalMs.Some? {
        day := day.(ttftCalls := day.ttftCalls + 1, ttftMs := day.ttftMs + r.ttftMs.value,
                    decodeMs := day.decodeMs + Max(0, r.totalMs.value - r.ttftMs.value));
      }
      if r.thinkingMs.Some? {
        day := day.(thinkingCalls := day.thinkingCalls + 1, thinkingMs := day.thinkingMs + r.thinkingMs.value);
      }
    }

    method CountInBucket(bucket: ModelBucket, r: Rec) returns (b: ModelBucket)
      ensures b == ModelCounted(bucket, r)
    {
      b := bucket.(calls := bucket.calls + 1, totalMs := bucket.totalMs + Get(r.totalMs, 0),
                   outputTokens := bucket.outputTokens + Get(r.outputTokens, 0));
      if r.isError { b := b.(errors := b.errors + 1); }
      if r.ttftMs.Some? && r.totalMs.Some? {
        b := b.(ttftCalls := b.ttftCalls + 1, ttftMs := b.ttftMs + r.ttftMs.value,
                decodeMs := b.decodeMs + Max(0, r.totalMs.value - r.ttftMs.value),
                ttftSamples := b.ttftSamples + [r.ttftMs.value]);
      }
      if r.thinkingMs.Some? {
        b := b.(thinkingCalls := b.thinkingCalls + 1, thinkingMs := b.thinkingMs + r.thinkingMs.value);
      }
    }

    /** A tool call. */
    method CountUse(d: Day, r: Rec) returns (day: Day)
      requires r.kind == Tool
      ensures day == WithTool(d, r)
    {
      var ms, name := Get(r.durationMs, 0), ToolName(r);
      day := d.(toolCalls := d.toolCalls + 1);
      if r.scope == Root { day := day.(toolMs := day.toolMs + ms); }
      if r.isError { day := day.(errors := day.errors + 1); }
      var b := if name in day.tools then day.tools[name] else NO_USES;
      b := b.(calls := b.calls + 1, totalMs := b.totalMs + ms, durations := b.durations + [ms]);
      if r.isError { b := b.(errors := b.errors + 1); }
      day := day.(tools := day.tools[name := b]);
    }

    /** Read the complete lines appended since `offset`; the answer is the new complete-line offset. */
    method ReadTail(content: Bytes, offset: nat, cutoff: int) returns (consumed: nat)
      requires offset <= |content|
      modifies this`days
      ensures consumed == Consumed(content, offset)
      ensures days == IngestAll(old(days), Kept(Split(Decode(content[offset..])).lines, cutoff, parse), dateOf)
    {
      hide Split, IngestAll, Kept, Decode, EncodedSize;
      var text := Decode(content[offset..]);
      var last := LastIndexOfNewline(text);
      if last < 0 {
        SplitOneLine(text);
        NoRecords(days, cutoff, parse, dateOf);
        EncodedNothing();
        assert CompletePart(text) == [];
        return offset;
      }
      CompleteUpTo(text, last);
      IngestLines(text[..last + 1], cutoff);
      var complete := text[..last];
      assert text[..last + 1] == complete + [NEWLINE];
      EncodedPush(complete, NEWLINE);
      return offset + EncodedSize(complete) + 1;
    }

    /** Ingest what the lines of a text that ends with a newline say. */
    method IngestLines(text: Text, cutoff: int)
      requires LineStart(text, |text|)
      modifies this`days
      ensures days == IngestAll(old(days), Kept(Split(text).lines, cutoff, parse), dateOf)
    {
      hide Split, Ingested, IngestAll, Kept;
      var rest := text;
      ghost var done: seq<Text> := [];
      NoRecords(days, cutoff, parse, dateOf);
      while rest != []
        invariant LineStart(rest, |rest|)
        invariant done + Split(rest).lines == Split(text).lines
        invariant days == IngestAll(old(days), Kept(done, cutoff, parse), dateOf)
        decreases |rest|
      {
        var i := IndexOfNewline(rest);
        var line := rest[..i];
        SplitHead(rest, i);
        KeptPush(done, line, cutoff, parse);
        var r := parse(line);
        if r.Some? && r.value.at >= cutoff {
          IngestPush(old(days), Kept(done, cutoff, parse), r.value, dateOf);
          Ingest(r.value);
        } else {
          assert Kept(done + [line], cutoff, parse) == Kept(done, cutoff, parse);
        }
        done, rest := done + [line], rest[i + 1..];
      }
      EmptySplit();
      assert done + [] == done;
    }

    method RefreshNow(listing: seq<Listed>, cutoff: int)
      modifies this
      ensures State() == Refreshed(old(State()), listing, cutoff, parse, dateOf)
    {
      hide Split, IngestAll, Kept, Decode, EncodedSize;
      for i := 0 to |listing|
        invariant State() == Refreshed(old(State()), listing[..i], cutoff, parse, dateOf)
      {
        assert listing[..i + 1][..i] == listing[..i];
        if listing[i].content.Some? {
          var file, content := listing[i].file, listing[i].content.value;
          var offset := if file in fileOffsets then fileOffsets[file] else 0;
          if |content| < offset { offset := 0; }
          if |content| != offset {
            var consumed := ReadTail(content, offset, cutoff);
            if consumed > 0 { fileOffsets := fileOffsets[file := consumed]; }
          } else {
            NothingNew(days, content, cutoff, parse, dateOf);
          }
        }
      }
      assert listing[..|listing|] == listing;
    }

    /** Merge the buckets of the dates of a window, and list them. */
    method GetReport(dates: seq<string>) returns (total: Day, daily: seq<DailyPoint>, recordCount: nat, overheadMs: nat)
      ensures total == ReportOf(days, dates)
      ensures |daily| == |dates| && forall i :: 0 <= i < |dates| ==>
        daily[i] == PointOf(dates[i], DayAt(days, dates[i]))
      ensures recordCount == total.modelCalls + total.toolCalls + total.runs + total.childRuns
      ensures overheadMs == Overhead(total)
    {
      hide DayAt;
      total, daily, recordCount := EMPTY_DAY, [], 0;
      for i := 0 to |dates|
        invariant total == ReportOf(days, dates[..i])
        invariant |daily| == i && forall k :: 0 <= k < i ==> daily[k] == PointOf(dates[k], DayAt(days, dates[k]))
        invariant recordCount == total.modelCalls + total.toolCalls + total.runs + total.childRuns
      {
        assert dates[..i + 1][..i] == dates[..i];
        var day := DayAt(days, dates[i]);
        recordCount := recordCount + day.modelCalls + day.toolCalls + day.runs + day.childRuns;
        daily := daily + [PointOf(dates[i], day)];
        total := Merge(total, day);
      }
      assert dates[..|dates|] == dates;
      overheadMs := Max(0, total.activeMs - total.modelMs - total.toolMs);
    }

    method Merge(a: Day, b: Day) returns (total: Day)
      ensures total == Merged(a, b)
    {
      hide Models, Tools, Sessions;
      var models := MergeModels(a.models, b.models);
      var tools := MergeTools(a.tools, b.tools);
      var sessions := MergeSessions(a.sessions, b.sessions);
      total := Day(a.activeMs + b.activeMs, a.childActiveMs + b.childActiveMs, a.modelMs + b.modelMs,
                   a.toolMs + b.toolMs,
                   a.modelCalls + b.modelCalls, a.toolCalls + b.toolCalls, a.outputTokens + b.outputTokens,
                   a.errors + b.errors, a.runs + b.runs, a.childRuns + b.childRuns, a.ttftCalls + b.ttftCalls,
                   a.ttftMs + b.ttftMs, a.thinkingCalls + b.thinkingCalls, a.thinkingMs + b.thinkingMs,
                   a.decodeMs + b.decodeMs, models, tools, sessions);
    }

    method MergeModels(target: map<string, ModelBucket>, source: map<string, ModelBucket>)
      returns (r: map<string, ModelBucket>)
      ensures r == Models(target, source)
    {
      hide Models;
      r := target;
      ModelsStart(target, source);
      var todo := source.Keys;
      while todo != {}
        invariant todo <= source.Keys && r == Models(target, source - todo)
        decreases |todo|
      {
        var key :| key in todo;
        ModelsStep(target, source, todo, key);
        r := r[key := if key in r then MergedModel(r[key], source[key]) else source[key]];
        todo := todo - {key};
      }
    }

    method MergeTools(target: map<string, ToolBucket>, source: map<string, ToolBucket>)
      returns (r: map<string, ToolBucket>)
      ensures r == Tools(target, source)
    {
      hide Tools;
      r := target;
      ToolsStart(target, source);
      var todo := source.Keys;
      while todo != {}
        invariant todo <= source.Keys && r == Tools(target, source - todo)
        decreases |todo|
      {
        var key :| key in todo;
        ToolsStep(target, source, todo, key);
        r := r[key := if key in r then MergedTool(r[key], source[key]) else source[key]];
        todo := todo - {key};
      }
    }

    method MergeSessions(target: map<string, SessionBucket>, source: map<string, SessionBucket>)
      returns (r: map<string, SessionBucket>)
      ensures r == Sessions(target, source)
    {
      hide Sessions;
      r := target;
      SessionsStart(target, source);
      var todo := source.Keys;
      while todo != {}
        invariant todo <= source.Keys && r == Sessions(target, source - todo)
        decreases |todo|
      {
        var key :| key in todo;
        SessionsStep(target, source, todo, key);
        r := r[key := if key in r then MergedSession(r[key], source[key]) else source[key]];
        todo := todo - {key};
      }
    }
  }

  lemma NothingNew(days: map<string, Day>, content: Bytes, cutoff: int, parse: Parser, dateOf: Calendar)
    ensures IngestAll(days, Kept(Split(Decode(content[|content|..])).lines, cutoff, parse), dateOf) == days
  {
    assert content[|content|..] == [];
  }
}
