/**
 * What the rows of a timing report hold besides numbers (backend/timing-ledger.ts): the samples
 * behind the percentiles, the captions of sessions, and the overhead of a day.
 */
module TimingRows {
  import opened Wrappers
  import opened TimingLedger

  // ---- samples ----

  /** What a record adds to the samples of a row: a first-token time or the duration of a tool call. */
  datatype Row = ModelRow(key: string) | ToolRow(key: string)

  function SampleOf(r: Rec, row: Row): seq<nat> {
    match row
    case ModelRow(key) =>
      if r.kind == Model && ModelKey(r) == key && r.ttftMs.Some? && r.totalMs.Some? then [r.ttftMs.value] else []
    case ToolRow(key) => if r.kind == Tool && ToolName(r) == key then [Get(r.durationMs, 0)] else []
  }

  function SamplesIn(d: Day, row: Row): seq<nat> {
    match row
    case ModelRow(key) => if key in d.models then d.models[key].ttftSamples else []
    case ToolRow(key) => if key in d.tools then d.tools[key].durations else []
  }

  /** The samples of the records of one date, in the order in which they were read. */
  function Samples(rs: seq<Rec>, date: string, row: Row, dateOf: Calendar): seq<nat> {
    if rs == [] then []
    else
      var r := rs[|rs| - 1];
      Samples(rs[..|rs| - 1], date, row, dateOf) + if dateOf(r.at) == date then SampleOf(r, row) else []
  }

  lemma RecordAddsSample(d: Day, r: Rec, row: Row)
    ensures SamplesIn(WithRec(d, r), row) == SamplesIn(d, row) + SampleOf(r, row)
  {
    hide ModelKey, ToolName, DecodeTime;
    assert SamplesIn(d, row) + [] == SamplesIn(d, row);
  }

  /** Behind the percentiles of a day are exactly the values of its records. */
  lemma {:induction false} DaySamplesAreValues(rs: seq<Rec>, date: string, row: Row, dateOf: Calendar)
    ensures SamplesIn(DayAt(IngestAll(map[], rs, dateOf), date), row) == Samples(rs, date, row, dateOf)
  {
    hide WithRec, SampleOf, SamplesIn;
    if rs == [] {
      NoSamples(row);
    } else {
      var n := |rs| - 1;
      var days := IngestAll(map[], rs[..n], dateOf);
      DaySamplesAreValues(rs[..n], date, row, dateOf);
      RecordAddsSample(DayAt(days, dateOf(rs[n].at)), rs[n], row);
      var before := Samples(rs[..n], date, row, dateOf);
      assert before + [] == before;
    }
  }

  lemma NoSamples(row: Row)
    ensures SamplesIn(EMPTY_DAY, row) == []
  {
  }

  function WindowSamples(rs: seq<Rec>, dates: seq<string>, row: Row, dateOf: Calendar): seq<nat> {
    if dates == [] then []
    else WindowSamples(rs, dates[..|dates| - 1], row, dateOf) + Samples(rs, dates[|dates| - 1], row, dateOf)
  }

  lemma MergeAddsSamples(a: Day, b: Day, row: Row)
    ensures SamplesIn(Merged(a, b), row) == SamplesIn(a, row) + SamplesIn(b, row)
  {
    assert SamplesIn(a, row) + [] == SamplesIn(a, row) && [] + SamplesIn(b, row) == SamplesIn(b, row);
  }

  /** Behind the percentiles of a report are exactly the values of the records of its window, day by day. */
  lemma {:induction false} ReportSamplesAreValues(rs: seq<Rec>, dates: seq<string>, row: Row, dateOf: Calendar)
    ensures SamplesIn(ReportOf(IngestAll(map[], rs, dateOf), dates), row) == WindowSamples(rs, dates, row, dateOf)
    decreases |dates|
  {
    hide Merged, IngestAll, SamplesIn, Samples;
    if dates == [] {
      NoSamples(row);
    } else {
      var n := |dates| - 1;
      var days := IngestAll(map[], rs, dateOf);
      ReportSamplesAreValues(rs, dates[..n], row, dateOf);
      DaySamplesAreValues(rs, dates[n], row, dateOf);
      MergeAddsSamples(ReportOf(days, dates[..n]), DayAt(days, dates[n]), row);
    }
  }

  // ---- captions ----

  /** A record that names the session in its row: one of a root agent, with a caption. */
  predicate Names(r: Rec, session: string, date: string, dateOf: Calendar) {
    dateOf(r.at) == date && r.scope == Root && r.session == session && r.caption != ""
  }

  /** The caption of a session on a day: that of the last record that names it, or none. */
  function LastCaption(rs: seq<Rec>, session: string, date: string, dateOf: Calendar): string {
    if rs == [] then ""
    else if Names(rs[|rs| - 1], session, date, dateOf) then rs[|rs| - 1].caption
    else LastCaption(rs[..|rs| - 1], session, date, dateOf)
  }

  function CaptionIn(d: Day, session: string): string {
    if session in d.sessions then d.sessions[session].caption else ""
  }

  lemma RecordCaptions(d: Day, r: Rec, session: string)
    ensures CaptionIn(WithRec(d, r), session) ==
            if r.scope == Root && r.session == session && r.caption != "" then r.caption else CaptionIn(d, session)
  {
    hide ModelKey, ToolName, ModelCounted;
  }

  lemma {:induction false} DayCaptionIsLatest(rs: seq<Rec>, date: string, session: string, dateOf: Calendar)
    ensures CaptionIn(DayAt(IngestAll(map[], rs, dateOf), date), session) == LastCaption(rs, session, date, dateOf)
  {
    hide WithRec, CaptionIn;
    if rs == [] {
      NoCaption(session);
    } else {
      var n := |rs| - 1;
      var days := IngestAll(map[], rs[..n], dateOf);
      DayCaptionIsLatest(rs[..n], date, session, dateOf);
      RecordCaptions(DayAt(days, dateOf(rs[n].at)), rs[n], session);
    }
  }

  lemma NoCaption(session: string)
    ensures CaptionIn(EMPTY_DAY, session) == ""
  {
  }

  /** In a report a session is called what it was called last, on the latest day of the window that names it. */
  lemma {:induction false} ReportCaptionIsLatest(rs: seq<Rec>, dates: seq<string>, session: string, dateOf: Calendar)
    ensures var shown := CaptionIn(ReportOf(IngestAll(map[], rs, dateOf), dates), session);
            && (shown == "" <==> forall k :: 0 <= k < |dates| ==> LastCaption(rs, session, dates[k], dateOf) == "")
            && forall k :: 0 <= k < |dates| && LastCaption(rs, session, dates[k], dateOf) != "" &&
                           (forall m :: k < m < |dates| ==> LastCaption(rs, session, dates[m], dateOf) == "") ==>
                 shown == LastCaption(rs, session, dates[k], dateOf)
    decreases |dates|
  {
    hide Merged, IngestAll, CaptionIn, LastCaption;
    if dates == [] {
      NoCaption(session);
    } else {
      var n := |dates| - 1;
      var days, init := IngestAll(map[], rs, dateOf), dates[..n];
      ReportCaptionIsLatest(rs, init, session, dateOf);
      DayCaptionIsLatest(rs, dates[n], session, dateOf);
      MergedCaption(ReportOf(days, init), DayAt(days, dates[n]), session);
      assert forall k :: 0 <= k < n ==> init[k] == dates[k];
    }
  }

  lemma MergedCaption(a: Day, b: Day, session: string)
    ensures CaptionIn(Merged(a, b), session) == if CaptionIn(b, session) != "" then CaptionIn(b, session)
                                                else CaptionIn(a, session)
  {
  }

  // ---- the points of a day ----

  /** A daily point shows every number of its day, and as overhead the active time that neither models nor tools took,
      never less than none. */
  lemma PointShows(date: string, d: Day)
    ensures var p := PointOf(date, d);
            && p.date == date && (forall f :: DayValue(p.totals, f) == DayValue(d, f))
            && p.overheadMs == if d.activeMs > d.modelMs + d.toolMs then d.activeMs - d.modelMs - d.toolMs else 0
  {
  }
}
