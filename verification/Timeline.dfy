/**
 * The compacting timeline of a live session (backend/live-sessions/registry.ts).
 *
 * A timeline is the list of rows the dashboard shows. Streaming updates replace each other,
 * an end event removes the updates it completes, and the list is capped from the front.
 */
module Timeline {
  import opened Wrappers

  // ---- rows ----

  /** The event types the timeline tells apart; every other type is only a name. */
  datatype Kind =
    | MessageStart
    | MessageUpdate
    | MessageEnd
    | MessageEntry
    | ToolStart
    | ToolUpdate
    | ToolEnd
    | FeatureSnapshot
    | ExtensionUi
    | ExtensionUiClosed
    | ExtensionUiNotify
    | SummaryUpdate
    | Other(name: string)

  /** A JSON field: null or missing, a string, or anything else. */
  datatype Field = Absent | Text(text: string) | NonText(raw: nat)

  datatype Message = NoMessage | Message(id: Field, role: Field)

  /** An event's payload; `rest` stands for all that the timeline never looks at. */
  datatype Data =
    | NoRecord(raw: nat)
    | Data(messageId: Field, toolCallId: Field, id: Field, message: Message, toolName: Field, feature: Field,
           entryId: Field, rest: nat)

  const EMPTY_DATA: Data := Data(Absent, Absent, Absent, NoMessage, Absent, Absent, Absent, 0)

  /** A row of the timeline. A snapshot may hold values that are no events at all. */
  datatype Row = Row(kind: Kind, data: Data) | Foreign(raw: nat)

  type Event = r: Row | r.Row? witness Row(MessageStart, NoRecord(0))

  // ---- identities ----

  /** The first identifier that is neither null nor missing. */
  function FirstId(d: Data): Field {
    if d.NoRecord? then Absent
    else if !d.messageId.Absent? then d.messageId
    else if !d.toolCallId.Absent? then d.toolCallId
    else if !d.id.Absent? then d.id
    else if d.message.Message? then d.message.id
    else Absent
  }

  function Identity(e: Event): Option<string> {
    if FirstId(e.data).Text? then Some(FirstId(e.data).text)
    else if e.kind in {MessageStart, MessageUpdate, MessageEnd, MessageEntry} && e.data.Data? &&
         e.data.message.Message? &&
            e.data.message.role.Text?
    then Some("message:" + e.data.message.role.text)
    else if e.kind in {ToolStart, ToolUpdate, ToolEnd} && e.data.Data? && e.data.toolName.Text?
    then Some("tool:" + e.data.toolName.text)
    else None
  }

  /** An identity the timeline compares; a missing and an empty one match every row. */
  predicate Usable(identity: Option<string>) {
    identity.Some? && identity.value != ""
  }

  function Feature(d: Data): Field {
    if d.Data? then d.feature else Absent
  }

  // ---- looking for rows ----

  /** What a scan of the timeline looks for. */
  datatype Probe = OfKind(kind: Kind, identity: Option<string>) | OfFeature(feature: Field) | AnyEnd

  predicate Hit(p: Probe, r: Row) {
    r.Row? &&
    match p
    case OfKind(kind, identity) => r.kind == kind && (Usable(identity) ==> Identity(r) == identity)
    case OfFeature(feature) => r.kind == FeatureSnapshot && Feature(r.data) == feature
    case AnyEnd => r.kind == MessageEnd
  }

  /** The position of the last row that fits, or -1. */
  function LastHit(t: seq<Row>, p: Probe): (i: int)
    ensures -1 <= i < |t|
  {
    if t == [] then -1 else if Hit(p, t[|t| - 1]) then |t| - 1 else LastHit(t[..|t| - 1], p)
  }

  function Without(t: seq<Row>, p: Probe): seq<Row> {
    if t == [] then [] else Without(t[..|t| - 1], p) + (if Hit(p, t[|t| - 1]) then [] else [t[|t| - 1]])
  }

  /** Replace the last row that fits, or append. */
  function Upsert(t: seq<Row>, p: Probe, e: Event): seq<Row> {
    var i := LastHit(t, p);
    if i >= 0 then t[i := e] else t + [e]
  }

  function Stamped(r: Event, entryId: Field): Event {
    Row(r.kind, (if r.data.Data? then r.data else EMPTY_DATA).(entryId := entryId))
  }

  /** Write the entry id into the last finished message. */
  function StampLast(t: seq<Row>, entryId: Field): seq<Row> {
    var i := LastHit(t, AnyEnd);
    if i >= 0 && t[i].Row? then t[i := Stamped(t[i], entryId)] else t
  }

  /** One of the last three rows already is this finished message. */
  predicate Repeats(t: seq<Row>, e: Event) {
    exists i :: Max(0, |t| - 3) <= i < |t| && t[i] == e
  }

  // ---- one event ----

  function Append(t: seq<Row>, e: Event): seq<Row> {
    match e.kind
    case MessageStart => t
    case ExtensionUi => t
    case ExtensionUiClosed => t
    case ExtensionUiNotify => t
    case SummaryUpdate => t
    case MessageEntry =>
      var id := if e.data.Data? then e.data.entryId else Absent;
      if id.Text? && id.text != "" then StampLast(t, id) else t
    case FeatureSnapshot => Upsert(t, OfFeature(Feature(e.data)), e)
    case MessageUpdate => Upsert(t, OfKind(MessageUpdate, Identity(e)), e)
    case ToolUpdate => Upsert(t, OfKind(ToolUpdate, Identity(e)), e)
    case MessageEnd =>
      var kept := Without(t, OfKind(MessageUpdate, Identity(e)));
      if Repeats(kept, e) then kept else kept + [e]
    case ToolEnd => Without(Without(t, OfKind(ToolUpdate, Identity(e))), OfKind(ToolStart, Identity(e))) + [e]
    case _ => t + [e]
  }

  function Capped(t: seq<Row>, max: nat): seq<Row> {
    if |t| > max then t[|t| - max..] else t
  }

  /** A snapshot's rows; a cap of zero keeps them all. */
  function Window(t: seq<Row>, max: nat): seq<Row> {
    if max == 0 then t else Capped(t, max)
  }

  function AppendAll(t: seq<Row>, es: seq<Event>, max: nat): seq<Row> {
    if es == [] then t else Capped(Append(AppendAll(t, es[..|es| - 1], max), es[|es| - 1]), max)
  }

  // ---- the loops ----

  method FindLast(t: seq<Row>, p: Probe) returns (i: int)
    ensures i == LastHit(t, p)
  {
    i := |t| - 1;
    assert t[..|t|] == t;
    while i >= 0
      invariant -1 <= i < |t| && LastHit(t, p) == LastHit(t[..i + 1], p)
    {
      if Hit(p, t[i]) { return; }
      assert t[..i + 1][..i] == t[..i];
      i := i - 1;
    }
  }

  method FilterOut(t: seq<Row>, p: Probe) returns (kept: seq<Row>)
    ensures kept == Without(t, p)
  {
    kept := [];
    for i := 0 to |t|
      invariant kept == Without(t[..i], p)
    {
      assert t[..i + 1][..i] == t[..i];
      if !Hit(p, t[i]) { kept := kept + [t[i]]; }
    }
    assert t[..|t|] == t;
  }

  method Put(t: seq<Row>, p: Probe, e: Event) returns (entries: seq<Row>)
    ensures entries == Upsert(t, p, e)
  {
    var index := FindLast(t, p);
    entries := if index >= 0 then t[index := e] else t + [e];
  }

  /** Add one event to the rows of a session, then cut the rows to the cap. */
  method AppendTimelineEvent(t: seq<Row>, e: Event, max: nat) returns (entries: seq<Row>)
    ensures entries == Capped(Append(t, e), max)
  {
    hide Without, LastHit, Hit, Upsert;
    entries := t;
    match e.kind {
      case MessageStart =>
      case ExtensionUi =>
      case ExtensionUiClosed =>
      case ExtensionUiNotify =>
      case SummaryUpdate =>
      case MessageEntry =>
        if e.data.Data? && e.data.entryId.Text? && e.data.entryId.text != "" {
          var index := FindLast(entries, AnyEnd);
          if index >= 0 && entries[index].Row? {
            entries := entries[index := Stamped(entries[index], e.data.entryId)];
          }
        }
      case FeatureSnapshot => entries := Put(entries, OfFeature(Feature(e.data)), e);
      case MessageUpdate => entries := Put(entries, OfKind(MessageUpdate, Identity(e)), e);
      case ToolUpdate => entries := Put(entries, OfKind(ToolUpdate, Identity(e)), e);
      case MessageEnd =>
        entries := FilterOut(entries, OfKind(MessageUpdate, Identity(e)));
        var duplicate := SeenRecently(entries, e);
        if !duplicate { entries := entries + [e]; }
      case ToolEnd =>
        entries := FilterOut(entries, OfKind(ToolUpdate, Identity(e)));
        entries := FilterOut(entries, OfKind(ToolStart, Identity(e)));
        entries := entries + [e];
      case Other(_) => entries := entries + [e];
      case ToolStart => entries := entries + [e];
    }
    if |entries| > max { entries := entries[|entries| - max..]; }
  }

  method SeenRecently(t: seq<Row>, e: Event) returns (duplicate: bool)
    ensures duplicate == Repeats(t, e)
  {
    for i := Max(0, |t| - 3) to |t|
      invariant forall k :: Max(0, |t| - 3) <= k < i ==> t[k] != e
    {
      if t[i] == e { return true; }
    }
    return false;
  }

  // ---- compactness ----

  predicate IsUpdate(r: Row) {
    r.Row? && (r.kind == MessageUpdate || r.kind == ToolUpdate)
  }

  /** Two rows that must not both be shown: updates with one identity, or snapshots of one feature. */
  predicate Clash(a: Row, b: Row) {
    a.Row? && b.Row? && a.kind == b.kind &&
    if IsUpdate(a) then Usable(Identity(a)) && Identity(a) == Identity(b)
    else a.kind == FeatureSnapshot && Feature(a.data) == Feature(b.data)
  }

  predicate Compact(t: seq<Row>) {
    forall i, j :: 0 <= i < j < |t| ==> !Clash(t[i], t[j])
  }

  lemma {:induction false} LastHitIsLast(t: seq<Row>, p: Probe)
    ensures var i := LastHit(t, p);
            && (i >= 0 ==> Hit(p, t[i]))
            && forall j :: i < j < |t| ==> !Hit(p, t[j])
  {
    hide Hit;
    if t != [] && !Hit(p, t[|t| - 1]) { LastHitIsLast(t[..|t| - 1], p); }
  }

  lemma {:induction false} WithoutFacts(t: seq<Row>, p: Probe)
    ensures forall r :: r in Without(t, p) <==> r in t && !Hit(p, r)
    ensures Compact(t) ==> Compact(Without(t, p))
  {
    hide Hit, Clash;
    if t == [] {
    } else {
      var init, last := t[..|t| - 1], t[|t| - 1];
      assert t == init + [last];
      WithoutFacts(init, p);
      var kept := Without(init, p);
      if Compact(t) {
        forall i, j | 0 <= i < j < |init| ensures !Clash(init[i], init[j]) {
          assert t[i] == init[i] && t[j] == init[j];
        }
      }
      if Compact(t) && !Hit(p, last) {
        forall k | 0 <= k < |kept| ensures !Clash(kept[k], last) {
          assert kept[k] in init;
          var m :| 0 <= m < |init| && init[m] == kept[k];
          assert t[m] == init[m] && t[|t| - 1] == last;
        }
      }
    }
  }

  lemma PushKeepsCompact(t: seq<Row>, e: Event)
    requires Compact(t) && forall r :: r in t ==> !Clash(r, e)
    ensures Compact(t + [e])
  {
    hide Clash;
  }

  /** A probe that finds every row its event clashes with. */
  ghost predicate Covers(p: Probe, e: Event) {
    forall r: Row :: Clash(r, e) ==> Hit(p, r)
  }

  lemma UpsertKeepsCompact(t: seq<Row>, p: Probe, e: Event)
    requires Compact(t) && Covers(p, e)
    requires forall a: Row, b: Row :: Clash(a, e) && Hit(p, b) ==> Clash(a, b)
    ensures Compact(Upsert(t, p, e))
  {
    hide Clash, Hit;
    LastHitIsLast(t, p);
    var i := LastHit(t, p);
    if i >= 0 {
      var u := t[i := e];
      ClashIsSymmetric();
      forall j | 0 <= j < |t| && j != i ensures !Clash(t[j], e) {
        if j < i { assert !Clash(t[j], t[i]); }
      }
    }
  }

  lemma ClashIsSymmetric()
    ensures forall a: Row, b: Row :: Clash(a, b) ==> Clash(b, a)
  {
  }

  /** One event keeps the timeline compact. */
  lemma AppendKeepsCompact(t: seq<Row>, e: Event)
    requires Compact(t)
    ensures Compact(Append(t, e))
  {
    hide Without, LastHit, Compact, Repeats;
    match e.kind
    case MessageUpdate => UpsertKeepsCompact(t, OfKind(MessageUpdate, Identity(e)), e);
    case ToolUpdate => UpsertKeepsCompact(t, OfKind(ToolUpdate, Identity(e)), e);
    case FeatureSnapshot => UpsertKeepsCompact(t, OfFeature(Feature(e.data)), e);
    case MessageEnd =>
      var p := OfKind(MessageUpdate, Identity(e));
      WithoutFacts(t, p);
      PushKeepsCompact(Without(t, p), e);
    case ToolEnd =>
      var p, q := OfKind(ToolUpdate, Identity(e)), OfKind(ToolStart, Identity(e));
      WithoutFacts(t, p);
      WithoutFacts(Without(t, p), q);
      PushKeepsCompact(Without(Without(t, p), q), e);
    case MessageEntry => StampKeepsCompact(t, if e.data.Data? then e.data.entryId else Absent);
    case Other(_) => PushKeepsCompact(t, e);
    case ToolStart => PushKeepsCompact(t, e);
    case _ =>
  }

  lemma StampKeepsCompact(t: seq<Row>, id: Field)
    requires Compact(t)
    ensures Compact(StampLast(t, id))
  {
    LastHitIsLast(t, AnyEnd);
  }

  lemma CappedKeepsCompact(t: seq<Row>, max: nat)
    requires Compact(t)
    ensures Compact(Capped(t, max)) && |Capped(t, max)| <= max
  {
    hide Clash;
    if |t| > max {
      var d := |t| - max;
      forall i, j | 0 <= i < j < max ensures !Clash(t[d..][i], t[d..][j]) {
        assert t[d..][i] == t[d + i] && t[d..][j] == t[d + j];
      }
    }
  }

  /** After any run of events a compact timeline is compact, and it never outgrows its cap. */
  lemma {:induction false} RunKeepsCompact(t: seq<Row>, es: seq<Event>, max: nat)
    requires Compact(t)
    ensures Compact(AppendAll(t, es, max))
    ensures es != [] || |t| <= max ==> |AppendAll(t, es, max)| <= max
  {
    hide Compact, Append;
    if es == [] {
    } else {
      var before := AppendAll(t, es[..|es| - 1], max);
      RunKeepsCompact(t, es[..|es| - 1], max);
      AppendKeepsCompact(before, es[|es| - 1]);
      CappedKeepsCompact(Append(before, es[|es| - 1]), max);
    }
  }

  /** Right after an end event no update of what it ended is shown, and no start of an ended tool call. */
  lemma EndedIsGone(t: seq<Row>, e: Event, max: nat, r: Row)
    requires r in Capped(Append(t, e), max)
    ensures e.kind == MessageEnd ==> !Hit(OfKind(MessageUpdate, Identity(e)), r)
    ensures e.kind == ToolEnd ==> !Hit(OfKind(ToolUpdate, Identity(e)), r) && !Hit(OfKind(ToolStart, Identity(e)), r)
  {
    hide Without, Repeats;
    if e.kind == MessageEnd {
      WithoutFacts(t, OfKind(MessageUpdate, Identity(e)));
    } else if e.kind == ToolEnd {
      var p := OfKind(ToolUpdate, Identity(e));
      WithoutFacts(t, p);
      WithoutFacts(Without(t, p), OfKind(ToolStart, Identity(e)));
    }
  }

  // ---- updates without an identity ----

  predicate Anonymous(r: Row, kind: Kind) {
    r.Row? && r.kind == kind && !Usable(Identity(r))
  }

  predicate OneAnonymous(t: seq<Row>, kind: Kind) {
    forall i, j :: 0 <= i < j < |t| ==> !(Anonymous(t[i], kind) && Anonymous(t[j], kind))
  }

  /** An update without an identity replaces the last update of its kind, whoever that belongs to. So a second such
      row appears exactly when one is shown already and an identified update came after it. */
  lemma AnonymousExactly(t: seq<Row>, e: Event)
    requires IsUpdate(e) && OneAnonymous(t, e.kind)
    ensures var i := LastHit(t, OfKind(e.kind, None));
            OneAnonymous(Append(t, e), e.kind) <==>
            !(!Usable(Identity(e)) && i >= 0 && !Anonymous(t[i], e.kind) && exists r :: r in t && Anonymous(r, e.kind))
  {
    hide Identity, LastHit;
    var kind := e.kind;
    var p := OfKind(kind, Identity(e));
    var i, u := LastHit(t, p), Append(t, e);
    LastHitIsLast(t, p);
    if Usable(Identity(e)) {
      assert !Anonymous(e, kind);
    } else {
      SameProbe(t, p, OfKind(kind, None));
      if i >= 0 {
        if r :| r in t && Anonymous(r, kind) && !Anonymous(t[i], kind) {
          var k :| 0 <= k < |t| && t[k] == r;
          assert Anonymous(u[k], kind) && Anonymous(u[i], kind);
        } else if Anonymous(t[i], kind) {
          assert forall k :: 0 <= k < |t| && k != i ==> !Anonymous(t[k], kind);
        }
      } else {
        forall k | 0 <= k < |t| ensures !Anonymous(t[k], kind) { assert !Hit(p, t[k]); }
      }
    }
  }

  lemma {:induction false} SameProbe(t: seq<Row>, p: Probe, q: Probe)
    requires forall r: Row :: Hit(p, r) == Hit(q, r)
    ensures LastHit(t, p) == LastHit(t, q)
  {
    if t == [] {
    } else {
      SameProbe(t[..|t| - 1], p, q);
    }
  }

  /** An update without identity, one of a message, and one without again: two rows without identity are shown, and the
      update of the message is gone. */
  lemma TwoAnonymousShown(id: string)
    requires id != ""
    ensures var a := Row(MessageUpdate, EMPTY_DATA);
            var m := Row(MessageUpdate, EMPTY_DATA.(messageId := Text(id)));
            var b := Row(MessageUpdate, EMPTY_DATA.(rest := 1));
            Append(Append(Append([], a), m), b) == [a, b] && !OneAnonymous([a, b], MessageUpdate) &&
              Identity(m) == Some(id)
  {
    var a := Row(MessageUpdate, EMPTY_DATA);
    var m := Row(MessageUpdate, EMPTY_DATA.(messageId := Text(id)));
    assert [a][..0] == [] && LastHit([a], OfKind(MessageUpdate, Some(id))) == -1;
    assert [] + [a] == [a] && [a] + [m] == [a, m];
    var b := Row(MessageUpdate, EMPTY_DATA.(rest := 1));
    assert Anonymous([a, b][0], MessageUpdate) && Anonymous([a, b][1], MessageUpdate);
  }

  // ---- the transcript ----

  /** Rows that later events never remove. */
  predicate Durable(r: Row) {
    r.Foreign? || r.kind !in {MessageUpdate, ToolUpdate, ToolStart, FeatureSnapshot}
  }

  function Transcript(t: seq<Row>): seq<Row> {
    if t == [] then [] else Transcript(t[..|t| - 1]) + (if Durable(t[|t| - 1]) then [t[|t| - 1]] else [])
  }

  lemma TranscriptPush(t: seq<Row>, r: Row)
    ensures Transcript(t + [r]) == Transcript(t) + (if Durable(r) then [r] else [])
  {
    assert (t + [r])[..|t|] == t;
  }

  lemma {:induction false} TranscriptWithout(t: seq<Row>, p: Probe)
    requires forall r: Row :: Hit(p, r) ==> !Durable(r)
    ensures Transcript(Without(t, p)) == Transcript(t)
  {
    hide Hit, Durable;
    if t == [] {
    } else {
      TranscriptWithout(t[..|t| - 1], p);
      var init, last := t[..|t| - 1], t[|t| - 1];
      if Hit(p, last) {
        assert Without(t, p) == Without(init, p) && Transcript(t) == Transcript(init);
      } else {
        TranscriptPush(Without(init, p), last);
      }
    }
  }

  lemma {:induction false} TranscriptReplace(t: seq<Row>, i: nat, r: Row)
    requires i < |t| && !Durable(t[i]) && !Durable(r)
    ensures Transcript(t[i := r]) == Transcript(t)
  {
    hide Durable;
    var n := |t| - 1;
    if i < n {
      TranscriptReplace(t[..n], i, r);
      assert t[i := r][..n] == t[..n][i := r];
    } else {
      assert t[i := r][..n] == t[..n];
    }
  }

  lemma TranscriptUpsert(t: seq<Row>, p: Probe, e: Event)
    requires !Durable(e) && forall r: Row :: Hit(p, r) ==> !Durable(r)
    ensures Transcript(Upsert(t, p, e)) == Transcript(t)
  {
    hide Durable, Hit, Transcript;
    LastHitIsLast(t, p);
    if LastHit(t, p) >= 0 { TranscriptReplace(t, LastHit(t, p), e); } else { TranscriptPush(t, e); }
  }

  lemma {:induction false} TranscriptStamp(t: seq<Row>, id: Field)
    ensures Transcript(StampLast(t, id)) == StampLast(Transcript(t), id)
  {
    hide Durable, Stamped;
    if t == [] {
    } else {
      var init, last := t[..|t| - 1], t[|t| - 1];
      assert t == init + [last];
      if Hit(AnyEnd, last) {
        EndsAreDurable(last, id);
        assert StampLast(t, id) == init + [Stamped(last, id)];
        TranscriptPush(init, Stamped(last, id));
        var done := Transcript(init) + [last];
        assert StampLast(done, id) == Transcript(init) + [Stamped(last, id)];
      } else {
        TranscriptStamp(init, id);
        StampBefore(init, last, id);
        TranscriptPush(StampLast(init, id), last);
        if Durable(last) {
          StampBefore(Transcript(init), last, id);
        } else {
          assert Transcript(t) == Transcript(init);
          assert Transcript(StampLast(init, id)) + [] == Transcript(StampLast(init, id));
        }
      }
    }
  }

  lemma StampBefore(t: seq<Row>, r: Row, id: Field)
    requires !Hit(AnyEnd, r)
    ensures StampLast(t + [r], id) == StampLast(t, id) + [r]
  {
    hide Stamped;
    assert (t + [r])[..|t|] == t;
  }

  lemma EndsAreDurable(r: Event, id: Field)
    requires Hit(AnyEnd, r)
    ensures Durable(r) && Durable(Stamped(r, id))
  {
  }

  /** Compaction never touches the transcript: an event appends itself, stamps the last finished message, or leaves
      the durable rows as they are, in order. */
  lemma TranscriptGrows(t: seq<Row>, e: Event)
    ensures Transcript(Append(t, e)) ==
            if e.kind == MessageEntry then Append(Transcript(t), e)
            else if e.kind == ToolEnd || e.kind.Other? ||
                    (e.kind == MessageEnd && !Repeats(Without(t, OfKind(MessageUpdate, Identity(e))), e))
            then Transcript(t) + [e]
            else Transcript(t)
  {
    hide Transcript, Without, LastHit, Repeats, Upsert, StampLast;
    match e.kind
    case MessageEntry => TranscriptStamp(t, if e.data.Data? then e.data.entryId else Absent);
    case FeatureSnapshot => TranscriptUpsert(t, OfFeature(Feature(e.data)), e);
    case MessageUpdate => TranscriptUpsert(t, OfKind(MessageUpdate, Identity(e)), e);
    case ToolUpdate => TranscriptUpsert(t, OfKind(ToolUpdate, Identity(e)), e);
    case MessageEnd =>
      var p := OfKind(MessageUpdate, Identity(e));
      TranscriptWithout(t, p);
      TranscriptPush(Without(t, p), e);
    case ToolEnd =>
      var p, q := OfKind(ToolUpdate, Identity(e)), OfKind(ToolStart, Identity(e));
      TranscriptWithout(t, p);
      TranscriptWithout(Without(t, p), q);
      TranscriptPush(Without(Without(t, p), q), e);
    case Other(_) => TranscriptPush(t, e);
    case ToolStart => TranscriptPush(t, e);
    case _ =>
  }
}
