/**
 * What one event does to the rows of a timeline (backend/live-sessions/registry.ts), said of the
 * rows themselves.
 */
module TimelineRows {
  import opened Wrappers
  import opened Timeline

  // ---- identities ----

  /** The four fields an event may be identified by, in this order. */
  function Ids(d: Data): seq<Field>
    requires d.Data?
  {
    [d.messageId, d.toolCallId, d.id, if d.message.Message? then d.message.id else Absent]
  }

  /** Field `k` is the first one that is there. */
  predicate FirstThere(ids: seq<Field>, k: int) {
    0 <= k < |ids| && !ids[k].Absent? && forall m :: 0 <= m < k ==> ids[m].Absent?
  }

  /** An event is identified by the first of its id fields that is there, if that is a text; otherwise a message by its
      role and a tool call by its tool; anything else is not identified. */
  lemma IdentityExactly(e: Event)
    ensures e.data.NoRecord? ==> Identity(e) == None
    ensures e.data.Data? ==> forall k :: FirstThere(Ids(e.data), k) && Ids(e.data)[k].Text? ==>
              Identity(e) == Some(Ids(e.data)[k].text)
    ensures e.data.Data? && (forall k :: FirstThere(Ids(e.data), k) ==> Ids(e.data)[k].NonText?) ==>
              Identity(e) ==
              if e.kind in {MessageStart, MessageUpdate, MessageEnd, MessageEntry} && e.data.message.Message? &&
                 e.data.message.role.Text?
              then Some("message:" + e.data.message.role.text)
              else if e.kind in {ToolStart, ToolUpdate, ToolEnd} && e.data.toolName.Text?
              then Some("tool:" + e.data.toolName.text)
              else None
  {
    if e.data.Data? {
      var ids := Ids(e.data);
      assert !FirstId(e.data).Absent? ==> exists k :: FirstThere(ids, k) && ids[k] == FirstId(e.data) by {
        if !ids[0].Absent? {
          assert FirstThere(ids, 0);
        } else if !ids[1].Absent? {
          assert FirstThere(ids, 1);
        } else if !ids[2].Absent? {
          assert FirstThere(ids, 2);
        } else if !ids[3].Absent? {
          assert FirstThere(ids, 3);
        }
      }
    }
  }

  // ---- updates ----

  /** The identity of `e` is the row's too; an event without a usable one takes any row. */
  predicate Named(r: Event, e: Event) {
    Identity(e) == None || Identity(e) == Some("") || Identity(r) == Identity(e)
  }

  /** A row that this update replaces: of its kind, and about the same message, tool call or feature. */
  predicate Fits(r: Row, e: Event) {
    r.Row? && r.kind == e.kind &&
    if e.kind == FeatureSnapshot
    then (if r.data.Data? then r.data.feature else Absent) == (if e.data.Data? then e.data.feature else Absent)
    else Named(r, e)
  }

  predicate LastFit(t: seq<Row>, e: Event, i: int) {
    0 <= i < |t| && Fits(t[i], e) && forall j :: i < j < |t| ==> !Fits(t[j], e)
  }

  /** An update or a feature snapshot is always shown: in the place of the last row that fits, which is the only row
      that changes, or behind all rows if none fits. */
  lemma UpdateIsShown(t: seq<Row>, e: Event)
    requires e.kind in {MessageUpdate, ToolUpdate, FeatureSnapshot}
    ensures e in Append(t, e)
    ensures (Append(t, e) == t + [e] && forall r :: r in t ==> !Fits(r, e)) ||
            exists i :: LastFit(t, e, i) && Append(t, e) == t[i := e]
  {
    var p := if e.kind == FeatureSnapshot then OfFeature(Feature(e.data)) else OfKind(e.kind, Identity(e));
    LastHitIsLast(t, p);
    var i := LastHit(t, p);
    assert Append(t, e) == Upsert(t, p, e);
    assert forall r: Row :: Hit(p, r) <==> Fits(r, e);
    if i >= 0 {
      assert LastFit(t, e, i) && Append(t, e)[i] == e;
    } else {
      assert (t + [e])[|t|] == e;
    }
  }

  // ---- ends ----

  /** The rows that are left when some are taken out. */
  ghost function Rest(t: seq<Row>, gone: Row -> bool): seq<Row> {
    if t == [] then []
    else Rest(t[..|t| - 1], gone) + if gone(t[|t| - 1]) then [] else [t[|t| - 1]]
  }

  lemma {:induction false} WithoutIsRest(t: seq<Row>, p: Probe, gone: Row -> bool)
    requires forall r: Row :: gone(r) == Hit(p, r)
    ensures Without(t, p) == Rest(t, gone)
  {
    if t == [] {
    } else {
      WithoutIsRest(t[..|t| - 1], p, gone);
    }
  }

  lemma {:induction false} RestTwice(t: seq<Row>, a: Row -> bool, b: Row -> bool, both: Row -> bool)
    requires forall r: Row :: both(r) == (a(r) || b(r))
    ensures Rest(Rest(t, a), b) == Rest(t, both)
  {
    if t == [] {
    } else {
      var init, last := t[..|t| - 1], t[|t| - 1];
      RestTwice(init, a, b, both);
      if !a(last) {
        assert (Rest(init, a) + [last])[..|Rest(init, a)|] == Rest(init, a);
      } else {
        assert Rest(init, a) + [] == Rest(init, a);
      }
    }
  }

  /** A finished message takes out the updates of that message and no other row, and follows the rest, unless one of the
      last three rows already is the same finished message. */
  lemma MessageEndsExactly(t: seq<Row>, e: Event)
    requires e.kind == MessageEnd
    ensures var rest := Rest(t, (r: Row) => r.Row? && r.kind == MessageUpdate && Named(r, e));
            var shown := exists k :: 0 <= k < |rest| && k >= |rest| - 3 && rest[k] == e;
            Append(t, e) == (if shown then rest else rest + [e])
    ensures e in Append(t, e)
  {
    var gone := (r: Row) => r.Row? && r.kind == MessageUpdate && Named(r, e);
    WithoutIsRest(t, OfKind(MessageUpdate, Identity(e)), gone);
    var rest := Rest(t, gone);
    if k :| 0 <= k < |rest| && k >= |rest| - 3 && rest[k] == e {
      assert Repeats(rest, e);
    } else {
      assert !Repeats(rest, e) && (rest + [e])[|rest|] == e;
    }
  }

  /** A finished tool call takes out its start and its updates and no other row, and follows the rest. */
  lemma ToolEndsExactly(t: seq<Row>, e: Event)
    requires e.kind == ToolEnd
    ensures Append(t, e) == Rest(t, (r: Row) => r.Row? && r.kind in {ToolStart, ToolUpdate} && Named(r, e)) + [e]
  {
    var update := (r: Row) => r.Row? && r.kind == ToolUpdate && Named(r, e);
    var start := (r: Row) => r.Row? && r.kind == ToolStart && Named(r, e);
    WithoutIsRest(t, OfKind(ToolUpdate, Identity(e)), update);
    WithoutIsRest(Rest(t, update), OfKind(ToolStart, Identity(e)), start);
    RestTwice(t, update, start, (r: Row) => r.Row? && r.kind in {ToolStart, ToolUpdate} && Named(r, e));
  }

  // ---- the other events ----

  /** The id of an entry is written into the last finished message, and nothing else changes. */
  lemma EntryIsStamped(t: seq<Row>, e: Event)
    requires e.kind == MessageEntry
    ensures var id := if e.data.Data? then e.data.entryId else Absent;
            if id.Text? && id.text != "" && (exists r :: r in t && r.Row? && r.kind == MessageEnd)
            then exists i :: 0 <= i < |t| && t[i].Row? && t[i].kind == MessageEnd &&
                             (forall j :: i < j < |t| ==> t[j].Foreign? || t[j].kind != MessageEnd) &&
                             StampedWith(t, Append(t, e), i, id)
            else Append(t, e) == t
  {
    LastHitIsLast(t, AnyEnd);
    var i := LastHit(t, AnyEnd);
    var id := if e.data.Data? then e.data.entryId else Absent;
    if id.Text? && id.text != "" && i >= 0 { assert StampedWith(t, Append(t, e), i, id); }
    if r :| r in t && r.Row? && r.kind == MessageEnd {
      var k :| 0 <= k < |t| && t[k] == r;
      assert Hit(AnyEnd, t[k]);
    }
  }

  /** Only row `i` has changed, and of it only the entry id. */
  predicate StampedWith(t: seq<Row>, u: seq<Row>, i: int, id: Field)
    requires 0 <= i < |t| && t[i].Row?
  {
    && |u| == |t| && (forall k :: 0 <= k < |t| && k != i ==> u[k] == t[k])
    && u[i].Row? && u[i].kind == t[i].kind && u[i].data.Data? && u[i].data.entryId == id
    && (t[i].data.Data? ==> u[i].data == t[i].data.(entryId := id))
    && (t[i].data.NoRecord? ==> u[i].data == EMPTY_DATA.(entryId := id))
  }

  /** Dialogs, telemetry and starts of messages are no rows; every other event is one more row. */
  lemma OthersAreRows(t: seq<Row>, e: Event)
    ensures e.kind in {MessageStart, ExtensionUi, ExtensionUiClosed, ExtensionUiNotify, SummaryUpdate} ==>
              Append(t, e) == t
    ensures e.kind == ToolStart || e.kind.Other? ==> Append(t, e) == t + [e]
  {
  }

  /** The cap keeps the newest rows, as many as fit. */
  lemma CapKeepsNewest(t: seq<Row>, max: nat)
    ensures |Capped(t, max)| == (if |t| < max then |t| else max)
    ensures forall k :: 0 <= k < |Capped(t, max)| ==> Capped(t, max)[k] == t[|t| - |Capped(t, max)| + k]
  {
  }
}
