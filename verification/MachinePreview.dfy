/**
 * The bounded preview of a live session (backend/machine-preview.ts).
 *
 * A message's text is UTF-16; the preview keeps whole code points, at most 512 UTF-8 bytes a
 * message, and trims the oldest message until the JSON text of the whole preview fits.
 */
module MachinePreview {
  import opened Wrappers
  import opened TextEncoding

  const MAX_TEXT_BYTES := 512
  const MAX_PREVIEW_BYTES := 5800
  const MAX_MESSAGES := 8
  const MAX_SAFE_INTEGER := 9007199254740991

  type Unit = u: int | 0 <= u < 0x10000

  datatype Role = User | Assistant | OtherRole
  datatype Status = Idle | Running | Reconnecting | OtherStatus

  /** The content of a message: a string, blocks of which some may not be text, or neither. */
  datatype Content = Plain(text: seq<Unit>) | Blocks(blocks: seq<Option<seq<Unit>>>) | NoContent

  /** A timeline entry that carries a message, or any other entry. */
  datatype Entry = Carries(role: Role, content: Content) | Bare

  datatype Detail = Detail(sessionId: string, status: Status, entries: seq<Entry>)

  datatype Message = Message(role: Role, text: seq<Point>)

  datatype Preview = Preview(sessionId: string, status: Status, observedAt: nat, messages: seq<Message>)

  // ---- code points ----

  predicate High(u: Unit) {
    0xD800 <= u < 0xDC00
  }

  predicate Low(u: Unit) {
    0xDC00 <= u < 0xE000
  }

  function Combined(h: Unit, l: Unit): Point
    requires High(h) && Low(l)
  {
    0x10000 + (h as int - 0xD800) * 0x400 + (l as int - 0xDC00)
  }

  /** The code points a string iterator yields from unit `i` on; a surrogate that stands alone is yielded as itself. */
  function PointsFrom(s: seq<Unit>, i: nat): seq<Point>
    requires i <= |s|
    decreases |s| - i
  {
    if i == |s| then []
    else if i + 1 < |s| && High(s[i]) && Low(s[i + 1])
    then [Combined(s[i], s[i + 1])] + PointsFrom(s, i + 2)
    else [s[i]] + PointsFrom(s, i + 1)
  }

  function Scalars(ps: seq<Point>): (r: seq<Point>)
    ensures forall k :: 0 <= k < |r| ==> !Surrogate(r[k])
  {
    if ps == [] then [] else (if Surrogate(ps[0]) then [] else [ps[0]]) + Scalars(ps[1..])
  }

  /** Bytes of a code point inside a JSON string: quotes, backslashes and control characters are escaped. */
  function Quoted(p: Point): (n: nat)
    ensures 1 <= n <= 6
  {
    if p == 34 || p == 92 || p == 8 || p == 9 || p == 10 || p == 12 || p == 13 then 2
    else if p < 0x20 then 6 else PointSize(p)
  }

  function QuotedLength(ps: seq<Point>): nat {
    if ps == [] then 0 else QuotedLength(ps[..|ps| - 1]) + Quoted(ps[|ps| - 1])
  }

  // ---- one message ----

  /** The longest prefix that fits the text budget. */
  function Bounded(ps: seq<Point>): (r: seq<Point>)
    ensures r <= ps
  {
    if ps == [] then [] else
      var r := Bounded(ps[..|ps| - 1]);
      if |r| == |ps| - 1 && EncodedSize(ps) <= MAX_TEXT_BYTES then ps else r
  }

  lemma {:induction false} BoundedIsLongest(ps: seq<Point>)
    ensures EncodedSize(Bounded(ps)) <= MAX_TEXT_BYTES
    ensures forall k :: |Bounded(ps)| < k <= |ps| ==> EncodedSize(ps[..k]) > MAX_TEXT_BYTES
    ensures Bounded(ps) == [] ==> ps == []
  {
    hide PointSize;
    if ps == [] {
    } else {
      var n := |ps| - 1;
      var init, r := ps[..n], Bounded(ps[..n]);
      BoundedIsLongest(init);
      forall k | |Bounded(ps)| < k <= |ps| ensures EncodedSize(ps[..k]) > MAX_TEXT_BYTES {
        if k <= n {
          assert ps[..k] == init[..k];
        } else {
          assert ps[..k] == ps == init + [ps[n]];
          EncodedPush(init, ps[n]);
          if |r| < n { assert init[..n] == init; }
        }
      }
      if n == 0 { OnePointFits(ps); }
    }
  }

  lemma OnePointFits(ps: seq<Point>)
    requires |ps| == 1
    ensures EncodedSize(ps) <= MAX_TEXT_BYTES
  {
    assert ps[..0] == [];
  }

  function Joined(blocks: seq<Option<seq<Unit>>>): seq<Unit>
    requires forall k :: 0 <= k < |blocks| ==> blocks[k].Some?
  {
    if blocks == [] then [] else blocks[0].value + Joined(blocks[1..])
  }

  function TextOf(c: Content): Option<seq<Unit>> {
    match c
    case Plain(t) => Some(t)
    case Blocks(bs) => if bs != [] && (forall k :: 0 <= k < |bs| ==> bs[k].Some?) then Some(Joined(bs)) else None
    case NoContent => None
  }

  /** The message an entry completes: a user or assistant text with something left to show. */
  function Completed(e: Entry): Option<Message> {
    if e.Bare? || e.role.OtherRole? || TextOf(e.content).None? then None
    else
      var text := Bounded(Scalars(PointsFrom(TextOf(e.content).value, 0)));
      if text == [] then None else Some(Message(e.role, text))
  }

  /** All completed messages, oldest first. */
  function AllCompleted(es: seq<Entry>): seq<Message> {
    if es == [] then []
    else AllCompleted(es[..|es| - 1]) + (var m := Completed(es[|es| - 1]); if m.Some? then [m.value] else [])
  }

  function Newest(ms: seq<Message>, n: nat): seq<Message> {
    if |ms| <= n then ms else ms[|ms| - n..]
  }

  // ---- the size of the JSON text ----

  function RoleName(r: Role): string {
    if r == User then "user" else "assistant"
  }

  function StatusName(s: Status): string {
    match s case Idle => "idle" case Running => "running" case Reconnecting => "reconnecting" case OtherStatus => ""
  }

  /** The fixed pieces of the JSON text are spelled with single quotes for its double quotes. */
  function MessageSize(m: Message): nat {
    |"{'role':'"| + |RoleName(m.role)| + |"','text':'"| + QuotedLength(m.text) + |"'}"|
  }

  /** The messages with the commas between them. */
  function ListSize(ms: seq<Message>): nat {
    if ms == [] then 0 else MessageSize(ms[0]) + (if |ms| > 1 then 1 else 0) + ListSize(ms[1..])
  }

  function PreviewSize(p: Preview): nat {
    |"{'sessionId':'"| + |p.sessionId| + |"','status':'"| + |StatusName(p.status)| + |"','observedAt':"| +
    |Decimal(p.observedAt)| + |",'messages':["| + ListSize(p.messages) + |"]}"|
  }

  predicate Fits(p: Preview) {
    PreviewSize(p) <= MAX_PREVIEW_BYTES
  }

  // ---- trimming ----

  /** Cut the last code point of the oldest message, or the message itself when it has no more than one. */
  function TrimOnce(ms: seq<Message>): seq<Message>
    requires ms != []
  {
    if |ms[0].text| <= 1 then ms[1..]
    else ms[0 := Message(ms[0].role, ms[0].text[..|ms[0].text| - 1])]
  }

  function PointCount(ms: seq<Message>): nat {
    if ms == [] then 0 else |ms[0].text| + 1 + PointCount(ms[1..])
  }

  function Trim(ms: seq<Message>, n: nat): seq<Message> {
    if n == 0 then ms else var t := Trim(ms, n - 1); if t == [] then [] else TrimOnce(t)
  }

  lemma TrimShrinks(ms: seq<Message>)
    requires ms != []
    ensures PointCount(TrimOnce(ms)) < PointCount(ms)
  {
    if |ms[0].text| > 1 { assert TrimOnce(ms)[1..] == ms[1..]; }
  }

  /** Trim until the preview fits or shows nothing. */
  function Trimmed(p: Preview): Preview
    decreases PointCount(p.messages)
  {
    if Fits(p) || p.messages == [] then p
    else
      TrimShrinks(p.messages);
      Trimmed(p.(messages := TrimOnce(p.messages)))
  }

  lemma {:induction false} TrimShift(ms: seq<Message>, n: nat)
    requires ms != []
    ensures Trim(TrimOnce(ms), n) == Trim(ms, n + 1)
  {
    hide TrimOnce;
    if n > 0 { TrimShift(ms, n - 1); } else { assert Trim(ms, 0) == ms; }
  }

  /** Trimming stops at the first form that fits: every longer one is too large. */
  lemma {:induction false} StopsAtFirstFit(p: Preview) returns (n: nat)
    ensures Trimmed(p).messages == Trim(p.messages, n) && (Fits(Trimmed(p)) || Trimmed(p).messages == [])
    ensures forall m :: 0 <= m < n ==> !Fits(p.(messages := Trim(p.messages, m)))
    decreases PointCount(p.messages)
  {
    hide Fits, TrimOnce, PointCount;
    if Fits(p) || p.messages == [] {
      n := 0;
    } else {
      TrimShrinks(p.messages);
      var q := p.(messages := TrimOnce(p.messages));
      var k := StopsAtFirstFit(q);
      n := k + 1;
      TrimShift(p.messages, k);
      forall m | 0 <= m < n ensures !Fits(p.(messages := Trim(p.messages, m))) {
        if m > 0 {
          TrimShift(p.messages, m - 1);
          assert q.(messages := Trim(q.messages, m - 1)) == p.(messages := Trim(p.messages, m));
        }
      }
    }
  }

  /** The messages a preview may show: the newest of `all` in order, only the oldest of them possibly cut to a
      prefix. */
  predicate ShowsNewest(shown: seq<Message>, all: seq<Message>) {
    |shown| <= |all| && var rest := all[|all| - |shown|..];
    shown == [] ||
    (shown[1..] == rest[1..] && shown[0].role == rest[0].role && shown[0].text <= rest[0].text && shown[0].text != [])
  }

  lemma {:induction false} TrimShowsNewest(ms: seq<Message>, n: nat)
    requires forall k :: 0 <= k < |ms| ==> ms[k].text != []
    ensures ShowsNewest(Trim(ms, n), ms)
  {
    if n == 0 {
    } else {
      TrimShowsNewest(ms, n - 1);
      var t := Trim(ms, n - 1);
      if t != [] {
        var rest := ms[|ms| - |t|..];
        if |t[0].text| <= 1 {
          var shorter := ms[|ms| - |t| + 1..];
          assert shorter == rest[1..] == t[1..];
        } else {
          assert TrimOnce(t)[1..] == t[1..];
        }
      }
    }
  }

  // ---- the operations ----

  method BoundedText(value: seq<Unit>) returns (text: seq<Point>)
    ensures text == Bounded(Scalars(PointsFrom(value, 0)))
  {
    hide PointSize, Bounded, EncodedSize, PointsFrom, Scalars;
    text := [];
    var bytes, i := 0, 0;
    ghost var seen: seq<Point> := [];
    NothingBounded();
    while i < |value|
      invariant 0 <= i <= |value| && text == seen && bytes == EncodedSize(text) <= MAX_TEXT_BYTES
      invariant Bounded(text) == text
      invariant seen + Scalars(PointsFrom(value, i)) == Scalars(PointsFrom(value, 0))
      decreases |value| - i
    {
      var point: Point, width: nat := value[i], 1;
      if i + 1 < |value| && High(value[i]) && Low(value[i + 1]) {
        point, width := Combined(value[i], value[i + 1]), 2;
      }
      ghost var later := PointsFrom(value, i + width);
      NextPoint(value, i, point, width);
      if !Surrogate(point) {
        var size := PointSize(point);
        EncodedPush(text, point);
        AppendAssoc(seen, point, Scalars(later));
        if bytes + size > MAX_TEXT_BYTES {
          BoundedStops(text, point, Scalars(later));
          return;
        }
        BoundedPush(text, point);
        text, bytes, seen := text + [point], bytes + size, seen + [point];
      }
      i := i + width;
    }
    NoPoints(value);
    assert seen + [] == seen;
  }

  lemma NextPoint(value: seq<Unit>, i: nat, point: Point, width: nat)
    requires i < |value|
    requires if i + 1 < |value| && High(value[i]) && Low(value[i + 1])
             then point == Combined(value[i], value[i + 1]) && width == 2 else point == value[i] && width == 1
    ensures var later := Scalars(PointsFrom(value, i + width));
            Scalars(PointsFrom(value, i)) == if Surrogate(point) then later else [point] + later
  {
    var later := PointsFrom(value, i + width);
    assert ([point] + later)[1..] == later && [] + Scalars(later) == Scalars(later);
  }

  lemma NoPoints(value: seq<Unit>)
    ensures Scalars(PointsFrom(value, |value|)) == []
  {
  }

  lemma NothingBounded()
    ensures Bounded([]) == [] && EncodedSize([]) == 0
  {
  }

  lemma BoundedPush(t: seq<Point>, p: Point)
    requires Bounded(t) == t && EncodedSize(t + [p]) <= MAX_TEXT_BYTES
    ensures Bounded(t + [p]) == t + [p]
  {
    assert (t + [p])[..|t|] == t;
  }

  /** The first code point over the budget ends the text, whatever follows. */
  lemma {:induction false} BoundedStops(t: seq<Point>, p: Point, later: seq<Point>)
    requires Bounded(t) == t && EncodedSize(t + [p]) > MAX_TEXT_BYTES
    ensures Bounded(t + ([p] + later)) == t
    decreases |later|
  {
    hide EncodedSize;
    var all := t + ([p] + later);
    if later == [] {
      assert all == t + [p] && all[..|all| - 1] == t;
    } else {
      assert all[..|all| - 1] == t + ([p] + later[..|later| - 1]);
      BoundedStops(t, p, later[..|later| - 1]);
    }
  }

  method CompletedMessage(e: Entry) returns (m: Option<Message>)
    ensures m == Completed(e)
  {
    hide Bounded, Scalars, PointsFrom;
    if e.Bare? || e.role.OtherRole? || TextOf(e.content).None? { return None; }
    var text := BoundedText(TextOf(e.content).value);
    m := if text == [] then None else Some(Message(e.role, text));
  }

  /** The last completed messages, at most eight, oldest first. */
  method Collect(es: seq<Entry>) returns (messages: seq<Message>)
    ensures messages == Newest(AllCompleted(es), MAX_MESSAGES)
  {
    hide Completed;
    messages := [];
    var i := |es|;
    assert es[..|es|] == es;
    while i > 0 && |messages| < MAX_MESSAGES
      invariant 0 <= i <= |es| && |messages| <= MAX_MESSAGES
      invariant AllCompleted(es) == AllCompleted(es[..i]) + messages
    {
      i := i - 1;
      var m := CompletedMessage(es[i]);
      assert es[..i + 1][..i] == es[..i];
      if m.Some? { messages := [m.value] + messages; }
    }
    if i == 0 { assert es[..0] == []; }
  }

  predicate SafeId(s: string) {
    1 <= |s| <= 128 &&
    forall k :: 0 <= k < |s| ==>
                  'a' <= s[k] <= 'z' || 'A' <= s[k] <= 'Z' || '0' <= s[k] <= '9' || s[k] == '_' || s[k] == '-'
  }

  predicate Projects(detail: Option<Detail>, process: string, session: string, now: int) {
    SafeId(process) && SafeId(session) && detail.Some? && detail.value.sessionId == session &&
    !detail.value.status.OtherStatus? && 0 <= now <= MAX_SAFE_INTEGER
  }

  /** Project a preview: nothing for a wrong or unknown session, else the newest messages, trimmed. */
  method ProjectMachinePreview(detail: Option<Detail>, process: string, session: string, now: int)
    returns (preview: Option<Preview>)
    ensures preview ==
            if !Projects(detail, process, session, now) then None
            else Some(Trimmed(Preview(session, detail.value.status, now,
                                      Newest(AllCompleted(detail.value.entries), MAX_MESSAGES))))
    ensures preview.Some? <==>
            && SafeId(process) && SafeId(session) && detail.Some? && detail.value.sessionId == session
            && (detail.value.status == Idle || detail.value.status == Running || detail.value.status == Reconnecting)
            && 0 <= now <= MAX_SAFE_INTEGER
    ensures preview.Some? ==>
            var p := preview.value;
            p.sessionId == session && p.status == detail.value.status && p.observedAt == now
  {
    hide Newest, AllCompleted, Fits, SafeId, PointCount;
    if !SafeId(process) || !SafeId(session) { return None; }
    if detail.None? || detail.value.sessionId != session { return None; }
    var status := detail.value.status;
    if status.OtherStatus? || now < 0 || now > MAX_SAFE_INTEGER { return None; }
    var messages := Collect(detail.value.entries);
    ghost var all := messages;
    while !Fits(Preview(session, status, now, messages)) && messages != []
      invariant Trimmed(Preview(session, status, now, messages)) == Trimmed(Preview(session, status, now, all))
      decreases PointCount(messages)
    {
      TrimShrinks(messages);
      messages := if |messages[0].text| <= 1 then messages[1..]
                  else messages[0 := Message(messages[0].role, messages[0].text[..|messages[0].text| - 1])];
    }
    TrimmedKeeps(Preview(session, status, now, all));
    return Some(Preview(session, status, now, messages));
  }

  // ---- the bounds ----

  lemma {:induction false} DigitsBound(n: nat, d: nat, limit: nat)
    requires d >= 1 && n < limit && limit == Pow10(d)
    ensures |Decimal(n)| <= d
    decreases d
  {
    assert d == 1 ==> Pow10(1) == 10;
    if d > 1 && n >= 10 { DigitsBound(n / 10, d - 1, Pow10(d - 1)); }
  }

  function Pow10(d: nat): nat {
    if d == 0 then 1 else 10 * Pow10(d - 1)
  }

  lemma SafeIntegerDigits(n: nat)
    requires n <= MAX_SAFE_INTEGER
    ensures |Decimal(n)| <= 16
  {
    assert Pow10(4) == 10000;
    assert Pow10(8) == 100000000;
    assert Pow10(12) == 1000000000000;
    assert Pow10(16) == 10000000000000000;
    DigitsBound(n, 16, Pow10(16));
  }

  /** A preview without messages always fits, so trimming ends with one that does. */
  lemma EmptyFits(p: Preview)
    requires SafeId(p.sessionId) && p.observedAt <= MAX_SAFE_INTEGER && p.messages == []
    ensures Fits(p)
  {
    SafeIntegerDigits(p.observedAt);
  }

  lemma {:induction false} CompletedAreBounded(es: seq<Entry>, m: Message)
    requires m in AllCompleted(es)
    ensures m.text != [] && EncodedSize(m.text) <= MAX_TEXT_BYTES && !m.role.OtherRole?
  {
    hide EncodedSize;
    var n := |es| - 1;
    if m in AllCompleted(es[..n]) {
      CompletedAreBounded(es[..n], m);
    } else {
      BoundedIsLongest(Scalars(PointsFrom(TextOf(es[n].content).value, 0)));
    }
  }

  lemma {:induction false} PrefixIsShorter(a: seq<Point>, b: seq<Point>)
    requires a <= b
    ensures EncodedSize(a) <= EncodedSize(b)
    decreases |b|
  {
    if a == b {
    } else {
      var n := |b| - 1;
      assert a <= b[..n] && b == b[..n] + [b[n]];
      EncodedPush(b[..n], b[n]);
      PrefixIsShorter(a, b[..n]);
    }
  }

  /** What every projected preview shows: it fits the byte budget, each text fits its own, and the messages are the
      newest completed ones in order, with only the oldest shown possibly shortened to a prefix. */
  lemma PreviewIsBounded(es: seq<Entry>, session: string, status: Status, at: nat)
    requires SafeId(session) && at <= MAX_SAFE_INTEGER
    ensures var p := Trimmed(Preview(session, status, at, Newest(AllCompleted(es), MAX_MESSAGES)));
            && Fits(p) && ShowsNewest(p.messages, AllCompleted(es)) && |p.messages| <= MAX_MESSAGES
            && forall k :: 0 <= k < |p.messages| ==>
                             1 <= |p.messages[k].text| && EncodedSize(p.messages[k].text) <= MAX_TEXT_BYTES
  {
    hide EncodedSize, Fits, SafeId, Trimmed, Trim;
    var done := AllCompleted(es);
    var all := Newest(done, MAX_MESSAGES);
    var p := Trimmed(Preview(session, status, at, all));
    var n := StopsAtFirstFit(Preview(session, status, at, all));
    TrimmedKeeps(Preview(session, status, at, all));
    forall k | 0 <= k < |done| ensures done[k].text != [] && EncodedSize(done[k].text) <= MAX_TEXT_BYTES {
      CompletedAreBounded(es, done[k]);
    }
    if p.messages == [] { EmptyFits(p); }
    TrimShowsNewest(all, n);
    var d, s := |done| - |p.messages|, |all| - |p.messages|;
    assert all[s..] == done[d..];
    forall k | 0 <= k < |p.messages|
      ensures 1 <= |p.messages[k].text| && EncodedSize(p.messages[k].text) <= MAX_TEXT_BYTES {
      if k == 0 {
        PrefixIsShorter(p.messages[0].text, all[s..][0].text);
        assert all[s..][0] == done[d];
      } else {
        assert p.messages[k] == p.messages[1..][k - 1] == all[s..][1..][k - 1] == done[d + k];
      }
    }
  }

  lemma {:induction false} TrimmedKeeps(p: Preview)
    ensures Trimmed(p).sessionId == p.sessionId && Trimmed(p).status == p.status
    ensures Trimmed(p).observedAt == p.observedAt
    decreases PointCount(p.messages)
  {
    hide Fits, TrimOnce, PointCount;
    if !Fits(p) && p.messages != [] {
      TrimShrinks(p.messages);
      TrimmedKeeps(p.(messages := TrimOnce(p.messages)));
    }
  }

  lemma TrimOnceIsSmaller(p: Preview)
    requires p.messages != [] && forall k :: 0 <= k < |p.messages| ==> p.messages[k].text != []
    ensures PreviewSize(p.(messages := TrimOnce(p.messages))) < PreviewSize(p)
    ensures forall k :: 0 <= k < |TrimOnce(p.messages)| ==> TrimOnce(p.messages)[k].text != []
  {
    var ms := p.messages;
    if |ms[0].text| > 1 { assert TrimOnce(ms)[1..] == ms[1..]; }
  }

  lemma {:induction false} TrimIsSmaller(p: Preview, n: nat, m: nat)
    requires n <= m && forall k :: 0 <= k < |p.messages| ==> p.messages[k].text != []
    ensures forall k :: 0 <= k < |Trim(p.messages, m)| ==> Trim(p.messages, m)[k].text != []
    ensures PreviewSize(p.(messages := Trim(p.messages, m))) <= PreviewSize(p.(messages := Trim(p.messages, n)))
    ensures Trim(p.messages, n) == [] ==> Trim(p.messages, m) == []
    decreases m
  {
    hide PreviewSize, TrimOnce;
    if m == 0 {
    } else {
      var t := Trim(p.messages, m - 1);
      TrimIsSmaller(p, if n < m then n else m - 1, m - 1);
      if t != [] { TrimOnceIsSmaller(p.(messages := t)); }
    }
  }

  /** The preview shown is the largest of all trimmed forms that fit. */
  lemma ShownIsLargestThatFits(p: Preview, m: nat)
    requires forall k :: 0 <= k < |p.messages| ==> p.messages[k].text != []
    requires Fits(p.(messages := Trim(p.messages, m)))
    ensures Fits(Trimmed(p)) && PreviewSize(p.(messages := Trim(p.messages, m))) <= PreviewSize(Trimmed(p))
  {
    hide PreviewSize, Trim, Trimmed;
    var n := StopsAtFirstFit(p);
    TrimmedKeeps(p);
    assert Trimmed(p) == p.(messages := Trim(p.messages, n));
    if n <= m { TrimIsSmaller(p, n, m); }
  }
}
