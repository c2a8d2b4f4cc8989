/**
 * What the bounded preview shows (backend/machine-preview.ts), said of the UTF-16 text of the entries, of the JSON text
 * that is sent, and of every shorter or longer preview of the same messages.
 */
module PreviewTexts {
  import opened Wrappers
  import opened TextEncoding
  import opened MachinePreview

  // ---- the code points of a text ----

  /** UTF-16: one unit, or two for a code point beyond the first plane. */
  function UnitsOf(p: Point): (u: seq<Unit>)
    ensures 1 <= |u| <= 2
  {
    if p < 0x10000 then [p]
    else [0xD800 + (p - 0x10000) / 0x400, 0xDC00 + (p - 0x10000) % 0x400]
  }

  function AllUnits(ps: seq<Point>): seq<Unit> {
    if ps == [] then [] else UnitsOf(ps[0]) + AllUnits(ps[1..])
  }

  /** The two halves of one code point, taken for two. */
  predicate SplitPair(ps: seq<Point>, k: nat) {
    k + 1 < |ps| && 0xD800 <= ps[k] < 0xDC00 && 0xDC00 <= ps[k + 1] < 0xE000
  }

  ghost predicate NoPairSplit(ps: seq<Point>) {
    forall k: nat :: !SplitPair(ps, k)
  }

  /** The code points of a text are those whose units are the text, with no pair of surrogates taken apart. */
  lemma PointsExactly(s: seq<Unit>, ps: seq<Point>)
    ensures PointsFrom(s, 0) == ps <==> AllUnits(ps) == s && NoPairSplit(ps)
  {
    PointsSpell(s, 0);
    assert s[0..] == s;
    if AllUnits(ps) == s && NoPairSplit(ps) { SpelledOnce(s, 0, ps); }
  }

  lemma CombinedUnits(h: Unit, l: Unit)
    requires High(h) && Low(l)
    ensures UnitsOf(Combined(h, l)) == [h, l] && Combined(h, l) >= 0x10000
  {
  }

  lemma {:induction false} PointsSpell(s: seq<Unit>, i: nat)
    requires i <= |s|
    ensures AllUnits(PointsFrom(s, i)) == s[i..] && NoPairSplit(PointsFrom(s, i))
    ensures i < |s| ==> PointsFrom(s, i) != []
    ensures i < |s| && PointsFrom(s, i)[0] < 0x10000 ==> PointsFrom(s, i)[0] == s[i]
    decreases |s| - i
  {
    hide Combined, UnitsOf;
    if i == |s| {
    } else if i + 1 < |s| && High(s[i]) && Low(s[i + 1]) {
      PointsSpell(s, i + 2);
      CombinedUnits(s[i], s[i + 1]);
      FrontSplit(Combined(s[i], s[i + 1]), PointsFrom(s, i + 2));
      assert s[i..] == [s[i], s[i + 1]] + s[i + 2..];
    } else {
      PointsSpell(s, i + 1);
      OneUnit(s[i]);
      FrontSplit(s[i], PointsFrom(s, i + 1));
      assert s[i..] == [s[i]] + s[i + 1..];
    }
  }

  lemma OneUnit(u: Unit)
    ensures UnitsOf(u) == [u]
  {
  }

  lemma FrontSplit(p: Point, ps: seq<Point>)
    requires NoPairSplit(ps)
    ensures AllUnits([p] + ps) == UnitsOf(p) + AllUnits(ps)
    ensures NoPairSplit([p] + ps) <==> !SplitPair([p] + ps, 0)
  {
    var all := [p] + ps;
    assert all[1..] == ps;
    forall k: nat | k > 0 ensures !SplitPair(all, k) { assert !SplitPair(ps, k - 1); }
  }

  /** No other code points have these units. */
  lemma {:induction false} SpelledOnce(s: seq<Unit>, i: nat, ps: seq<Point>)
    requires i <= |s| && AllUnits(ps) == s[i..] && NoPairSplit(ps)
    ensures PointsFrom(s, i) == ps
    decreases |ps|
  {
    if ps == [] {
      assert AllUnits(ps) == [];
    } else {
      var p, rest, u := ps[0], ps[1..], UnitsOf(ps[0]);
      assert ps == [p] + rest;
      assert s[i..] == u + AllUnits(rest);
      assert s[i..][0] == u[0] == s[i] && s[i..][|u|..] == s[i + |u|..] == AllUnits(rest);
      forall k: nat ensures !SplitPair(rest, k) { assert !SplitPair(ps, k + 1); }
      SpelledOnce(s, i + |u|, rest);
      if |u| == 2 {
        assert s[i..][1] == u[1] == s[i + 1];
        UnitsCombine(p);
      } else {
        LonePoint(s, i, ps);
      }
    }
  }

  lemma UnitsCombine(p: Point)
    requires p >= 0x10000
    ensures var u := UnitsOf(p); |u| == 2 && High(u[0]) && Low(u[1]) && Combined(u[0], u[1]) == p
  {
  }

  /** A code point that stands for itself is not the first half of a pair. */
  lemma LonePoint(s: seq<Unit>, i: nat, ps: seq<Point>)
    requires ps != [] && i < |s| && ps[0] < 0x10000 && s[i] == ps[0] && NoPairSplit(ps)
    requires s[i + 1..] == AllUnits(ps[1..])
    ensures !(i + 1 < |s| && High(s[i]) && Low(s[i + 1]))
  {
    if i + 1 < |s| && High(s[i]) {
      assert ps[1..] != [];
      assert s[i + 1..][0] == UnitsOf(ps[1])[0];
      assert !SplitPair(ps, 0);
    }
  }

  /** What is shown of a text has no surrogate, and every other code point in its order. */
  lemma {:induction false} ScalarsPush(ps: seq<Point>, p: Point)
    ensures Scalars([]) == []
    ensures Scalars(ps + [p]) == Scalars(ps) + if 0xD800 <= p < 0xE000 then [] else [p]
    decreases |ps|
  {
    var all := ps + [p];
    if ps == [] {
      assert all[1..] == [];
    } else {
      assert all[1..] == ps[1..] + [p];
      ScalarsPush(ps[1..], p);
    }
  }

  // ---- the messages ----

  /** The text of a content: a string, or nothing but text blocks, at least one, one after the other. */
  ghost predicate Says(c: Content, s: seq<Unit>) {
    match c
    case Plain(t) => s == t
    case Blocks(bs) => bs != [] && exists ts :: TextBlocks(bs, ts) && s == Concat(ts)
    case NoContent => false
  }

  predicate TextBlocks(bs: seq<Option<seq<Unit>>>, ts: seq<seq<Unit>>) {
    |bs| == |ts| && forall k :: 0 <= k < |bs| ==> bs[k] == Some(ts[k])
  }

  function Concat(ts: seq<seq<Unit>>): seq<Unit> {
    if ts == [] then [] else Concat(ts[..|ts| - 1]) + ts[|ts| - 1]
  }

  lemma TextExactly(c: Content, s: seq<Unit>)
    ensures TextOf(c) == Some(s) <==> Says(c, s)
  {
    match c
    case Plain(t) =>
    case NoContent =>
    case Blocks(bs) =>
      if forall k :: 0 <= k < |bs| ==> bs[k].Some? {
        var texts := seq(|bs|, k requires 0 <= k < |bs| => bs[k].value);
        assert TextBlocks(bs, texts);
        forall ts | TextBlocks(bs, ts) ensures ts == texts {
          assert forall k :: 0 <= k < |bs| ==> ts[k] == texts[k];
        }
        JoinedIsConcat(bs, texts);
      } else {
        var k :| 0 <= k < |bs| && bs[k].None?;
        forall ts ensures !TextBlocks(bs, ts) {
          if |ts| == |bs| { assert bs[k] != Some(ts[k]); }
        }
      }
  }

  lemma {:induction false} JoinedIsConcat(bs: seq<Option<seq<Unit>>>, ts: seq<seq<Unit>>)
    requires TextBlocks(bs, ts)
    ensures (forall k :: 0 <= k < |bs| ==> bs[k].Some?) && Joined(bs) == Concat(ts)
    decreases |bs|
  {
    if bs == [] {
    } else {
      JoinedIsConcat(bs[1..], ts[1..]);
      ConcatFront(ts[0], ts[1..]);
      assert ts == [ts[0]] + ts[1..];
    }
  }

  lemma {:induction false} ConcatFront(t: seq<Unit>, ts: seq<seq<Unit>>)
    ensures Concat([t] + ts) == t + Concat(ts)
    decreases |ts|
  {
    var all, n := [t] + ts, |ts| - 1;
    if ts == [] {
      assert all[..0] == [] && Concat([]) == [];
    } else {
      assert all[..|all| - 1] == [t] + ts[..n];
      ConcatFront(t, ts[..n]);
    }
  }

  /** The longest part of a text that fits 512 bytes. */
  ghost predicate FitsLongest(shown: seq<Point>, ps: seq<Point>) {
    shown <= ps && EncodedSize(shown) <= 512 && forall k :: |shown| < k <= |ps| ==> EncodedSize(ps[..k]) > 512
  }

  /** An entry shows a message exactly when a user or the assistant says something in it that is not all surrogates, and
      then the longest part of it that fits. */
  lemma CompletedExactly(e: Entry, m: Message)
    ensures Completed(e) == Some(m) <==>
            && e.Carries? && (e.role == User || e.role == Assistant) && m.role == e.role && m.text != []
            && exists s :: Says(e.content, s) && FitsLongest(m.text, Scalars(PointsFrom(s, 0)))
  {
    hide PointsFrom, Scalars, Bounded, EncodedSize, Says, TextOf;
    forall s ensures e.Carries? ==> (TextOf(e.content) == Some(s) <==> Says(e.content, s)) {
      if e.Carries? { TextExactly(e.content, s); }
    }
    if e.Carries? && TextOf(e.content).Some? {
      var ps := Scalars(PointsFrom(TextOf(e.content).value, 0));
      forall shown ensures FitsLongest(shown, ps) <==> shown == Bounded(ps) { LongestIsBounded(shown, ps); }
    }
  }

  lemma LongestIsBounded(shown: seq<Point>, ps: seq<Point>)
    ensures FitsLongest(shown, ps) <==> shown == Bounded(ps)
  {
    hide EncodedSize;
    BoundedIsLongest(ps);
    var b := Bounded(ps);
    hide Bounded;
    assert b == ps[..|b|];
    if FitsLongest(shown, ps) {
      assert shown == ps[..|shown|];
      assert !(|b| < |shown|) && !(|shown| < |b|);
    }
  }

  /** Messages are shown in the order of their entries, and of more than eight the last eight. */
  lemma {:induction false} CollectedInOrder(e: Entry, es: seq<Entry>)
    ensures AllCompleted([]) == []
    ensures AllCompleted([e] + es) == (if Completed(e).Some? then [Completed(e).value] else []) + AllCompleted(es)
    decreases |es|
  {
    hide Completed;
    var all, n := [e] + es, |es| - 1;
    if es == [] {
      assert all[..0] == [];
    } else {
      assert all[..|all| - 1] == [e] + es[..n];
      CollectedInOrder(e, es[..n]);
    }
  }

  lemma NewestExactly(ms: seq<Message>)
    ensures var shown := Newest(ms, MAX_MESSAGES);
            |shown| == (if |ms| < 8 then |ms| else 8) && exists older :: ms == older + shown
  {
    var shown := Newest(ms, MAX_MESSAGES);
    assert ms == ms[..|ms| - |shown|] + shown;
  }

  // ---- the JSON text ----

  /** Two hexadecimal digits. */
  function HexDigit(n: nat): Point
    requires n < 16
  {
    if n < 10 then '0' as int + n else 'a' as int + (n - 10)
  }

  /** A code point inside a JSON string (section 25.5.2.3 of ECMA-262). */
  function Escaped(p: Point): Text {
    var slash: Point := '\\' as int;
    if p == '\"' as int || p == slash then [slash, p]
    else if p == 8 then [slash, 'b' as int]
    else if p == 9 then [slash, 't' as int]
    else if p == 10 then [slash, 'n' as int]
    else if p == 12 then [slash, 'f' as int]
    else if p == 13 then [slash, 'r' as int]
    else if p < 0x20 then [slash, 'u' as int, '0' as int, '0' as int, HexDigit(p / 16), HexDigit(p % 16)]
    else [p]
  }

  function Quote(ps: seq<Point>): Text {
    if ps == [] then [] else Quote(ps[..|ps| - 1]) + Escaped(ps[|ps| - 1])
  }

  predicate Ascii(s: string) {
    forall k :: 0 <= k < |s| ==> s[k] as int < 128
  }

  function Plain(s: string): Text
    requires Ascii(s)
  {
    seq(|s|, k requires 0 <= k < |s| => s[k] as int)
  }

  function MessageText(m: Message): Text {
    Plain("{\"role\":\"") + Plain(if m.role == User then "user" else "assistant") + Plain("\",\"text\":\"") +
    Quote(m.text) + Plain("\"}")
  }

  function ListText(ms: seq<Message>): Text {
    if ms == [] then [] else if |ms| == 1 then MessageText(ms[0])
    else MessageText(ms[0]) + Plain(",") + ListText(ms[1..])
  }

  function StatusText(s: Status): string
    requires !s.OtherStatus?
  {
    match s case Idle => "idle" case Running => "running" case Reconnecting => "reconnecting"
  }

  /** What is sent. */
  function PreviewText(p: Preview): Text
    requires Ascii(p.sessionId) && !p.status.OtherStatus?
  {
    Plain("{\"sessionId\":\"") + Plain(p.sessionId) + Plain("\",\"status\":\"") + Plain(StatusText(p.status)) +
    Plain("\",\"observedAt\":") + Plain(Decimal(p.observedAt)) + Plain(",\"messages\":[") + ListText(p.messages) +
    Plain("]}")
  }

  lemma {:induction false} SizeConcat(a: Text, b: Text)
    ensures EncodedSize(a + b) == EncodedSize(a) + EncodedSize(b)
    decreases |a|
  {
    hide PointSize;
    if a == [] {
      assert a + b == b;
    } else {
      assert (a + b)[1..] == a[1..] + b;
      SizeConcat(a[1..], b);
    }
  }

  lemma PlainSize(s: string)
    requires Ascii(s)
    ensures EncodedSize(Plain(s)) == |s|
  {
    SmallSize(Plain(s));
  }

  lemma EscapedSize(p: Point)
    ensures EncodedSize(Escaped(p)) == Quoted(p)
  {
    var e := Escaped(p);
    if |e| > 1 {
      SmallSize(e);
    } else {
      assert e[1..] == [];
    }
  }

  lemma {:induction false} SmallSize(t: Text)
    requires forall k :: 0 <= k < |t| ==> t[k] < 128
    ensures EncodedSize(t) == |t|
    decreases |t|
  {
    if t == [] {
    } else {
      SmallSize(t[1..]);
    }
  }

  lemma {:induction false} QuoteSize(ps: seq<Point>)
    ensures EncodedSize(Quote(ps)) == QuotedLength(ps)
    decreases |ps|
  {
    hide Escaped, Quoted;
    if ps == [] {
    } else {
      var n := |ps| - 1;
      QuoteSize(ps[..n]);
      EscapedSize(ps[n]);
      SizeConcat(Quote(ps[..n]), Escaped(ps[n]));
    }
  }

  lemma MessageTextSize(m: Message)
    ensures EncodedSize(MessageText(m)) == MessageSize(m)
  {
    hide EncodedSize, Quote, QuotedLength, Plain;
    var a, b, c := "{\"role\":\"", if m.role == User then "user" else "assistant", "\",\"text\":\"";
    QuoteSize(m.text);
    PlainSize(a);
    PlainSize(b);
    PlainSize(c);
    PlainSize("\"}");
    SizeConcat(Plain(a), Plain(b));
    SizeConcat(Plain(a) + Plain(b), Plain(c));
    SizeConcat(Plain(a) + Plain(b) + Plain(c), Quote(m.text));
    SizeConcat(Plain(a) + Plain(b) + Plain(c) + Quote(m.text), Plain("\"}"));
  }

  lemma {:induction false} ListTextSize(ms: seq<Message>)
    ensures EncodedSize(ListText(ms)) == ListSize(ms)
    decreases |ms|
  {
    hide MessageText, MessageSize, Plain;
    if ms == [] {
    } else {
      MessageTextSize(ms[0]);
      ListTextSize(ms[1..]);
      PlainSize(",");
      SizeConcat(MessageText(ms[0]), Plain(","));
      SizeConcat(MessageText(ms[0]) + Plain(","), ListText(ms[1..]));
      hide EncodedSize;
    }
  }

  /** The size that is compared with the budget is the number of bytes of the JSON text. */
  lemma SizeIsOfText(p: Preview)
    requires Ascii(p.sessionId) && !p.status.OtherStatus?
    ensures EncodedSize(PreviewText(p)) == PreviewSize(p)
    ensures Fits(p) <==> EncodedSize(PreviewText(p)) <= 5800
  {
    hide EncodedSize, ListText, ListSize, Plain, Decimal;
    var a, b, c, d := "{\"sessionId\":\"", "\",\"status\":\"", "\",\"observedAt\":", ",\"messages\":[";
    var t1 := Plain(a) + Plain(p.sessionId);
    var t2 := t1 + Plain(b);
    var t3 := t2 + Plain(StatusText(p.status));
    var t4 := t3 + Plain(c);
    var t5 := t4 + Plain(Decimal(p.observedAt));
    var t6 := t5 + Plain(d);
    PlainSize(a);
    PlainSize(p.sessionId);
    PlainSize(b);
    PlainSize(StatusText(p.status));
    PlainSize(c);
    PlainSize(Decimal(p.observedAt));
    PlainSize(d);
    PlainSize("]}");
    ListTextSize(p.messages);
    SizeConcat(Plain(a), Plain(p.sessionId));
    SizeConcat(t1, Plain(b));
    SizeConcat(t2, Plain(StatusText(p.status)));
    SizeConcat(t3, Plain(c));
    SizeConcat(t4, Plain(Decimal(p.observedAt)));
    SizeConcat(t5, Plain(d));
    SizeConcat(t6, ListText(p.messages));
    SizeConcat(t6 + ListText(p.messages), Plain("]}"));
  }

  // ---- the largest preview ----

  predicate AllSay(ms: seq<Message>) {
    forall k :: 0 <= k < |ms| ==> ms[k].text != []
  }

  /** Trimming comes by every preview that shows the newest messages and cuts none but the oldest shown. */
  lemma {:induction false} EveryFormIsTrimmed(ms: seq<Message>, shown: seq<Message>) returns (n: nat)
    requires AllSay(ms) && ShowsNewest(shown, ms)
    ensures Trim(ms, n) == shown
    decreases |ms| - |shown|, if shown == [] then 0 else |ms[|ms| - |shown|].text| - |shown[0].text|
  {
    var d := |ms| - |shown|;
    if shown != [] && shown[0].text != ms[d].text {
      var longer := shown[0 := Message(shown[0].role, ms[d].text[..|shown[0].text| + 1])];
      assert longer[1..] == shown[1..];
      n := EveryFormIsTrimmed(ms, longer);
      n := n + 1;
      assert longer[0].text[..|longer[0].text| - 1] == shown[0].text;
      assert TrimOnce(longer) == shown;
    } else if d > 0 {
      var m := ms[d - 1];
      var longer := [Message(m.role, m.text[..1])] + shown;
      WholeTail(ms, shown);
      assert longer[1..] == shown == ms[d..] == ms[d - 1..][1..];
      n := EveryFormIsTrimmed(ms, longer);
      n := n + 1;
      assert TrimOnce(longer) == shown;
    } else {
      WholeTail(ms, shown);
      n := 0;
    }
  }

  lemma WholeTail(ms: seq<Message>, shown: seq<Message>)
    requires ShowsNewest(shown, ms) && (shown != [] ==> shown[0].text == ms[|ms| - |shown|].text)
    ensures shown == ms[|ms| - |shown|..]
  {
    var rest := ms[|ms| - |shown|..];
    if shown != [] {
      assert shown[0] == rest[0] && shown == [shown[0]] + shown[1..] && rest == [rest[0]] + rest[1..];
    }
  }

  /** More messages, or as many and more of the oldest one. */
  predicate ShowsMore(a: seq<Message>, b: seq<Message>) {
    |a| > |b| || (|a| == |b| && a != [] && |a[0].text| > |b[0].text|)
  }

  lemma {:induction false} TrimShowsLess(ms: seq<Message>, n: nat, m: nat)
    requires n <= m
    ensures !ShowsMore(Trim(ms, m), Trim(ms, n))
    decreases m
  {
    if n < m { TrimShowsLess(ms, n, m - 1); }
  }

  /** The preview fits, and no preview that shows more of the newest messages does. */
  lemma LargestIsShown(p: Preview, shown: seq<Message>)
    requires AllSay(p.messages) && SafeId(p.sessionId) && p.observedAt <= MAX_SAFE_INTEGER
    requires ShowsNewest(shown, p.messages) && ShowsMore(shown, Trimmed(p).messages)
    ensures Fits(Trimmed(p)) && ShowsNewest(Trimmed(p).messages, p.messages) && !Fits(p.(messages := shown))
  {
    hide Fits, SafeId, ShowsMore, ShowsNewest, Trim;
    var n := StopsAtFirstFit(p);
    var m := EveryFormIsTrimmed(p.messages, shown);
    TrimShowsNewest(p.messages, n);
    TrimmedKeeps(p);
    if n <= m { TrimShowsLess(p.messages, n, m); }
    if Trimmed(p).messages == [] { EmptyFits(Trimmed(p)); }
  }
}
