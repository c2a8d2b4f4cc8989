/**
 * The incremental transcript parser (backend/session-store.ts).
 *
 * Lines are fed oldest first. A tool result is merged into the newest tool message that
 * carries its call id, or becomes a message of its own when there is none. JSON decoding is
 * not modelled: a `Line` is what the decoder made of one row of the file.
 */
module SessionParser {
  import opened Wrappers

  /** One element of an assistant message's content array; `Broken` is one whose inspection throws. */
  datatype Part =
    | Thinking(thinking: string)
    | Text(text: string)
    | ToolCall(name: Option<string>, id: Option<string>, args: string)
    | OtherPart
    | Broken

  datatype Line =
    | Blank
    | Malformed
    | NotMessage
    | User(text: string, ts: Option<string>)
    | AssistantText(text: string, ts: Option<string>)
    | AssistantParts(parts: seq<Part>, ts: Option<string>)
    | ToolResult(id: Option<string>, toolName: Option<string>, text: string, isError: bool, ts: Option<string>)
    | OtherRole

  datatype Role = UserRole | AssistantRole | ThinkingRole | ToolRole

  datatype Meta = Meta(toolName: Option<string>, toolCallId: Option<string>, args: Option<string>,
                       result: Option<string>, isError: Option<bool>)

  datatype ChatMessage = ChatMessage(role: Role, content: string, ts: Option<string>, meta: Option<Meta>)

  const RESULT_LIMIT := 5000

  function Clip(text: string): string {
    if |text| <= RESULT_LIMIT then text else text[..RESULT_LIMIT]
  }

  function ToolTitle(name: Option<string>): string {
    "🔧 " + (if name.Some? && name.value != "" then name.value else "tool")
  }

  function CallMessage(part: Part, ts: Option<string>): ChatMessage
    requires part.ToolCall?
  {
    ChatMessage(ToolRole, ToolTitle(part.name), ts, Some(Meta(part.name, part.id, Some(part.args), None, None)))
  }

  // ---- what one line does to the message list ----

  /** Thinking blocks are pushed until a part that cannot be inspected stops the line. */
  function Thoughts(parts: seq<Part>, ts: Option<string>): seq<ChatMessage> {
    if parts == [] || parts[0].Broken? then []
    else (if parts[0].Thinking? && parts[0].thinking != ""
          then [ChatMessage(ThinkingRole, parts[0].thinking, ts, None)] else []) + Thoughts(parts[1..], ts)
  }

  function JoinedText(parts: seq<Part>): string {
    if parts == [] then "" else (if parts[0].Text? then parts[0].text else "") + JoinedText(parts[1..])
  }

  function Calls(parts: seq<Part>, ts: Option<string>): seq<ChatMessage> {
    if parts == [] then []
    else (if parts[0].ToolCall? then [CallMessage(parts[0], ts)] else []) + Calls(parts[1..], ts)
  }

  function TextMessage(text: string, ts: Option<string>): seq<ChatMessage> {
    if text == "" then [] else [ChatMessage(AssistantRole, text, ts, None)]
  }

  /** The messages a line pushes; a tool result is not of this kind. */
  function Pushed(line: Line): seq<ChatMessage> {
    match line
    case User(text, ts) => if text == "" then [] else [ChatMessage(UserRole, text, ts, None)]
    case AssistantText(text, ts) => TextMessage(text, ts)
    case AssistantParts(parts, ts) =>
      Thoughts(parts, ts) + (if Broken in parts then [] else TextMessage(JoinedText(parts), ts) + Calls(parts, ts))
    case _ => []
  }

  predicate Carries(m: ChatMessage, id: Option<string>) {
    m.role.ToolRole? && m.meta.Some? && m.meta.value.toolCallId == id
  }

  /** Index of the newest tool message with this call id, or -1. */
  function NewestMatch(messages: seq<ChatMessage>, id: Option<string>): (k: int)
    ensures -1 <= k < |messages|
    ensures 0 <= k ==> Carries(messages[k], id)
    ensures forall j :: k < j < |messages| ==> !Carries(messages[j], id)
  {
    if messages == [] then -1
    else if Carries(messages[|messages| - 1], id) then |messages| - 1
    else NewestMatch(messages[..|messages| - 1], id)
  }

  function WithResult(m: ChatMessage, text: string, isError: bool): ChatMessage
    requires m.meta.Some?
  {
    m.(meta := Some(m.meta.value.(result := Some(Clip(text)), isError := Some(isError))))
  }

  function Orphan(line: Line): ChatMessage
    requires line.ToolResult?
  {
    ChatMessage(ToolRole, ToolTitle(line.toolName), line.ts,
                Some(Meta(None, None, None, Some(Clip(line.text)), Some(line.isError))))
  }

  function Fed(messages: seq<ChatMessage>, line: Line): seq<ChatMessage> {
    if line.ToolResult? then
      var k := NewestMatch(messages, line.id);
      if k >= 0 then messages[k := WithResult(messages[k], line.text, line.isError)] else messages + [Orphan(line)]
    else messages + Pushed(line)
  }

  function FedAll(messages: seq<ChatMessage>, lines: seq<Line>): seq<ChatMessage>
    decreases |lines|
  {
    if lines == [] then messages else FedAll(Fed(messages, lines[0]), lines[1..])
  }

  function Parse(lines: seq<Line>): seq<ChatMessage> {
    FedAll([], lines)
  }

  // ---- the parser object ----

  class SessionLineParser {
    var messages: seq<ChatMessage>

    constructor ()
      ensures messages == []
    {
      messages := [];
    }

    method Feed(line: Line)
      modifies this
      ensures messages == Fed(old(messages), line)
    {
      match line
      case User(text, ts) =>
        if text != "" { messages := messages + [ChatMessage(UserRole, text, ts, None)]; }
      case AssistantText(text, ts) =>
        if text != "" { messages := messages + [ChatMessage(AssistantRole, text, ts, None)]; }
      case AssistantParts(parts, ts) =>
        FeedAssistant(parts, ts);
      case ToolResult(id, toolName, text, isError, ts) =>
        var k := |messages| - 1;
        while k >= 0 && !Carries(messages[k], id)
          invariant -1 <= k < |messages|
          invariant NewestMatch(messages, id) == NewestMatch(messages[..k + 1], id)
        {
          assert messages[..k + 1][..k] == messages[..k];
          k := k - 1;
        }
        if k >= 0 {
          messages := messages[k := WithResult(messages[k], text, isError)];
        } else {
          messages := messages + [Orphan(line)];
        }
      case _ =>
    }

    method FeedAssistant(parts: seq<Part>, ts: Option<string>)
      modifies this
      ensures messages == old(messages) + Pushed(AssistantParts(parts, ts))
    {
      var broken := PushThoughts(parts, ts);
      if !broken {
        var text := JoinedText(parts);
        if text != "" { messages := messages + [ChatMessage(AssistantRole, text, ts, None)]; }
        PushCalls(parts, ts);
        assert messages == old(messages) + (Thoughts(parts, ts) + (TextMessage(text, ts) + Calls(parts, ts)));
      }
    }

    method PushThoughts(parts: seq<Part>, ts: Option<string>) returns (broken: bool)
      modifies this
      ensures messages == old(messages) + Thoughts(parts, ts)
      ensures broken <==> Broken in parts
    {
      ghost var before := messages;
      assert parts[0..] == parts;
      for i := 0 to |parts|
        invariant Broken !in parts[..i]
        invariant messages + Thoughts(parts[i..], ts) == before + Thoughts(parts, ts)
      {
        ghost var rest := Thoughts(parts[i + 1..], ts);
        assert parts[i..][1..] == parts[i + 1..];
        if parts[i].Broken? { return true; }
        if parts[i].Thinking? && parts[i].thinking != "" {
          var m := ChatMessage(ThinkingRole, parts[i].thinking, ts, None);
          AppendAssoc(messages, m, rest);
          messages := messages + [m];
        } else {
          assert [] + rest == rest;
        }
      }
      return false;
    }

    method PushCalls(parts: seq<Part>, ts: Option<string>)
      modifies this
      ensures messages == old(messages) + Calls(parts, ts)
    {
      ghost var pushed := [];
      for i := 0 to |parts|
        invariant messages == old(messages) + pushed
        invariant pushed + Calls(parts[i..], ts) == Calls(parts, ts)
      {
        assert parts[i..][1..] == parts[i + 1..];
        if parts[i].ToolCall? {
          messages := messages + [CallMessage(parts[i], ts)];
          pushed := pushed + [CallMessage(parts[i], ts)];
        }
      }
    }
  }

  /** The whole-file parse keeps the last `limit` messages; a limit of 0 keeps them all (slice(-0)). */
  method ParseSessionMessages(lines: seq<Line>, limit: nat) returns (r: seq<ChatMessage>)
    ensures limit == 0 || |Parse(lines)| < limit ==> r == Parse(lines)
    ensures 0 < limit <= |Parse(lines)| ==> |r| == limit && r == Parse(lines)[|Parse(lines)| - limit..]
  {
    var parser := new SessionLineParser();
    for i := 0 to |lines|
      invariant FedAll(parser.messages, lines[i..]) == Parse(lines)
    {
      parser.Feed(lines[i]);
    }
    r := parser.messages;
    if 0 < limit < |r| { r := r[|r| - limit..]; }
  }

  // ---- splitting a transcript ----

  lemma {:induction false} FedAllConcat(messages: seq<ChatMessage>, a: seq<Line>, b: seq<Line>)
    ensures FedAll(messages, a + b) == FedAll(FedAll(messages, a), b)
    decreases |a|
  {
    if a == [] {
      assert a + b == b;
    } else {
      assert (a + b)[0] == a[0] && (a + b)[1..] == a[1..] + b;
      FedAllConcat(Fed(messages, a[0]), a[1..], b);
    }
  }

  /** The call ids a list of lines can offer to later tool results. */
  ghost predicate Offers(lines: seq<Line>, id: Option<string>) {
    exists j :: 0 <= j < |lines| && LineOffers(lines[j], id)
  }

  predicate LineOffers(line: Line, id: Option<string>) {
    line.AssistantParts? && Broken !in line.parts &&
    exists k :: 0 <= k < |line.parts| && line.parts[k].ToolCall? && line.parts[k].id == id
  }

  ghost predicate Holds(messages: seq<ChatMessage>, id: Option<string>) {
    exists j :: 0 <= j < |messages| && Carries(messages[j], id)
  }

  predicate Identified(lines: seq<Line>) {
    forall j :: 0 <= j < |lines| && lines[j].ToolResult? ==> lines[j].id.Some?
  }

  /** No tool result of `b` needs a call that only `a` contains. */
  ghost predicate NoStraddle(a: seq<Line>, b: seq<Line>) {
    forall j :: 0 <= j < |b| && b[j].ToolResult? && Offers(a, b[j].id) ==> Offers(b[..j], b[j].id)
  }

  lemma {:induction false} CallsCarry(parts: seq<Part>, ts: Option<string>, id: Option<string>)
    ensures Holds(Calls(parts, ts), id) <==> exists k :: 0 <= k < |parts| && parts[k].ToolCall? && parts[k].id == id
  {
    if parts == [] {
    } else {
      CallsCarry(parts[1..], ts, id);
      var rest := Calls(parts[1..], ts);
      var head := if parts[0].ToolCall? then [CallMessage(parts[0], ts)] else [];
      HoldsConcat(head, rest, id);
      if k :| 0 <= k < |parts| && parts[k].ToolCall? && parts[k].id == id {
        if k > 0 {
          assert parts[1..][k - 1] == parts[k];
        } else {
          assert Carries(head[0], id);
        }
      }
      if Holds(head, id) {
        assert parts[0].ToolCall? && parts[0].id == id;
      }
      if Holds(rest, id) {
        var k :| 0 <= k < |parts[1..]| && parts[1..][k].ToolCall? && parts[1..][k].id == id;
        assert parts[k + 1] == parts[1..][k];
      }
    }
  }

  lemma HoldsConcat(a: seq<ChatMessage>, b: seq<ChatMessage>, id: Option<string>)
    ensures Holds(a + b, id) <==> Holds(a, id) || Holds(b, id)
  {
    if j :| 0 <= j < |a| && Carries(a[j], id) { assert Carries((a + b)[j], id); }
    if j :| 0 <= j < |b| && Carries(b[j], id) { assert Carries((a + b)[|a| + j], id); }
  }

  lemma {:induction false} ThoughtsAreNotTools(parts: seq<Part>, ts: Option<string>)
    ensures forall m | m in Thoughts(parts, ts) :: !m.role.ToolRole?
  {
    if parts != [] && !parts[0].Broken? { ThoughtsAreNotTools(parts[1..], ts); }
  }

  /** After a line, exactly the identified calls it offers are newly held. */
  lemma HoldsAfter(messages: seq<ChatMessage>, line: Line, id: Option<string>)
    requires id.Some?
    ensures Holds(Fed(messages, line), id) <==> Holds(messages, id) || LineOffers(line, id)
  {
    if line.ToolResult? {
      var k := NewestMatch(messages, line.id);
      if k >= 0 {
        var after := Fed(messages, line);
        forall j | 0 <= j < |messages| ensures Carries(after[j], id) <==> Carries(messages[j], id) {}
      } else {
        HoldsConcat(messages, [Orphan(line)], id);
      }
    } else {
      HoldsConcat(messages, Pushed(line), id);
      if line.AssistantParts? {
        var parts, ts := line.parts, line.ts;
        ThoughtsAreNotTools(parts, ts);
        CallsCarry(parts, ts, id);
        var tail := if Broken in parts then [] else TextMessage(JoinedText(parts), ts) + Calls(parts, ts);
        HoldsConcat(Thoughts(parts, ts), tail, id);
        HoldsConcat(TextMessage(JoinedText(parts), ts), Calls(parts, ts), id);
      }
    }
  }

  lemma {:induction false} HoldsAfterAll(messages: seq<ChatMessage>, lines: seq<Line>, id: Option<string>)
    requires id.Some?
    ensures Holds(FedAll(messages, lines), id) <==> Holds(messages, id) || Offers(lines, id)
    decreases |lines|
  {
    if lines == [] {
    } else {
      HoldsAfter(messages, lines[0], id);
      HoldsAfterAll(Fed(messages, lines[0]), lines[1..], id);
      OffersSplit([lines[0]], lines[1..], id);
      assert [lines[0]] + lines[1..] == lines;
      assert Offers([lines[0]], id) <==> LineOffers(lines[0], id);
    }
  }

  lemma OffersSplit(a: seq<Line>, b: seq<Line>, id: Option<string>)
    ensures Offers(a + b, id) <==> Offers(a, id) || Offers(b, id)
  {
    if j :| 0 <= j < |a| && LineOffers(a[j], id) { assert LineOffers((a + b)[j], id); }
    if j :| 0 <= j < |b| && LineOffers(b[j], id) { assert LineOffers((a + b)[|a| + j], id); }
  }

  lemma MatchIffHolds(messages: seq<ChatMessage>, id: Option<string>)
    ensures NewestMatch(messages, id) >= 0 <==> Holds(messages, id)
  {
  }

  lemma {:induction false} NewestMatchConcat(a: seq<ChatMessage>, b: seq<ChatMessage>, id: Option<string>)
    ensures NewestMatch(a + b, id) ==
            if NewestMatch(b, id) >= 0 then |a| + NewestMatch(b, id) else NewestMatch(a, id)
  {
    if b == [] {
      assert a + b == a;
    } else {
      var n := |b| - 1;
      assert (a + b)[..|a| + n] == a + b[..n] && (a + b)[|a| + n] == b[n];
      NewestMatchConcat(a, b[..n], id);
      hide Carries;
    }
  }

  lemma MatchFrame(old0: seq<ChatMessage>, own: seq<ChatMessage>, id: Option<string>)
    requires Holds(own, id) || !Holds(old0, id)
    ensures var k := NewestMatch(own, id); NewestMatch(old0 + own, id) == if k >= 0 then |old0| + k else -1
  {
    NewestMatchConcat(old0, own, id);
    MatchIffHolds(own, id);
    MatchIffHolds(old0, id);
    hide NewestMatch, Holds;
  }

  /** Earlier messages are left alone by a line that finds its own call in `own`, or finds none at all. */
  lemma FedFrame(old0: seq<ChatMessage>, own: seq<ChatMessage>, line: Line)
    requires line.ToolResult? ==> Holds(own, line.id) || !Holds(old0, line.id)
    ensures Fed(old0 + own, line) == old0 + Fed(own, line)
  {
    hide NewestMatch, Holds, Pushed, WithResult, Orphan;
    var all := old0 + own;
    if line.ToolResult? {
      MatchFrame(old0, own, line.id);
      var k := NewestMatch(own, line.id);
      if k >= 0 {
        assert all[|old0| + k] == own[k];
        var m := WithResult(own[k], line.text, line.isError);
        assert all[|old0| + k := m] == old0 + own[k := m];
      } else {
        assert all + [Orphan(line)] == old0 + (own + [Orphan(line)]);
      }
    } else {
      assert all + Pushed(line) == old0 + (own + Pushed(line));
    }
  }

  /** Feeding `b` after `old0` equals feeding it alone, while `done` is the part of `b` already fed. */
  lemma {:induction false} FedAllFrame(a: seq<Line>, done: seq<Line>, b: seq<Line>)
    requires Identified(done + b) && NoStraddle(a, done + b)
    ensures FedAll(Parse(a) + Parse(done), b) == Parse(a) + FedAll(Parse(done), b)
    decreases |b|
  {
    if b == [] {
    } else {
      var line := b[0];
      var all := done + b;
      assert all[|done|] == line && all[..|done|] == done;
      if line.ToolResult? {
        HoldsAfterAll([], a, line.id);
        HoldsAfterAll([], done, line.id);
      }
      FedFrame(Parse(a), Parse(done), line);
      FedAllConcat([], done, [line]);
      assert FedAll(Parse(done), [line]) == Fed(Parse(done), line);
      assert (done + [line]) + b[1..] == all;
      FedAllFrame(a, done + [line], b[1..]);
    }
  }

  /** A parser that already holds more calls pushes no more messages. */
  lemma {:induction false} HoldingMorePushesLess(p: seq<ChatMessage>, q: seq<ChatMessage>, b: seq<Line>)
    requires Identified(b)
    requires forall id: Option<string> :: id.Some? && Holds(q, id) ==> Holds(p, id)
    ensures |FedAll(p, b)| - |p| <= |FedAll(q, b)| - |q|
    decreases |b|
  {
    if b == [] {
    } else {
      var line := b[0];
      if line.ToolResult? {
        MatchIffHolds(p, line.id);
        MatchIffHolds(q, line.id);
      }
      forall id: Option<string> | id.Some? && Holds(Fed(q, line), id) ensures Holds(Fed(p, line), id) {
        HoldsAfter(q, line, id);
        HoldsAfter(p, line, id);
      }
      HoldingMorePushesLess(Fed(p, line), Fed(q, line), b[1..]);
    }
  }

  /** At a straddling result the joined parse pushes nothing where the separate parse pushes an orphan. */
  lemma {:induction false} StraddleShortens(a: seq<Line>, b: seq<Line>, j: nat)
    requires Identified(b) && j < |b| && b[j].ToolResult?
    requires Offers(a, b[j].id) && !Offers(b[..j], b[j].id)
    ensures |FedAll(Parse(a), b)| < |Parse(a)| + |Parse(b)|
  {
    var before, line, after := b[..j], b[j], b[j + 1..];
    assert b == before + ([line] + after);
    FedAllConcat(Parse(a), before, [line] + after);
    FedAllConcat([], before, [line] + after);
    var p, q := FedAll(Parse(a), before), Parse(before);
    HoldingMorePushesLess(Parse(a), [], before);
    forall id: Option<string> | id.Some? && Holds(q, id) ensures Holds(p, id) {
      HoldsAfterAll([], before, id);
      HoldsAfterAll(Parse(a), before, id);
    }
    HoldsAfterAll([], a, line.id);
    HoldsAfterAll([], before, line.id);
    HoldsAfterAll(Parse(a), before, line.id);
    MatchIffHolds(p, line.id);
    MatchIffHolds(q, line.id);
    forall id: Option<string> | id.Some? && Holds(Fed(q, line), id) ensures Holds(Fed(p, line), id) {
      HoldsAfter(q, line, id);
      HoldsAfter(p, line, id);
    }
    HoldingMorePushesLess(Fed(p, line), Fed(q, line), after);
    assert ([line] + after)[1..] == after;
  }

  /** Parsing splits over concatenation exactly when no call/result pair straddles the cut. */
  lemma ParseSplits(a: seq<Line>, b: seq<Line>)
    requires Identified(b)
    ensures Parse(a + b) == Parse(a) + Parse(b) <==> NoStraddle(a, b)
    ensures |Parse(a + b)| <= |Parse(a)| + |Parse(b)|
    ensures |Parse(a + b)| == |Parse(a)| + |Parse(b)| ==> NoStraddle(a, b)
  {
    FedAllConcat([], a, b);
    HoldingMorePushesLess(Parse(a), [], b);
    if NoStraddle(a, b) {
      assert [] + b == b;
      FedAllFrame(a, [], b);
      assert Parse(a) + [] == Parse(a);
    } else {
      var j :| 0 <= j < |b| && b[j].ToolResult? && Offers(a, b[j].id) && !Offers(b[..j], b[j].id);
      StraddleShortens(a, b, j);
    }
  }

  // ---- joining pages ----

  function Flatten<T>(pages: seq<seq<T>>): seq<T> {
    if pages == [] then [] else Flatten(pages[..|pages| - 1]) + pages[|pages| - 1]
  }

  /** The messages of every page, each parsed on its own, oldest page first. */
  function ParsedPages(pages: seq<seq<Line>>): seq<ChatMessage> {
    if pages == [] then [] else ParsedPages(pages[..|pages| - 1]) + Parse(pages[|pages| - 1])
  }

  ghost predicate NoPageStraddles(pages: seq<seq<Line>>) {
    forall i :: 0 <= i < |pages| ==> NoStraddle(Flatten(pages[..i]), pages[i])
  }

  lemma {:induction false} IdentifiedPages(pages: seq<seq<Line>>)
    requires Identified(Flatten(pages))
    ensures forall i :: 0 <= i < |pages| ==> Identified(pages[i])
    decreases |pages|
  {
    if pages == [] {
    } else {
      var n := |pages| - 1;
      var head, all := Flatten(pages[..n]), Flatten(pages);
      forall j | 0 <= j < |head| && head[j].ToolResult? ensures head[j].id.Some? { assert all[j] == head[j]; }
      forall j | 0 <= j < |pages[n]| && pages[n][j].ToolResult? ensures pages[n][j].id.Some? {
        assert all[|head| + j] == pages[n][j];
      }
      IdentifiedPages(pages[..n]);
      assert forall i :: 0 <= i < n ==> pages[..n][i] == pages[i];
    }
  }

  lemma {:induction false} PagesJoin(pages: seq<seq<Line>>)
    requires forall i :: 0 <= i < |pages| ==> Identified(pages[i])
    ensures |Parse(Flatten(pages))| <= |ParsedPages(pages)|
    ensures Parse(Flatten(pages)) == ParsedPages(pages) <==> NoPageStraddles(pages)
    ensures |Parse(Flatten(pages))| == |ParsedPages(pages)| ==> NoPageStraddles(pages)
    decreases |pages|
  {
    if pages == [] {
    } else {
      var n := |pages| - 1;
      var init, last := pages[..n], pages[n];
      PagesJoin(init);
      ParseSplits(Flatten(init), last);
      NoPageStraddlesStep(pages);
    }
  }

  lemma NoPageStraddlesStep(pages: seq<seq<Line>>)
    requires pages != []
    ensures var n := |pages| - 1;
            NoPageStraddles(pages) <==> NoPageStraddles(pages[..n]) && NoStraddle(Flatten(pages[..n]), pages[n])
  {
    var n := |pages| - 1;
    forall i | 0 <= i < n ensures pages[..n][..i] == pages[..i] && pages[..n][i] == pages[i] {}
    if NoPageStraddles(pages) {
      forall i | 0 <= i < n ensures NoStraddle(Flatten(pages[..n][..i]), pages[..n][i]) {
        assert NoStraddle(Flatten(pages[..i]), pages[i]);
      }
    }
    if NoPageStraddles(pages[..n]) && NoStraddle(Flatten(pages[..n]), pages[n]) {
      forall i | 0 <= i < |pages| ensures NoStraddle(Flatten(pages[..i]), pages[i]) {
        if i < n { assert NoStraddle(Flatten(pages[..n][..i]), pages[..n][i]); }
      }
    }
  }

  lemma CallPushed(part: Part)
    requires part.ToolCall?
    ensures Pushed(AssistantParts([part], None)) == [CallMessage(part, None)]
  {
    assert [part][1..] == [] && JoinedText([part]) == "" + JoinedText([]);
    assert Thoughts([part], None) == [] + Thoughts([], None);
    assert Calls([part], None) == [CallMessage(part, None)] + Calls([], None);
  }

  lemma OneFed(messages: seq<ChatMessage>, line: Line)
    ensures FedAll(messages, [line]) == Fed(messages, line)
  {
    hide Fed;
    assert [line][1..] == [];
  }

  lemma TwoPages(a: Line, b: Line)
    ensures ParsedPages([[a], [b]]) == Fed([], a) + Fed([], b) && Parse([a, b]) == Fed(Fed([], a), b)
  {
    hide Fed;
    OneFed([], a);
    OneFed([], b);
    OneFed(Fed([], a), b);
    assert [[a], [b]][..1] == [[a]] && [[a]][..0] == [] && [a, b][1..] == [b];
    assert ParsedPages([[a]]) == [] + Parse([a]);
  }

  /** A call on one page and its result on the next: two messages from the pages, one from the whole file. */
  lemma CallAndResultApart(id: string, text: string)
    ensures var call := AssistantParts([ToolCall(Some("read"), Some(id), "{}")], None);
            var result := ToolResult(Some(id), Some("read"), text, false, None);
            |ParsedPages([[call], [result]])| == 2 && |Parse([call, result])| == 1
  {
    hide FedAll, ParsedPages, Parse, Pushed;
    var call := AssistantParts([ToolCall(Some("read"), Some(id), "{}")], None);
    var result := ToolResult(Some(id), Some("read"), text, false, None);
    var m := CallMessage(call.parts[0], None);
    TwoPages(call, result);
    CallPushed(call.parts[0]);
    assert [] + Pushed(call) == [m] && NewestMatch([m], Some(id)) == 0;
  }
}
