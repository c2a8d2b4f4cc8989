/**
 * What one line of a transcript does to the messages (backend/session-store.ts), said of the
 * parts of the line and the fields of the messages.
 */
module ParserLines {
  import opened Wrappers
  import opened SessionParser

  // ---- pushing ----

  /** The messages that the parts give, in the order of the parts. */
  ghost function Collected(parts: seq<Part>, pick: Part -> Option<ChatMessage>): seq<ChatMessage> {
    if parts == [] then []
    else
      Collected(parts[..|parts| - 1], pick) +
      match pick(parts[|parts| - 1]) case None => [] case Some(m) => [m]
  }

  lemma {:induction false} CollectedFront(p: Part, parts: seq<Part>, pick: Part -> Option<ChatMessage>)
    ensures Collected([p] + parts, pick) ==
            (match pick(p) case None => [] case Some(m) => [m]) + Collected(parts, pick)
    decreases |parts|
  {
    var all, n := [p] + parts, |parts| - 1;
    if parts == [] {
      assert all[..0] == [];
    } else {
      assert all[..|all| - 1] == [p] + parts[..n] && all[|all| - 1] == parts[n];
      CollectedFront(p, parts[..n], pick);
    }
  }

  /** A thought that is not empty. */
  function ThoughtOf(p: Part, ts: Option<string>): Option<ChatMessage> {
    if p.Thinking? && p.thinking != "" then Some(ChatMessage(ThinkingRole, p.thinking, ts, None)) else None
  }

  /** A tool call with its name, its id and its arguments, and no result yet. */
  function CallOf(p: Part, ts: Option<string>): Option<ChatMessage> {
    if !p.ToolCall? then None
    else
      var shown := if p.name.None? || p.name.value == "" then "tool" else p.name.value;
      Some(ChatMessage(ToolRole, "🔧 " + shown, ts, Some(Meta(p.name, p.id, Some(p.args), None, None))))
  }

  /** The texts of the parts one after the other. */
  function TextsOf(parts: seq<Part>): string {
    if parts == [] then ""
    else TextsOf(parts[..|parts| - 1]) + if parts[|parts| - 1].Text? then parts[|parts| - 1].text else ""
  }

  lemma {:induction false} ThoughtsAre(parts: seq<Part>, ts: Option<string>)
    requires Broken !in parts
    ensures Thoughts(parts, ts) == Collected(parts, p => ThoughtOf(p, ts))
    decreases |parts|
  {
    if parts == [] {
    } else {
      assert parts == [parts[0]] + parts[1..];
      ThoughtsAre(parts[1..], ts);
      CollectedFront(parts[0], parts[1..], p => ThoughtOf(p, ts));
    }
  }

  lemma {:induction false} ThoughtsStop(parts: seq<Part>, b: nat, ts: Option<string>)
    requires b < |parts| && parts[b].Broken? && Broken !in parts[..b]
    ensures Thoughts(parts, ts) == Collected(parts[..b], p => ThoughtOf(p, ts))
    decreases b
  {
    if b == 0 {
    } else {
      assert parts[0] in parts[..b] && parts[1..][..b - 1] == parts[..b][1..] &&
        parts[..b] == [parts[0]] + parts[..b][1..];
      ThoughtsStop(parts[1..], b - 1, ts);
      CollectedFront(parts[0], parts[..b][1..], p => ThoughtOf(p, ts));
    }
  }

  lemma {:induction false} CallsAre(parts: seq<Part>, ts: Option<string>)
    ensures Calls(parts, ts) == Collected(parts, p => CallOf(p, ts))
    decreases |parts|
  {
    if parts == [] {
    } else {
      assert parts == [parts[0]] + parts[1..];
      CallsAre(parts[1..], ts);
      CollectedFront(parts[0], parts[1..], p => CallOf(p, ts));
    }
  }

  lemma {:induction false} TextsFront(p: Part, parts: seq<Part>)
    ensures TextsOf([p] + parts) == (if p.Text? then p.text else "") + TextsOf(parts)
    decreases |parts|
  {
    var all, n := [p] + parts, |parts| - 1;
    if parts == [] {
      assert all[..0] == [];
    } else {
      assert all[..|all| - 1] == [p] + parts[..n] && all[|all| - 1] == parts[n];
      TextsFront(p, parts[..n]);
    }
  }

  lemma {:induction false} TextIs(parts: seq<Part>)
    ensures JoinedText(parts) == TextsOf(parts)
    decreases |parts|
  {
    if parts == [] {
    } else {
      assert parts == [parts[0]] + parts[1..];
      TextIs(parts[1..]);
      TextsFront(parts[0], parts[1..]);
    }
  }

  /** A request or a reply in one piece gives one message, unless it is empty; anything that is no message gives
      none. */
  lemma PlainLinesPush(messages: seq<ChatMessage>, text: string, ts: Option<string>)
    ensures Fed(messages, User(text, ts)) ==
            messages + if text == "" then [] else [ChatMessage(UserRole, text, ts, None)]
    ensures Fed(messages, AssistantText(text, ts)) ==
            messages + if text == "" then [] else [ChatMessage(AssistantRole, text, ts, None)]
    ensures Fed(messages, Blank) == Fed(messages, Malformed) == Fed(messages, NotMessage) ==
            Fed(messages, OtherRole) == messages
  {
    assert messages + [] == messages;
  }

  /** A reply in parts gives its thoughts, then its text in one message, then its tool calls, each in the order of the
      parts. */
  lemma PartsPush(messages: seq<ChatMessage>, parts: seq<Part>, ts: Option<string>)
    requires Broken !in parts
    ensures Fed(messages, AssistantParts(parts, ts)) ==
            messages + (Collected(parts, p => ThoughtOf(p, ts)) +
                        ((if TextsOf(parts) == "" then []
                          else [ChatMessage(AssistantRole, TextsOf(parts), ts, None)]) +
                         Collected(parts, p => CallOf(p, ts))))
  {
    ThoughtsAre(parts, ts);
    TextIs(parts);
    CallsAre(parts, ts);
  }

  /** A part that cannot be looked at ends its line: the thoughts before it stay, and nothing else is said. */
  lemma BrokenPartsPush(messages: seq<ChatMessage>, parts: seq<Part>, b: nat, ts: Option<string>)
    requires b < |parts| && parts[b].Broken? && Broken !in parts[..b]
    ensures Fed(messages, AssistantParts(parts, ts)) == messages + Collected(parts[..b], p => ThoughtOf(p, ts))
  {
    ThoughtsStop(parts, b, ts);
    assert Broken in parts;
    assert Thoughts(parts, ts) + [] == Thoughts(parts, ts);
  }

  // ---- results ----

  /** A tool message that waits for results of this id. */
  predicate WaitsFor(m: ChatMessage, id: Option<string>) {
    m.role == ToolRole && m.meta.Some? && m.meta.value.toolCallId == id
  }

  predicate NewestWaiting(messages: seq<ChatMessage>, id: Option<string>, k: int) {
    0 <= k < |messages| && WaitsFor(messages[k], id) && forall j :: k < j < |messages| ==> !WaitsFor(messages[j], id)
  }

  /** What is shown of a result: its first five thousand characters. */
  predicate Shown(text: string, shown: string) {
    shown <= text && |shown| == if |text| < 5000 then |text| else 5000
  }

  /** A result goes to the newest call of its id, of which only result and error change, and to no other message;
      without such a call it is a tool message of its own. */
  lemma ResultsGo(messages: seq<ChatMessage>, id: Option<string>, toolName: Option<string>, text: string, isError: bool,
                  ts: Option<string>)
    ensures var after := Fed(messages, ToolResult(id, toolName, text, isError, ts));
            && (forall k :: NewestWaiting(messages, id, k) ==>
                  && |after| == |messages| && (forall j :: 0 <= j < |messages| && j != k ==> after[j] == messages[j])
                  && after[k].meta.Some? && after[k].meta.value.result.Some?
                  && Shown(text, after[k].meta.value.result.value)
                  && after[k] == messages[k].(meta := Some(messages[k].meta.value.(
                       result := after[k].meta.value.result, isError := Some(isError)))))
            && ((forall k :: 0 <= k < |messages| ==> !WaitsFor(messages[k], id)) ==>
                  && |after| == |messages| + 1 && after[..|messages|] == messages
                  && var m := after[|messages|];
                     && m.meta.Some? && m.meta.value.result.Some? && Shown(text, m.meta.value.result.value)
                     && m == ChatMessage(ToolRole, "🔧 " + (if toolName.None? || toolName.value == "" then "tool"
                                                           else toolName.value), ts,
                                         Some(Meta(None, None, None, m.meta.value.result, Some(isError)))))
  {
    assert forall m: ChatMessage :: WaitsFor(m, id) <==> Carries(m, id);
    hide WaitsFor, SessionParser.Carries;
    assert forall k :: NewestWaiting(messages, id, k) ==> NewestMatch(messages, id) == k;
  }
}
