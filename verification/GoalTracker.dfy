/**
 * Following the newest goal of an append-only session file
 * (backend/live-sessions/session-goal-tracker.ts).
 *
 * The first refresh reads a window at the end of the file, later ones only what was appended.
 * Every read is decoded on its own. What a line means is a parameter: a blank or broken line
 * means nothing.
 */
module GoalTracker {
  import opened Wrappers
  import opened LineFeed
  import opened TextEncoding

  /** A goal-state entry clears the goal, cannot be understood, or sets an anchor. */
  datatype News = Tombstone | Malformed | Anchor(id: nat)

  datatype Entry = Ignored | Message | Goal(news: News, at: Option<int>)

  type Reader = Text -> Entry

  datatype State =
    State(offset: nat, pending: Text, messagesSince: nat, goal: Option<nat>, hasGoalEntries: bool,
          updatedAt: Option<int>)

  /** A goal, with the messages recorded since the newest goal entry. */
  datatype Progress = Progress(goal: nat, messagesSince: nat)

  datatype Scan = Scan(goal: Option<Progress>, updatedAt: Option<int>)

  function Blank(offset: nat): State {
    State(offset, [], 0, None, false, None)
  }

  // ---- one line, one chunk, one refresh ----

  function Consume(s: State, e: Entry): State {
    match e
    case Ignored => s
    case Message => s.(messagesSince := s.messagesSince + 1)
    case Goal(news, at) =>
      s.(hasGoalEntries := true, messagesSince := 0, updatedAt := if at.Some? then at else s.updatedAt,
         goal := match news case Tombstone => None case Malformed => s.goal case Anchor(id) => Some(id))
  }

  function ConsumeAll(s: State, lines: seq<Text>, read: Reader): State
    decreases |lines|
  {
    if lines == [] then s else ConsumeAll(Consume(s, read(lines[0])), lines[1..], read)
  }

  function Chunk(s: State, text: Text, read: Reader): State {
    ConsumeAll(s, Split(text).lines, read).(pending := Split(text).rest)
  }

  function NewlineFrom(s: Text, k: nat): (i: int)
    requires k <= |s|
    ensures -1 <= i < |s| && (i >= 0 ==> k <= i && s[i] == NEWLINE)
    ensures forall j :: k <= j < (if i >= 0 then i else |s|) ==> s[j] != NEWLINE
    decreases |s| - k
  {
    if k == |s| then -1 else if s[k] == NEWLINE then k else NewlineFrom(s, k + 1)
  }

  function FirstNewline(s: Text): (i: int)
    ensures -1 <= i < |s| && (i >= 0 ==> s[i] == NEWLINE && OneLine(s[..i])) && (i < 0 ==> OneLine(s))
  {
    NewlineFrom(s, 0)
  }

  function WindowStart(file: Bytes, tail: nat): (p: nat)
    ensures p <= |file|
    ensures |file| - p <= tail && (p > 0 ==> |file| - p == tail)
  {
    if |file| > tail then |file| - tail else 0
  }

  /** The text of a tail window: a leading fragment is dropped when a line break follows it. */
  function SeedText(file: Bytes, tail: nat): Text {
    var raw := Decode(file[WindowStart(file, tail)..]);
    if LineStart(file, WindowStart(file, tail)) || FirstNewline(raw) < 0 then raw else raw[FirstNewline(raw) + 1..]
  }

  function Refreshed(known: Option<State>, file: Bytes, tail: nat, read: Reader): State {
    var s := if known.Some? && known.value.offset <= |file| then known.value
             else Chunk(Blank(|file|), SeedText(file, tail), read);
    if |file| > s.offset then Chunk(s.(offset := |file|), s.pending + Decode(file[s.offset..]), read) else s
  }

  function Report(s: State): Option<Scan> {
    if s.hasGoalEntries then Some(Scan(Counted(s.goal, s.messagesSince), s.updatedAt)) else None
  }

  /** The message count is reported with a goal only. */
  function Counted(goal: Option<nat>, messagesSince: nat): Option<Progress> {
    if goal.Some? then Some(Progress(goal.value, messagesSince)) else None
  }

  /** What is tracked of one file, updated in place. */
  class FileState {
    var offset: nat
    var pending: Text
    var messagesSince: nat
    var goal: Option<nat>
    var hasGoalEntries: bool
    var updatedAt: Option<int>

    function Value(): State
      reads this
    {
      State(offset, pending, messagesSince, goal, hasGoalEntries, updatedAt)
    }

    constructor (offset: nat)
      ensures Value() == Blank(offset)
    {
      this.offset, pending, messagesSince, goal, hasGoalEntries, updatedAt := offset, [], 0, None, false, None;
    }

    method ConsumeLine(e: Entry)
      modifies this
      ensures Value() == Consume(old(Value()), e)
    {
      if e.Message? { messagesSince := messagesSince + 1; }
      if e.Goal? {
        hasGoalEntries, messagesSince := true, 0;
        if e.at.Some? { updatedAt := e.at; }
        if e.news.Tombstone? { goal := None; }
        if e.news.Anchor? { goal := Some(e.news.id); }
      }
    }

    method ConsumeChunk(chunk: Text, read: Reader)
      modifies this
      ensures Value() == Chunk(old(Value()), chunk, read)
    {
      hide Consume, Split;
      var text := chunk;
      var index := IndexOfNewline(text);
      while index >= 0
        invariant -1 <= index < |text|
        invariant index >= 0 ==> text[index] == NEWLINE && OneLine(text[..index])
        invariant index < 0 ==> OneLine(text)
        invariant Chunk(Value(), text, read) == Chunk(old(Value()), chunk, read)
        decreases |text|
      {
        ghost var before := Value();
        ConsumeLine(read(text[..index]));
        SplitHead(text, index);
        HeadLine(before, text, index, read);
        text := text[index + 1..];
        index := IndexOfNewline(text);
      }
      SplitOneLine(text);
      pending := text;
    }
  }

  lemma HeadLine(s: State, text: Text, i: nat, read: Reader)
    requires i < |text| && text[i] == NEWLINE && OneLine(text[..i])
    ensures Chunk(s, text, read) == Chunk(Consume(s, read(text[..i])), text[i + 1..], read)
  {
    hide Consume, Split;
    SplitHead(text, i);
    var rest := Split(text[i + 1..]).lines;
    assert ([text[..i]] + rest)[1..] == rest;
  }

  /** Read the tail window of a file. */
  method ReadSeed(file: Bytes, tail: nat) returns (seed: Text)
    ensures seed == SeedText(file, tail)
  {
    hide Decode, FirstNewline;
    var start := WindowStart(file, tail);
    var raw := Decode(file[start..]);
    var firstBreak := IndexOfNewline(raw);
    SameBreak(raw, firstBreak);
    seed := if LineStart(file, start) || firstBreak < 0 then raw else raw[firstBreak + 1..];
  }

  /** Refresh the record of one file; an unreadable file loses its record. */
  method Refresh(existing: FileState?, contents: Option<Bytes>, tail: nat, read: Reader)
    returns (state: FileState?, scan: Option<Scan>)
    modifies existing
    ensures contents.None? ==> state == null && scan == None
    ensures contents.Some? ==>
              var known := if existing == null then None else Some(old(existing.Value()));
              state != null && state.Value() == Refreshed(known, contents.value, tail, read) &&
                scan == Report(state.Value())
    ensures scan.Some? <==> contents.Some? && state.hasGoalEntries
    ensures scan.Some? ==>
              && scan.value.updatedAt == state.updatedAt
              && (scan.value.goal.Some? <==> state.goal.Some?)
              && (state.goal.Some? ==> scan.value.goal == Some(Progress(state.goal.value, state.messagesSince)))
  {
    hide Chunk, Decode, SeedText;
    if contents.None? { return null, None; }
    var file := contents.value;
    if existing != null && existing.offset <= |file| {
      state := existing;
    } else {
      state := new FileState(|file|);
      var seed := ReadSeed(file, tail);
      state.ConsumeChunk(seed, read);
      ChunkOffset(Blank(|file|), seed, read);
    }
    if |file| > state.offset {
      var appended := Decode(file[state.offset..]);
      state.offset := |file|;
      state.ConsumeChunk(state.pending + appended, read);
    }
    if !state.hasGoalEntries { return state, None; }
    scan := Some(Scan(Counted(state.goal, state.messagesSince), state.updatedAt));
  }

  lemma SameBreak(raw: Text, i: int)
    requires -1 <= i < |raw| && (i < 0 ==> OneLine(raw)) && (i >= 0 ==> raw[i] == NEWLINE && OneLine(raw[..i]))
    ensures i == FirstNewline(raw)
  {
    var j := FirstNewline(raw);
    if i >= 0 { assert forall k :: 0 <= k < i ==> raw[..i][k] == raw[k]; }
    if j >= 0 { assert forall k :: 0 <= k < j ==> raw[..j][k] == raw[k]; }
  }

  lemma {:induction false} KeepsOffset(s: State, lines: seq<Text>, read: Reader)
    ensures ConsumeAll(s, lines, read).offset == s.offset
    decreases |lines|
  {
    if lines == [] {
    } else {
      KeepsOffset(Consume(s, read(lines[0])), lines[1..], read);
    }
  }

  lemma ChunkOffset(s: State, text: Text, read: Reader)
    ensures Chunk(s, text, read).offset == s.offset
  {
    KeepsOffset(s, Split(text).lines, read);
  }

  // ---- the text that refreshes see ----

  lemma {:induction false} ConsumeConcat(s: State, a: seq<Text>, b: seq<Text>, read: Reader)
    ensures ConsumeAll(s, a + b, read) == ConsumeAll(ConsumeAll(s, a, read), b, read)
    decreases |a|
  {
    hide Consume;
    if a == [] {
      assert a + b == b;
    } else {
      assert (a + b)[1..] == a[1..] + b;
      ConsumeConcat(Consume(s, read(a[0])), a[1..], b, read);
    }
  }

  /** The pending text and the offset play no part in what lines mean. */
  lemma {:induction false} ConsumeIgnores(s: State, lines: seq<Text>, offset: nat, pending: Text, read: Reader)
    ensures ConsumeAll(s.(offset := offset, pending := pending), lines, read) ==
            ConsumeAll(s, lines, read).(offset := offset, pending := pending)
    decreases |lines|
  {
    if lines == [] {
    } else {
      ConsumeIgnores(Consume(s, read(lines[0])), lines[1..], offset, pending, read);
    }
  }

  /** Two chunks are consumed as one. */
  lemma TwoChunks(s: State, a: Text, offset: nat, b: Text, read: Reader)
    ensures var s1 := Chunk(s, a, read);
            Chunk(s1.(offset := offset), s1.pending + b, read) == Chunk(s, a + b, read).(offset := offset)
  {
    hide Consume, ConsumeAll;
    var s1, x := Chunk(s, a, read), Split(a);
    RestIsOneLine(Cut([], []), a);
    FeedConcat(Cut([], []), a, b);
    FeedAfter(x.lines, x.rest, b);
    FeedRest(x.rest, b);
    var y := Split(x.rest + b);
    assert Split(a + b) == Cut(x.lines + y.lines, y.rest);
    ConsumeConcat(s, x.lines, y.lines, read);
    ConsumeIgnores(ConsumeAll(s, x.lines, read), y.lines, offset, x.rest, read);
  }

  lemma ChunkOffsets(a: nat, b: nat, text: Text, read: Reader)
    ensures Chunk(Blank(a), text, read).(offset := b) == Chunk(Blank(b), text, read)
  {
    ConsumeIgnores(Blank(a), Split(text).lines, b, [], read);
    ChunkOffset(Blank(b), text, read);
  }

  /** Each file in the list continues the one before it. */
  predicate AppendOnly(files: seq<Bytes>) {
    forall i, j :: 0 <= i < j < |files| ==> files[i] <= files[j]
  }

  /** Refresh once per file, keeping the record. */
  function Follow(files: seq<Bytes>, tail: nat, read: Reader): Option<State> {
    if files == [] then None
    else Some(Refreshed(Follow(files[..|files| - 1], tail, read), files[|files| - 1], tail, read))
  }

  /** All the text the refreshes of a growing file have decoded, piece by piece. */
  function Tracked(files: seq<Bytes>, tail: nat): Text
    requires AppendOnly(files) && files != []
  {
    var n := |files| - 1;
    if n == 0 then SeedText(files[0], tail) else Tracked(files[..n], tail) + Decode(files[n][|files[n - 1]|..])
  }

  /** After any number of refreshes of a growing file the state is that of the decoded pieces taken as one text: where
      the pieces were cut into chunks of lines does not matter. */
  lemma {:induction false} ChunksDoNotMatter(files: seq<Bytes>, tail: nat, read: Reader)
    requires AppendOnly(files) && files != []
    ensures Follow(files, tail, read) == Some(Chunk(Blank(|files[|files| - 1]|), Tracked(files, tail), read))
    decreases |files|
  {
    hide Chunk, SeedText, Decode;
    var n := |files| - 1;
    var last := files[n];
    if n == 0 {
      assert files[..0] == [];
      ChunkOffset(Blank(|last|), SeedText(last, tail), read);
    } else {
      var before, text := files[n - 1], Tracked(files[..n], tail);
      assert files[..n][n - 1] == before;
      ChunksDoNotMatter(files[..n], tail, read);
      assert before <= last;
      ChunkOffset(Blank(|before|), text, read);
      if |last| > |before| {
        TwoChunks(Blank(|before|), text, |last|, Decode(last[|before|..]), read);
        ChunkOffsets(|before|, |last|, Tracked(files, tail), read);
      } else {
        DecodeNothing(last, |before|);
        assert text + [] == text;
      }
    }
  }

  lemma DecodeNothing(b: Bytes, n: nat)
    requires n == |b|
    ensures Decode(b[n..]) == []
  {
  }

  /** Reading the whole file at once. */
  function FullScan(file: Bytes, read: Reader): State {
    Chunk(Blank(|file|), Decode(file), read)
  }

  /** Every refresh before the last growth ended between two characters of the file. */
  predicate CutBetweenPoints(files: seq<Bytes>)
    requires AppendOnly(files) && files != []
  {
    forall i :: 0 <= i < |files| ==> PointBoundary(files[|files| - 1], |files[i]|)
  }

  lemma ShorterCuts(files: seq<Bytes>)
    requires AppendOnly(files) && |files| > 1
    ensures var n := |files| - 1;
            CutBetweenPoints(files) <==> CutBetweenPoints(files[..n]) && PointBoundary(files[n], |files[n - 1]|)
  {
    var n := |files| - 1;
    var last, before := files[n], files[n - 1];
    forall i | 0 <= i < n ensures files[i] <= before <= last { assert files[n - 1] == before; }
    assert forall i :: 0 <= i < n ==> files[..n][i] == files[i];
    assert files[..n][n - 1] == before;
    if CutBetweenPoints(files) {
      assert PointBoundary(last, |before|);
    }
    if CutBetweenPoints(files[..n]) && PointBoundary(last, |before|) {
      forall i | 0 <= i < n ensures PointBoundary(last, |files[i]|) {
        assert PointBoundary(before, |files[..n][i]|);
      }
    }
  }

  /** The pieces of well-formed text decode to at least as many characters as the text has, and to the text itself
      exactly when each cut is between two characters. */
  lemma {:induction false} PiecesAreText(files: seq<Bytes>, tail: nat)
    requires AppendOnly(files) && files != [] && WellFormed(files[|files| - 1]) && |files[0]| <= tail
    ensures var t, whole := Tracked(files, tail), Decode(files[|files| - 1]);
            |t| >= |whole| && (CutBetweenPoints(files) ==> t == whole) && (!CutBetweenPoints(files) ==> |t| > |whole|)
    decreases |files|
  {
    hide Decode, WellFormed, PointBoundary, CutBetweenPoints;
    var n := |files| - 1;
    if n == 0 {
      assert files[0][0..] == files[0];
      OneFileIsUncut(files);
    } else {
      var before, last := files[n - 1], files[n];
      assert before <= last && last[..|before|] == before && files[..n][n - 1] == before;
      PrefixIsWellFormed(last, |before|);
      ShorterCuts(files);
      PiecesAreText(files[..n], tail);
      if PointBoundary(last, |before|) { CutBetween(last, |before|); } else { CutIsInside(last, |before|); }
    }
  }

  lemma OneFileIsUncut(files: seq<Bytes>)
    requires |files| == 1
    ensures CutBetweenPoints(files)
  {
  }

  lemma CutIsInside(b: Bytes, i: nat)
    requires WellFormed(b) && i <= |b| && !PointBoundary(b, i)
    ensures |Decode(b[..i])| + |Decode(b[i..])| > |Decode(b)|
  {
    CutInside(b, i);
  }

  /** A growing file of well-formed text first seen within the window size: the lines taken and the pending text are
      those of a full scan if and only if every refresh before the last growth ended between two characters; the state
      then is that of a full scan. */
  lemma IncrementalIsFullScan(files: seq<Bytes>, tail: nat, read: Reader)
    requires AppendOnly(files) && files != [] && WellFormed(files[|files| - 1]) && |files[0]| <= tail
    ensures Split(Tracked(files, tail)) == Split(Decode(files[|files| - 1])) <==> CutBetweenPoints(files)
    ensures Follow(files, tail, read).Some?
    ensures Follow(files, tail, read).value.pending == Split(Tracked(files, tail)).rest
    ensures CutBetweenPoints(files) ==> Follow(files, tail, read) == Some(FullScan(files[|files| - 1], read))
  {
    hide Decode, WellFormed, CutBetweenPoints, ConsumeAll;
    ChunksDoNotMatter(files, tail, read);
    PiecesAreText(files, tail);
    SplitLengths(Tracked(files, tail));
    SplitLengths(Decode(files[|files| - 1]));
  }

  /** A goal line with a two-byte character, refreshed between its bytes: the goal is missed. */
  lemma CutCharacterLosesGoal(read: Reader)
    requires read([0xE9]) == Goal(Anchor(1), Some(5)) && read([REPLACEMENT, REPLACEMENT]) == Ignored
    ensures var file: Bytes := [0xC3, 0xA9, 10];
            Report(Follow([file[..1], file], 3, read).value) == None &&
            Report(FullScan(file, read)) == Some(Scan(Some(Progress(1, 0)), Some(5)))
  {
    hide ConsumeAll, Decode, Chunk;
    var file: Bytes := [0xC3, 0xA9, 10];
    var files: seq<Bytes> := [file[..1], file];
    ChunksDoNotMatter(files, 3, read);
    assert files[..1] == [file[..1]] && file[..1] == [0xC3] && file[..1][0..] == [0xC3] && file[1..] == [0xA9, 10];
    TwoByteLine();
    assert Tracked(files, 3) == [REPLACEMENT] + [REPLACEMENT, NEWLINE] == [REPLACEMENT, REPLACEMENT] + [NEWLINE];
    OneLineChunk(Blank(3), [REPLACEMENT, REPLACEMENT], read);
    OneLineChunk(Blank(3), [0xE9], read);
  }

  lemma TwoByteLine()
    ensures Decode([0xC3]) == [REPLACEMENT] && Decode([0xA9, 10]) == [REPLACEMENT, NEWLINE]
    ensures Decode([0xC3, 0xA9, 10]) == [0xE9] + [NEWLINE]
  {
    var a: Bytes, b: Bytes, c: Bytes := [0xC3], [0xA9, 10], [0xC3, 0xA9, 10];
    assert a[1..] == [] && b[1..] == [10] && c[2..] == [10];
    DecodeNewline();
    DecodeStep(a);
    DecodeStep(b);
    DecodeStep(c);
  }

  lemma OneLineChunk(s: State, line: Text, read: Reader)
    requires OneLine(line)
    ensures Chunk(s, line + [NEWLINE], read) == Consume(s, read(line)).(pending := [])
  {
    hide Consume;
    var text := line + [NEWLINE];
    assert text[..|line|] == line && text[|line| + 1..] == [];
    HeadLine(s, text, |line|, read);
    EmptyChunk(Consume(s, read(line)), read);
  }

  lemma EmptyChunk(s: State, read: Reader)
    ensures Chunk(s, [], read) == s.(pending := [])
  {
  }

  /** A file that shrank is read again from its tail, whatever was known of it. */
  lemma TruncationReseeds(s: State, file: Bytes, tail: nat, read: Reader)
    requires |file| < s.offset
    ensures Refreshed(Some(s), file, tail, read) == Follow([file], tail, read).value
  {
    hide Chunk, SeedText;
    assert [file][..0] == [];
  }

  // ---- seeding from a tail window ----

  predicate Sound(e: Entry) {
    e.Goal? && !e.news.Malformed?
  }

  predicate Timed(e: Entry) {
    e.Goal? && e.at.Some?
  }

  predicate HasGoal(lines: seq<Text>, read: Reader) {
    exists i :: 0 <= i < |lines| && read(lines[i]).Goal?
  }

  predicate HasSound(lines: seq<Text>, read: Reader) {
    exists i :: 0 <= i < |lines| && Sound(read(lines[i]))
  }

  predicate HasTimed(lines: seq<Text>, read: Reader) {
    exists i :: 0 <= i < |lines| && Timed(read(lines[i]))
  }

  /** The goal some lines leave: that of the last goal entry that is well formed or a tombstone. */
  function GoalLeft(lines: seq<Text>, read: Reader): Option<nat> {
    if lines == [] then None
    else match read(lines[|lines| - 1])
      case Goal(Tombstone, _) => None
      case Goal(Anchor(id), _) => Some(id)
      case _ => GoalLeft(lines[..|lines| - 1], read)
  }

  /** The time some lines leave: that of the last goal entry with a timestamp. */
  function TimeLeft(lines: seq<Text>, read: Reader): Option<int> {
    if lines == [] then None
    else match read(lines[|lines| - 1])
      case Goal(_, Some(at)) => Some(at)
      case _ => TimeLeft(lines[..|lines| - 1], read)
  }

  /** The messages some lines leave: those after the last goal entry. */
  function MessagesLeft(lines: seq<Text>, read: Reader): nat {
    if lines == [] then 0
    else match read(lines[|lines| - 1])
      case Goal(_, _) => 0
      case Message => MessagesLeft(lines[..|lines| - 1], read) + 1
      case Ignored => MessagesLeft(lines[..|lines| - 1], read)
  }

  lemma {:induction false} WhatLinesLeave(offset: nat, lines: seq<Text>, read: Reader)
    ensures var s := ConsumeAll(Blank(offset), lines, read);
            s.goal == GoalLeft(lines, read) && s.updatedAt == TimeLeft(lines, read) &&
            s.messagesSince == MessagesLeft(lines, read) && (s.hasGoalEntries <==> HasGoal(lines, read))
    decreases |lines|
  {
    hide ConsumeAll;
    if lines == [] {
      ConsumeNothing(Blank(offset), read);
    } else {
      var n := |lines| - 1;
      assert lines == lines[..n] + [lines[n]];
      WhatLinesLeave(offset, lines[..n], read);
      ConsumeConcat(Blank(offset), lines[..n], [lines[n]], read);
      ConsumeOne(ConsumeAll(Blank(offset), lines[..n], read), lines[n], read);
      HasGoalPush(lines[..n], lines[n], read);
    }
  }

  lemma ConsumeNothing(s: State, read: Reader)
    ensures ConsumeAll(s, [], read) == s
  {
  }

  lemma ConsumeOne(s: State, line: Text, read: Reader)
    ensures ConsumeAll(s, [line], read) == Consume(s, read(line))
  {
    assert [line][1..] == [];
  }

  lemma HasGoalPush(lines: seq<Text>, line: Text, read: Reader)
    ensures HasGoal(lines + [line], read) <==> HasGoal(lines, read) || read(line).Goal?
  {
    var all := lines + [line];
    assert all[|lines|] == line;
    if HasGoal(lines, read) {
      var i :| 0 <= i < |lines| && read(lines[i]).Goal?;
      assert all[i] == lines[i];
    }
  }

  /** What must agree before some lines for the reports after them to agree. */
  predicate AgreeBefore(a: State, b: State, lines: seq<Text>, read: Reader) {
    if HasGoal(lines, read) then (HasSound(lines, read) || a.goal == b.goal) &&
      (HasTimed(lines, read) || a.updatedAt == b.updatedAt)
    else Report(a) == Report(b)
  }

  /** Two states report the same after the same lines exactly when whatever those lines leave open agreed before. */
  lemma {:induction false} ReportsAgreeExactly(a: State, b: State, lines: seq<Text>, read: Reader)
    ensures Report(ConsumeAll(a, lines, read)) == Report(ConsumeAll(b, lines, read)) <==> AgreeBefore(a, b, lines, read)
    decreases |lines|
  {
    if lines == [] {
    } else {
      hide ConsumeAll, HasGoal, HasSound, HasTimed;
      var e, rest := read(lines[0]), lines[1..];
      ConsumeHead(a, lines, read);
      ConsumeHead(b, lines, read);
      ReportsAgreeExactly(Consume(a, e), Consume(b, e), rest, read);
      HasHead(lines, read);
    }
  }

  lemma ConsumeHead(s: State, lines: seq<Text>, read: Reader)
    requires lines != []
    ensures ConsumeAll(s, lines, read) == ConsumeAll(Consume(s, read(lines[0])), lines[1..], read)
  {
  }

  lemma HasHead(lines: seq<Text>, read: Reader)
    requires lines != []
    ensures HasGoal(lines, read) <==> read(lines[0]).Goal? || HasGoal(lines[1..], read)
    ensures HasSound(lines, read) <==> Sound(read(lines[0])) || HasSound(lines[1..], read)
    ensures HasTimed(lines, read) <==> Timed(read(lines[0])) || HasTimed(lines[1..], read)
    ensures HasSound(lines, read) || HasTimed(lines, read) ==> HasGoal(lines, read)
  {
    var rest := lines[1..];
    assert forall i :: 0 <= i < |rest| ==> rest[i] == lines[i + 1];
    if i :| 0 < i < |lines| && read(lines[i]).Goal? { assert rest[i - 1] == lines[i]; }
    if i :| 0 < i < |lines| && Sound(read(lines[i])) { assert rest[i - 1] == lines[i]; }
    if i :| 0 < i < |lines| && Timed(read(lines[i])) { assert rest[i - 1] == lines[i]; }
  }

  /** A scan of all lines and a scan of the last of them report the same exactly when the last ones hold a goal entry
      that is not malformed, or the others leave no goal, and one with a timestamp, or the others leave no time; or
      neither part holds a goal entry. */
  lemma TailLinesExactly(offset: nat, pre: seq<Text>, win: seq<Text>, read: Reader)
    ensures Report(ConsumeAll(Blank(offset), win, read)) == Report(ConsumeAll(Blank(offset), pre + win, read)) <==>
            if HasGoal(win, read)
            then (HasSound(win, read) || GoalLeft(pre, read) == None) &&
              (HasTimed(win, read) || TimeLeft(pre, read) == None)
            else !HasGoal(pre, read)
  {
    hide ConsumeAll, HasGoal, HasSound, HasTimed;
    ConsumeConcat(Blank(offset), pre, win, read);
    ReportsAgreeExactly(Blank(offset), ConsumeAll(Blank(offset), pre, read), win, read);
    WhatLinesLeave(offset, pre, read);
  }

  /** What is reported after any refreshes of a growing file, wherever they cut it, is what the lines of the decoded
      pieces leave. */
  lemma ReportIsLeft(files: seq<Bytes>, tail: nat, read: Reader)
    requires AppendOnly(files) && files != []
    ensures var lines := Split(Tracked(files, tail)).lines;
            Report(Follow(files, tail, read).value) ==
            if HasGoal(lines, read)
            then Some(Scan(Counted(GoalLeft(lines, read), MessagesLeft(lines, read)), TimeLeft(lines, read))) else None
  {
    hide Split, Tracked, ConsumeAll, HasGoal, GoalLeft, TimeLeft, MessagesLeft;
    ChunksDoNotMatter(files, tail, read);
    WhatLinesLeave(|files[|files| - 1]|, Split(Tracked(files, tail)).lines, read);
  }

  /** Wherever the refreshes cut the file: tracking reports what a full scan does exactly when whatever the lines both
      end in leave open agrees after what each has before them. */
  lemma TrackingExactly(files: seq<Bytes>, tail: nat, seen: seq<Text>, pre: seq<Text>, win: seq<Text>, read: Reader)
    requires AppendOnly(files) && files != []
    requires Split(Tracked(files, tail)).lines == seen + win
    requires Split(Decode(files[|files| - 1])).lines == pre + win
    ensures var last := files[|files| - 1];
            Report(Follow(files, tail, read).value) == Report(FullScan(last, read)) <==>
            AgreeBefore(ConsumeAll(Blank(|last|), seen, read), ConsumeAll(Blank(|last|), pre, read), win, read)
  {
    hide Split, Tracked, Decode, ConsumeAll, AgreeBefore;
    var blank := Blank(|files[|files| - 1]|);
    ChunksDoNotMatter(files, tail, read);
    ConsumeConcat(blank, seen, win, read);
    ConsumeConcat(blank, pre, win, read);
    ReportsAgreeExactly(ConsumeAll(blank, seen, read), ConsumeAll(blank, pre, read), win, read);
  }

  /** The first line start at or after `p`, or the end of the file. */
  function NextLineStart(file: Bytes, p: nat): (q: nat)
    requires p <= |file|
    ensures p <= q <= |file|
    ensures LineStart(file, q) || (q == |file| && !LineStart(file, p) && OneLine(file[p..]))
  {
    if LineStart(file, p) then p
    else
      var i := NewlineFrom(file, p);
      if i < 0 then |file| else i + 1
  }

  /** The lines of the file before a tail window, the lines wholly in it, and what of an earlier line it shows. */
  function LinesBefore(first: Bytes, last: Bytes, tail: nat): seq<Text>
    requires first <= last
  {
    Split(Decode(last[..NextLineStart(last, WindowStart(first, tail))])).lines
  }

  function LinesInside(first: Bytes, last: Bytes, tail: nat): seq<Text>
    requires first <= last
  {
    Split(Decode(last[NextLineStart(last, WindowStart(first, tail))..])).lines
  }

  /** Only when the window holds no line break does the tracker keep the fragment of a line at its start. */
  function FragmentKept(first: Bytes, last: Bytes, tail: nat): seq<Text>
    requires first <= last
  {
    var p := WindowStart(first, tail);
    if LineStart(last, p) || !OneLine(first[p..]) then [] else Split(Decode(last[p..NextLineStart(last, p)])).lines
  }

  lemma WholeSplit(file: Bytes, q: nat)
    requires q <= |file| && (LineStart(file, q) || q == |file|)
    ensures Split(Decode(file)).lines == Split(Decode(file[..q])).lines + Split(Decode(file[q..])).lines
  {
    hide Decode;
    if LineStart(file, q) {
      DecodedAt(file, q);
    } else {
      assert file[..q] == file && file[q..] == [];
      DecodeNothing(file, q);
      EmptySplit();
    }
  }

  /** The text that refreshes see of a growing file of well-formed text, cut between characters: all of it from some
      place on. */
  lemma {:induction false} TrackedFrom(files: seq<Bytes>, tail: nat, p: nat)
    requires AppendOnly(files) && files != [] && WellFormed(files[|files| - 1]) && CutBetweenPoints(files)
    requires p <= |files[0]| && SeedText(files[0], tail) == Decode(files[0][p..])
    ensures p <= |files[|files| - 1]| && Tracked(files, tail) == Decode(files[|files| - 1][p..])
    decreases |files|
  {
    hide Decode, WellFormed, PointBoundary, CutBetweenPoints, SeedText;
    var n := |files| - 1;
    if n == 0 {
    } else {
      var before, last := files[n - 1], files[n];
      assert files[0] <= before <= last && last[..|before|] == before && files[..n][n - 1] == before;
      PrefixIsWellFormed(last, |before|);
      ShorterCuts(files);
      TrackedFrom(files[..n], tail, p);
      CutBehind(last, p, |before|);
      assert last[p..|before|] == before[p..];
    }
  }

  /** Where the seed's text starts in the file. */
  function SeedStart(file: Bytes, tail: nat): (p: nat)
    ensures p <= |file|
  {
    var start := WindowStart(file, tail);
    if LineStart(file, start) || OneLine(file[start..]) then start else NextLineStart(file, start)
  }

  lemma SeedIsDecoded(file: Bytes, tail: nat)
    ensures SeedText(file, tail) == Decode(file[SeedStart(file, tail)..])
  {
    hide Decode;
    var start := WindowStart(file, tail);
    var b := file[start..];
    var raw := Decode(b);
    if LineStart(file, start) {
    } else if OneLine(b) {
      NoNewlineDecoded(b);
    } else {
      var q := NextLineStart(file, start);
      var i := q - start - 1;
      assert b[i] == NEWLINE && OneLine(b[..i]) by { assert forall k :: 0 <= k < i ==> b[k] == file[start + k]; }
      DecodeAtNewline(b, i);
      NoNewlineDecoded(b[..i]);
      var j := |Decode(b[..i])|;
      assert raw[j] == NEWLINE && raw[..j] == Decode(b[..i]) && raw[j + 1..] == Decode(b[i + 1..]);
      SameBreak(raw, j);
      assert b[i + 1..] == file[q..];
    }
  }

  /** Tracking from a tail window, then and after any appends cut between characters, reports what a full scan does
      exactly under the condition of `AgreeBefore` on the lines before the window, the lines inside it, and the kept
      fragment; without a fragment that condition is the one of `TailLinesExactly`. */
  lemma TailWindowExactly(files: seq<Bytes>, tail: nat, read: Reader)
    requires AppendOnly(files) && files != [] && WellFormed(files[|files| - 1]) && CutBetweenPoints(files)
    ensures var first, last := files[0], files[|files| - 1];
            var blank := Blank(|last|);
            Report(Follow(files, tail, read).value) == Report(FullScan(last, read)) <==>
            AgreeBefore(ConsumeAll(blank, FragmentKept(first, last, tail), read),
                        ConsumeAll(blank, LinesBefore(first, last, tail), read), LinesInside(first, last, tail), read)
  {
    hide Decode, WellFormed, CutBetweenPoints, ConsumeAll, AgreeBefore, Split, SeedText, FirstNewline, Report;
    var first, last := files[0], files[|files| - 1];
    var start := WindowStart(first, tail);
    var p, q := SeedStart(first, tail), NextLineStart(last, start);
    SeedIsDecoded(first, tail);
    FirstIsPrefix(files);
    TrackedFrom(files, tail, p);
    WholeSplit(last, q);
    SeedBeforeNext(first, last, tail);
    WholeSplit(last[p..], q - p);
    assert last[p..][..q - p] == last[p..q] && last[p..][q - p..] == last[q..];
    FragmentIsKept(first, last, tail);
    TrackingExactly(files, tail, FragmentKept(first, last, tail), LinesBefore(first, last, tail),
                    LinesInside(first, last, tail), read);
  }

  lemma FirstIsPrefix(files: seq<Bytes>)
    requires AppendOnly(files) && files != []
    ensures files[0] <= files[|files| - 1]
  {
  }

  /** The seed starts at the next line start, or keeps a fragment before it. */
  lemma SeedBeforeNext(first: Bytes, last: Bytes, tail: nat)
    requires first <= last
    ensures var start := WindowStart(first, tail);
            var p, q := SeedStart(first, tail), NextLineStart(last, start);
            && p <= q && (LineStart(last[p..], q - p) || q == |last|)
            && (LineStart(last, start) || !OneLine(first[start..]) ==> p == q)
            && (!LineStart(last, start) && OneLine(first[start..]) ==> p == start)
  {
    var start := WindowStart(first, tail);
    if !LineStart(first, start) && !OneLine(first[start..]) {
      var q := NextLineStart(first, start);
      assert forall k :: start <= k < |first| ==> first[k] == last[k];
      assert q - 1 == NewlineFrom(first, start) == NewlineFrom(last, start);
    }
  }

  lemma FragmentIsKept(first: Bytes, last: Bytes, tail: nat)
    requires first <= last
    ensures SeedStart(first, tail) <= NextLineStart(last, WindowStart(first, tail))
    ensures Split(Decode(last[SeedStart(first, tail)..NextLineStart(last, WindowStart(first, tail))])).lines ==
            FragmentKept(first, last, tail)
  {
    hide Decode, NewlineFrom;
    SeedBeforeNext(first, last, tail);
    var p := SeedStart(first, tail);
    if p == NextLineStart(last, WindowStart(first, tail)) {
      assert last[p..p] == [];
      DecodeNewline();
      EmptySplit();
    }
  }

  /** For a window that starts at a line or holds a line break, in terms of the lines alone. */
  lemma AlignedWindowExactly(files: seq<Bytes>, tail: nat, read: Reader)
    requires AppendOnly(files) && files != [] && WellFormed(files[|files| - 1]) && CutBetweenPoints(files)
    requires var start := WindowStart(files[0], tail); LineStart(files[0], start) || !OneLine(files[0][start..])
    ensures files[0] <= files[|files| - 1]
    ensures var pre := LinesBefore(files[0], files[|files| - 1], tail);
            var win := LinesInside(files[0], files[|files| - 1], tail);
            Report(Follow(files, tail, read).value) == Report(FullScan(files[|files| - 1], read)) <==>
            if HasGoal(win, read)
            then (HasSound(win, read) || GoalLeft(pre, read) == None) &&
              (HasTimed(win, read) || TimeLeft(pre, read) == None)
            else !HasGoal(pre, read)
  {
    hide Decode, WellFormed, CutBetweenPoints, ConsumeAll, Split, SeedText, HasGoal, HasSound, HasTimed, LinesBefore,
      LinesInside, NextLineStart, WindowStart;
    FirstIsPrefix(files);
    var first, last := files[0], files[|files| - 1];
    TailWindowExactly(files, tail, read);
    ConsumeNothing(Blank(|last|), read);
    WhatLinesLeave(|last|, LinesBefore(first, last, tail), read);
    SameStart(first, last, tail);
  }

  lemma SameStart(first: Bytes, last: Bytes, tail: nat)
    requires first <= last
    ensures var start := WindowStart(first, tail); LineStart(first, start) == LineStart(last, start)
  {
  }

  /** In particular the reports agree as long as some goal entry wholly in the window is well formed or a tombstone, and
      one has a timestamp; the newest goal entry can be both. */
  lemma TailWindowAgrees(files: seq<Bytes>, tail: nat, read: Reader)
    requires AppendOnly(files) && files != [] && WellFormed(files[|files| - 1]) && CutBetweenPoints(files)
    requires files[0] <= files[|files| - 1]
    requires HasSound(LinesInside(files[0], files[|files| - 1], tail), read)
    requires HasTimed(LinesInside(files[0], files[|files| - 1], tail), read)
    ensures Report(Follow(files, tail, read).value) == Report(FullScan(files[|files| - 1], read)) != None
  {
    hide Decode, WellFormed, CutBetweenPoints, ConsumeAll, Split, SeedText, HasGoal, HasSound, HasTimed, LinesBefore,
      LinesInside, FragmentKept;
    var first, last := files[0], files[|files| - 1];
    var win := LinesInside(first, last, tail);
    SoundIsGoal(win, read);
    TailWindowExactly(files, tail, read);
    FullLines(first, last, tail);
    ConsumeConcat(Blank(|last|), LinesBefore(first, last, tail), win, read);
    GoalStays(ConsumeAll(Blank(|last|), LinesBefore(first, last, tail), read), win, read);
  }

  lemma SoundIsGoal(lines: seq<Text>, read: Reader)
    requires HasSound(lines, read)
    ensures HasGoal(lines, read)
  {
  }

  lemma FullLines(first: Bytes, last: Bytes, tail: nat)
    requires first <= last
    ensures Split(Decode(last)).lines == LinesBefore(first, last, tail) + LinesInside(first, last, tail)
  {
    hide Decode, Split;
    WholeSplit(last, NextLineStart(last, WindowStart(first, tail)));
  }

  lemma {:induction false} GoalStays(s: State, lines: seq<Text>, read: Reader)
    requires s.hasGoalEntries || HasGoal(lines, read)
    ensures ConsumeAll(s, lines, read).hasGoalEntries
    decreases |lines|
  {
    if lines == [] {
    } else {
      hide HasGoal;
      HasHead(lines, read);
      GoalStays(Consume(s, read(lines[0])), lines[1..], read);
    }
  }

  /** Without a timestamp on the newest goal entry the window may miss the time a full scan still knows. */
  lemma UntimedGoalLosesTime(read: Reader)
    requires read([103]) == Goal(Anchor(1), Some(5)) && read([104]) == Goal(Anchor(2), None)
    ensures var file: Bytes := [103, 10, 104, 10];
            Report(Follow([file], 2, read).value) == Some(Scan(Some(Progress(2, 0)), None)) &&
            Report(FullScan(file, read)) == Some(Scan(Some(Progress(2, 0)), Some(5)))
  {
    hide Chunk, ConsumeAll, Split, Decode;
    var file: Bytes := [103, 10, 104, 10];
    var late: Bytes := [104, 10];
    assert file[2..] == late && LineStart(file, 2) && late[..1] == [104] && late[2..] == [];
    assert file[..1] == [103] && file[..2] == [103, 10];
    PlainPoint(103);
    PlainPoint(104);
    DecodeAtNewline(late, 1);
    DecodeAtNewline(file, 1);
    DecodeNewline();
    assert Decode(late) == [104] + [NEWLINE] && Decode(file) == [103, NEWLINE] + Decode(late);
    ChunksDoNotMatter([file], 2, read);
    OneLineChunk(Blank(4), [104], read);
    var text := Decode(file);
    assert text[..1] == [103] && text[2..] == Decode(late);
    HeadLine(Blank(4), text, 1, read);
    OneLineChunk(Consume(Blank(4), read([103])), [104], read);
  }

  lemma PlainPoint(x: Byte)
    requires x < 0x80
    ensures Decode([x]) == [x]
  {
    assert [x][1..] == [];
  }
}
