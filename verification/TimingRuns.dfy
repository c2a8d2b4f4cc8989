/**
 * Runs of the timing ledger: files that grow, refreshes in between, and what the day buckets then
 * say about the complete lines of the files.
 */
module TimingRuns {
  import opened Wrappers
  import opened Sums
  import opened TextEncoding
  import opened LineFeed
  import opened TimingLedger

  // ---- where a read ends ----

  /** The position just after the last newline of a buffer, or its head. */
  function LastLineStart(b: Bytes): (q: nat)
    ensures LineStart(b, q) && OneLine(b[q..])
    decreases |b|
  {
    if b == [] || b[|b| - 1] == NEWLINE then |b|
    else
      var q := LastLineStart(b[..|b| - 1]);
      assert b[..|b| - 1][q..] + [b[|b| - 1]] == b[q..];
      q
  }

  lemma CompleteBytes(b: Bytes)
    ensures var q := LastLineStart(b);
            CompletePart(Decode(b)) == Decode(b[..q]) && Split(Decode(b)).lines == Split(Decode(b[..q])).lines
  {
    hide Decode, Split, LastLineStart;
    var q := LastLineStart(b);
    DecodedAt(b, q);
    DecodedRest(b[q..]);
    SplitLengths(Decode(b));
    assert Split(Decode(b[..q])).lines + [] == Split(Decode(b[..q])).lines;
    assert Decode(b)[..|Decode(b[..q])|] == Decode(b[..q]);
  }

  /** The offset a read returns is just after the last newline exactly when no part of a character that decoding had to
      replace in the complete lines is shorter than its replacement. */
  lemma OffsetIsExact(content: Bytes, p: nat)
    requires p <= |content|
    ensures var q := LastLineStart(content[p..]);
            Consumed(content, p) == p + q <==> NoShortPart(content[p..][..q])
  {
    hide Decode, EncodedSize, CompletePart;
    CompleteBytes(content[p..]);
    ReencodedSize(content[p..][..LastLineStart(content[p..])]);
  }

  /** Complete lines of well-formed text have no such part. */
  lemma {:induction false} LinesAreWhole(b: Bytes)
    requires WellFormed(b) && LineStart(b, |b|)
    ensures NoShortPart(b)
    decreases |b|
  {
    hide Announced;
    if b == [] {
    } else {
      var n := PartSize(b);
      if n == |b| {
        if n > 1 { PartContinues(b, n - 1); } else { NewlineHead(b); }
      } else {
        assert b[n..][|b| - n - 1] == b[|b| - 1];
        LinesAreWhole(b[n..]);
      }
    }
  }

  /** A line start of well-formed text is between two characters. */
  lemma LineStartIsBoundary(b: Bytes, p: nat)
    requires WellFormed(b) && LineStart(b, p)
    ensures WellFormed(b[p..]) && WellFormed(b[..p])
  {
    hide Decode, WellFormed;
    if p == 0 {
      assert b[0..] == b && b[..0] == [];
      EmptyIsWellFormed();
    } else {
      DecodeAtNewline(b, p - 1);
      if PointBoundary(b, p) { CutBetween(b, p); } else { CutInside(b, p); }
    }
  }

  lemma ReadsWholeLines(content: Bytes, p: nat)
    requires WellFormed(content) && LineStart(content, p)
    ensures var q := Consumed(content, p);
            && q <= |content| && LineStart(content, q) && OneLine(content[q..])
            && Split(Decode(content)).lines == Split(Decode(content[..q])).lines
            && Split(Decode(content)).lines == Split(Decode(content[..p])).lines + Split(Decode(content[p..])).lines
  {
    hide Decode, WellFormed, Split, LastLineStart, Consumed, NoShortPart;
    var b := content[p..];
    var q := LastLineStart(b);
    LineStartIsBoundary(content, p);
    LineStartIsBoundary(b, q);
    LinesAreWhole(b[..q]);
    OffsetIsExact(content, p);
    assert content[p + q..] == b[q..];
    DecodedAt(content, p);
    DecodedAt(content, p + q);
    DecodedRest(content[p + q..]);
    assert Split(Decode(content[..p + q])).lines + [] == Split(Decode(content[..p + q])).lines;
  }

  // ---- runs ----

  /** One line read: which file it is from, and the cutoff of that refresh. */
  datatype Read = Read(file: string, line: Text, cutoff: int)

  /** Files grow, and the ledger is refreshed; a refresh sees the files it lists as they are. */
  datatype Step = Append(file: string, bytes: Bytes) | Refresh(files: seq<string>, cutoff: int)

  datatype World = World(contents: map<string, Bytes>, ledger: Ledger, log: seq<Read>)

  function ContentOf(w: World, file: string): Bytes {
    if file in w.contents then w.contents[file] else []
  }

  function Tagged(file: string, lines: seq<Text>, cutoff: int): seq<Read> {
    if lines == [] then [] else Tagged(file, lines[..|lines| - 1], cutoff) + [Read(file, lines[|lines| - 1], cutoff)]
  }

  function NewLines(l: Ledger, file: string, content: Bytes): seq<Text> {
    Split(Decode(content[Resume(l, file, content)..])).lines
  }

  function RefreshFile(w: World, file: string, cutoff: int, parse: Parser, dateOf: Calendar): World {
    if file !in w.contents then w
    else
      var content := w.contents[file];
      World(w.contents, ReadFile(w.ledger, file, content, cutoff, parse, dateOf),
            w.log + Tagged(file, NewLines(w.ledger, file, content), cutoff))
  }

  function RefreshFiles(w: World, files: seq<string>, cutoff: int, parse: Parser, dateOf: Calendar): World {
    if files == [] then w
    else RefreshFile(RefreshFiles(w, files[..|files| - 1], cutoff, parse, dateOf), files[|files| - 1], cutoff, parse,
                     dateOf)
  }

  function Start(contents: map<string, Bytes>): World {
    World(contents, Ledger(map[], map[]), [])
  }

  function Play(steps: seq<Step>, parse: Parser, dateOf: Calendar): World {
    if steps == [] then Start(map[])
    else
      var w := Play(steps[..|steps| - 1], parse, dateOf);
      match steps[|steps| - 1]
      case Append(file, bytes) => w.(contents := w.contents[file := ContentOf(w, file) + bytes])
      case Refresh(files, cutoff) => RefreshFiles(w, files, cutoff, parse, dateOf)
  }

  /** The lines of one file, in the order they were read. */
  function LinesOf(log: seq<Read>, file: string): seq<Text> {
    if log == [] then []
    else LinesOf(log[..|log| - 1], file) + if log[|log| - 1].file == file then [log[|log| - 1].line] else []
  }

  /** The records read, each judged by the cutoff of its own refresh. */
  function RecordsOf(log: seq<Read>, parse: Parser): seq<Rec> {
    if log == [] then []
    else RecordsOf(log[..|log| - 1], parse) + Kept([log[|log| - 1].line], log[|log| - 1].cutoff, parse)
  }

  ghost predicate AllWellFormed(w: World) {
    forall f :: f in w.contents ==> WellFormed(w.contents[f])
  }

  function CompleteLines(b: Bytes): seq<Text> {
    Split(Decode(b)).lines
  }

  /** The stored offset is a line boundary, and the lines read are exactly the complete lines before it, each once. */
  predicate ReadOnce(w: World, file: string) {
    var offset, content := OffsetOf(w.ledger, file), ContentOf(w, file);
    LineStart(content, offset) && LinesOf(w.log, file) == CompleteLines(content[..offset])
  }

  lemma {:induction false} LinesOfTagged(log: seq<Read>, f: string, lines: seq<Text>, cutoff: int, file: string)
    ensures LinesOf(log + Tagged(f, lines, cutoff), file) == LinesOf(log, file) + (if f == file then lines else [])
    decreases |lines|
  {
    if lines == [] {
      assert log + Tagged(f, lines, cutoff) == log;
    } else {
      var n := |lines| - 1;
      var all := log + Tagged(f, lines, cutoff);
      assert all[..|all| - 1] == log + Tagged(f, lines[..n], cutoff);
      LinesOfTagged(log, f, lines[..n], cutoff, file);
      assert lines == lines[..n] + [lines[n]];
    }
  }

  lemma KeptNothing(cutoff: int, parse: Parser)
    ensures Kept([], cutoff, parse) == []
  {
  }

  lemma KeptLast(lines: seq<Text>, line: Text, cutoff: int, parse: Parser)
    ensures Kept(lines + [line], cutoff, parse) == Kept(lines, cutoff, parse) + Kept([line], cutoff, parse)
  {
    KeptPush(lines, line, cutoff, parse);
    KeptPush([], line, cutoff, parse);
    assert [] + [line] == [line];
  }

  lemma RecordsPush(log: seq<Read>, r: Read, parse: Parser)
    ensures RecordsOf(log + [r], parse) == RecordsOf(log, parse) + Kept([r.line], r.cutoff, parse)
  {
    hide Kept;
    assert (log + [r])[..|log|] == log;
  }

  lemma {:induction false} RecordsOfTagged(log: seq<Read>, f: string, lines: seq<Text>, cutoff: int, parse: Parser)
    ensures RecordsOf(log + Tagged(f, lines, cutoff), parse) == RecordsOf(log, parse) + Kept(lines, cutoff, parse)
    decreases |lines|
  {
    hide Kept, RecordsOf;
    var before := RecordsOf(log, parse);
    if lines == [] {
      assert log + Tagged(f, lines, cutoff) == log;
      KeptNothing(cutoff, parse);
      assert before + [] == before;
    } else {
      var n := |lines| - 1;
      var some, r := log + Tagged(f, lines[..n], cutoff), Read(f, lines[n], cutoff);
      assert log + Tagged(f, lines, cutoff) == some + [r];
      RecordsOfTagged(log, f, lines[..n], cutoff, parse);
      RecordsPush(some, r, parse);
      assert lines == lines[..n] + [lines[n]];
      KeptLast(lines[..n], lines[n], cutoff, parse);
      var kept, last := Kept(lines[..n], cutoff, parse), Kept([lines[n]], cutoff, parse);
      assert (before + kept) + last == before + (kept + last);
    }
  }

  lemma ReadKeepsOnce(w: World, f: string, cutoff: int, parse: Parser, dateOf: Calendar, file: string)
    requires ReadOnce(w, file) && (f in w.contents ==> ReadOnce(w, f) && WellFormed(w.contents[f]))
    ensures ReadOnce(RefreshFile(w, f, cutoff, parse, dateOf), file)
    ensures f == file && f in w.contents ==>
              LinesOf(RefreshFile(w, f, cutoff, parse, dateOf).log, file) == CompleteLines(w.contents[f])
  {
    hide Split, LinesOf, IngestAll, Kept, Decode, WellFormed, Consumed, Tagged;
    if f in w.contents {
      var content := w.contents[f];
      var p := OffsetOf(w.ledger, f);
      LinesOfTagged(w.log, f, NewLines(w.ledger, f, content), cutoff, file);
      if f == file {
        ReadsWholeLines(content, p);
        ConsumedGrows(content, p);
      }
    }
  }

  lemma ConsumedGrows(content: Bytes, p: nat)
    requires p <= |content|
    ensures Consumed(content, p) >= p && (p == |content| ==> Consumed(content, p) == p)
  {
    assert content[|content|..] == [];
  }

  lemma {:induction false} RefreshKeepsOnce(w: World, files: seq<string>, cutoff: int, parse: Parser, dateOf: Calendar,
                                            file: string)
    requires AllWellFormed(w) && forall f :: ReadOnce(w, f)
    ensures ReadOnce(RefreshFiles(w, files, cutoff, parse, dateOf), file)
    ensures RefreshFiles(w, files, cutoff, parse, dateOf).contents == w.contents
    ensures file in files && file in w.contents ==>
              LinesOf(RefreshFiles(w, files, cutoff, parse, dateOf).log, file) == CompleteLines(w.contents[file])
    decreases |files|
  {
    hide ReadOnce, CompleteLines, ReadFile, LinesOf, NewLines;
    if files == [] {
    } else {
      var n := |files| - 1;
      var v := RefreshFiles(w, files[..n], cutoff, parse, dateOf);
      RefreshKeepsOnce(w, files[..n], cutoff, parse, dateOf, file);
      RefreshKeepsOnce(w, files[..n], cutoff, parse, dateOf, files[n]);
      assert files == files[..n] + [files[n]];
      ReadKeepsOnce(v, files[n], cutoff, parse, dateOf, file);
      if file in files[..n] && files[n] != file && file in w.contents {
        OtherFile(v, files[n], cutoff, parse, dateOf, file);
      }
    }
  }

  lemma OtherFile(w: World, f: string, cutoff: int, parse: Parser, dateOf: Calendar, file: string)
    requires f != file
    ensures LinesOf(RefreshFile(w, f, cutoff, parse, dateOf).log, file) == LinesOf(w.log, file)
  {
    hide LinesOf, NewLines, ReadFile;
    if f in w.contents { LinesOfTagged(w.log, f, NewLines(w.ledger, f, w.contents[f]), cutoff, file); }
  }

  lemma AppendKeepsOnce(w: World, f: string, bytes: Bytes, file: string)
    requires ReadOnce(w, file)
    ensures ReadOnce(w.(contents := w.contents[f := ContentOf(w, f) + bytes]), file)
  {
    hide CompleteLines, LinesOf;
    if f == file {
      var offset := OffsetOf(w.ledger, f);
      assert (ContentOf(w, f) + bytes)[..offset] == ContentOf(w, f)[..offset];
    }
  }

  /** If the files are well formed at the end, they were before. */
  lemma BeforeIsWellFormed(w: World, f: string, bytes: Bytes)
    requires AllWellFormed(w.(contents := w.contents[f := ContentOf(w, f) + bytes]))
    ensures AllWellFormed(w)
  {
    hide WellFormed;
    var after := ContentOf(w, f) + bytes;
    var contents := w.contents[f := after];
    assert f in contents && contents[f] == after;
    forall g | g in w.contents && g != f ensures WellFormed(w.contents[g]) { assert contents[g] == w.contents[g]; }
    PrefixIsWellFormed(after, |ContentOf(w, f)|);
    assert after[..|ContentOf(w, f)|] == ContentOf(w, f);
  }

  lemma {:induction false} RefreshKeepsContents(w: World, files: seq<string>, cutoff: int, parse: Parser,
                                                dateOf: Calendar)
    ensures RefreshFiles(w, files, cutoff, parse, dateOf).contents == w.contents
    decreases |files|
  {
    hide ReadFile, NewLines;
    if files == [] {
    } else {
      RefreshKeepsContents(w, files[..|files| - 1], cutoff, parse, dateOf);
    }
  }

  /** For files of well-formed text that only grow, and any interleaving of appends and refreshes, every stored
      offset is a line boundary and the lines taken from a file are its complete lines up to that offset, each once and
      in order. */
  lemma {:induction false} EveryLineOnce(steps: seq<Step>, parse: Parser, dateOf: Calendar, file: string)
    requires AllWellFormed(Play(steps, parse, dateOf))
    ensures ReadOnce(Play(steps, parse, dateOf), file)
    decreases |steps|
  {
    hide ReadOnce, RefreshFiles, AllWellFormed;
    if steps == [] {
      NothingRead(map[], file);
    } else {
      var w := Play(steps[..|steps| - 1], parse, dateOf);
      match steps[|steps| - 1]
      case Append(f, bytes) =>
        BeforeIsWellFormed(w, f, bytes);
        EveryLineOnce(steps[..|steps| - 1], parse, dateOf, file);
        AppendKeepsOnce(w, f, bytes, file);
      case Refresh(files, cutoff) =>
        RefreshKeepsContents(w, files, cutoff, parse, dateOf);
        SameContents(RefreshFiles(w, files, cutoff, parse, dateOf), w);
        forall f ensures ReadOnce(w, f) { EveryLineOnce(steps[..|steps| - 1], parse, dateOf, f); }
        RefreshKeepsOnce(w, files, cutoff, parse, dateOf, file);
    }
  }

  lemma SameContents(w: World, v: World)
    requires w.contents == v.contents
    ensures AllWellFormed(w) <==> AllWellFormed(v)
  {
  }

  lemma NothingRead(contents: map<string, Bytes>, file: string)
    ensures ReadOnce(Start(contents), file)
  {
    assert ContentOf(Start(contents), file)[..0] == [];
  }

  /** Right after a refresh that lists it, a file has been read up to its last complete line. */
  lemma RefreshCatchesUp(steps: seq<Step>, files: seq<string>, cutoff: int, parse: Parser, dateOf: Calendar,
                         file: string)
    requires AllWellFormed(Play(steps, parse, dateOf)) && file in files && file in Play(steps, parse, dateOf).contents
    ensures LinesOf(Play(steps + [Refresh(files, cutoff)], parse, dateOf).log, file) ==
            CompleteLines(Play(steps, parse, dateOf).contents[file])
  {
    hide ReadOnce, RefreshFiles, CompleteLines, LinesOf, AllWellFormed;
    var all := steps + [Refresh(files, cutoff)];
    assert all[..|all| - 1] == steps;
    forall f ensures ReadOnce(Play(steps, parse, dateOf), f) { EveryLineOnce(steps, parse, dateOf, f); }
    RefreshKeepsOnce(Play(steps, parse, dateOf), files, cutoff, parse, dateOf, file);
  }

  /** A file that shrank is read from its head again: its lines come on top of those read of it before, and there were
      some. */
  lemma ShrunkFileCountsTwice(w: World, file: string, content: Bytes, cutoff: int, parse: Parser, dateOf: Calendar)
    requires ReadOnce(w, file) && |content| < OffsetOf(w.ledger, file)
    ensures var shrunk := w.(contents := w.contents[file := content]);
            var log := RefreshFile(shrunk, file, cutoff, parse, dateOf).log;
            LinesOf(log, file) == LinesOf(w.log, file) + CompleteLines(content) &&
              LinesOf(log, file) != CompleteLines(content)
  {
    hide LinesOf, ReadFile, Decode, Split;
    var shrunk := w.(contents := w.contents[file := content]);
    assert content[0..] == content;
    LinesOfTagged(w.log, file, NewLines(w.ledger, file, content), cutoff, file);
    var seen := ContentOf(w, file)[..OffsetOf(w.ledger, file)];
    DecodeAtNewline(seen, |seen| - 1);
    assert seen[..|seen| - 1 + 1] == seen;
    NewlineMakesLine(Decode(seen[..|seen| - 1]));
  }

  /** One byte that is no character, in a complete line: the stored offset lies beyond the file, so the next refresh
      takes the file for shrunk and reads the same line again. */
  lemma StrayByteIsReadTwice(file: string, cutoff: int, parse: Parser, dateOf: Calendar)
    ensures var content: Bytes := [0xFF, 10];
            var once := RefreshFile(Start(map[file := content]), file, cutoff, parse, dateOf);
            && Consumed(content, 0) == 4 && CompleteLines(content) == [[REPLACEMENT]]
            && LinesOf(RefreshFile(once, file, cutoff, parse, dateOf).log, file) == [[REPLACEMENT], [REPLACEMENT]]
  {
    hide Decode, Split, IngestAll, Kept, Tagged;
    var content: Bytes := [0xFF, 10];
    StrayLine();
    var world := Start(map[file := content]);
    var once := RefreshFile(world, file, cutoff, parse, dateOf);
    assert content[0..] == content;
    LinesOfTagged([], file, CompleteLines(content), cutoff, file);
    assert LinesOf([], file) == [];
    LinesOfTagged(once.log, file, CompleteLines(content), cutoff, file);
  }

  lemma StrayLine()
    ensures Decode([0xFF, 10]) == [REPLACEMENT, NEWLINE] && CompleteLines([0xFF, 10]) == [[REPLACEMENT]]
    ensures Consumed([0xFF, 10], 0) == 4
  {
    var b: Bytes := [0xFF, 10];
    assert b[1..] == [10] && b[0..] == b;
    DecodeNewline();
    DecodeStep(b);
    var text: Text := [REPLACEMENT, NEWLINE];
    assert Decode(b) == text;
    SplitHead(text, 1);
    EmptySplit();
    assert text[..1] == [REPLACEMENT];
    assert CompletePart(text) == text;
    assert text[1..] == [NEWLINE] && text[2..] == [];
    assert EncodedSize(text) == 3 + EncodedSize([NEWLINE]) && EncodedSize([NEWLINE]) == 1 + EncodedSize([]);
  }

  lemma NewlineMakesLine(t: Text)
    ensures Split(t + [NEWLINE]).lines != []
  {
    FeedConcat(Cut([], []), t, [NEWLINE]);
    assert [NEWLINE][1..] == [];
  }

  // ---- the buckets ----

  /** The day buckets are one pass of ingestion over the records of the lines read, within retention. */
  predicate Folded(w: World, parse: Parser, dateOf: Calendar) {
    w.ledger.days == IngestAll(map[], RecordsOf(w.log, parse), dateOf)
  }

  lemma {:induction false} RefreshKeepsFolded(w: World, files: seq<string>, cutoff: int, parse: Parser,
                                              dateOf: Calendar)
    requires Folded(w, parse, dateOf)
    ensures Folded(RefreshFiles(w, files, cutoff, parse, dateOf), parse, dateOf)
    decreases |files|
  {
    hide IngestAll, RecordsOf, Split, Kept, Tagged, Decode, Consumed;
    if files == [] {
    } else {
      var n := |files| - 1;
      var v, f := RefreshFiles(w, files[..n], cutoff, parse, dateOf), files[n];
      RefreshKeepsFolded(w, files[..n], cutoff, parse, dateOf);
      if f in v.contents {
        var lines := NewLines(v.ledger, f, v.contents[f]);
        RecordsOfTagged(v.log, f, lines, cutoff, parse);
        IngestConcat(map[], RecordsOf(v.log, parse), Kept(lines, cutoff, parse), dateOf);
      }
    }
  }

  lemma {:induction false} DaysAreOnePass(steps: seq<Step>, parse: Parser, dateOf: Calendar)
    ensures Folded(Play(steps, parse, dateOf), parse, dateOf)
    decreases |steps|
  {
    hide RefreshFiles;
    if steps == [] {
    } else {
      DaysAreOnePass(steps[..|steps| - 1], parse, dateOf);
      if steps[|steps| - 1].Refresh? {
        hide Folded;
        RefreshKeepsFolded(Play(steps[..|steps| - 1], parse, dateOf), steps[|steps| - 1].files,
                           steps[|steps| - 1].cutoff,
                           parse, dateOf);
      }
    }
  }

  // ---- the buckets and the files ----

  /** No read was judged by a later cutoff than this one. */
  predicate NoneLater(log: seq<Read>, cutoff: int) {
    forall i :: 0 <= i < |log| ==> log[i].cutoff <= cutoff
  }

  predicate OneCutoff(log: seq<Read>, cutoff: int) {
    forall i :: 0 <= i < |log| ==> log[i].cutoff == cutoff
  }

  /** Time does not run backwards: no refresh so far had a later cutoff. */
  predicate CutoffsUpTo(steps: seq<Step>, cutoff: int) {
    forall i :: 0 <= i < |steps| && steps[i].Refresh? ==> steps[i].cutoff <= cutoff
  }

  predicate CutoffsAt(steps: seq<Step>, cutoff: int) {
    forall i :: 0 <= i < |steps| && steps[i].Refresh? ==> steps[i].cutoff == cutoff
  }

  lemma {:induction false} TaggedCutoff(file: string, lines: seq<Text>, cutoff: int)
    ensures OneCutoff(Tagged(file, lines, cutoff), cutoff)
  {
    if lines == [] {
    } else {
      TaggedCutoff(file, lines[..|lines| - 1], cutoff);
    }
  }

  lemma {:induction false} RefreshKeepsCutoff(w: World, files: seq<string>, at: int, cutoff: int, parse: Parser,
                                              dateOf: Calendar)
    requires at <= cutoff && NoneLater(w.log, cutoff)
    ensures NoneLater(RefreshFiles(w, files, at, parse, dateOf).log, cutoff)
    ensures OneCutoff(w.log, at) ==> OneCutoff(RefreshFiles(w, files, at, parse, dateOf).log, at)
    decreases |files|
  {
    hide ReadFile, NewLines, Tagged;
    if files == [] {
    } else {
      var n := |files| - 1;
      var v := RefreshFiles(w, files[..n], at, parse, dateOf);
      RefreshKeepsCutoff(w, files[..n], at, cutoff, parse, dateOf);
      if files[n] in v.contents { TaggedCutoff(files[n], NewLines(v.ledger, files[n], v.contents[files[n]]), at); }
    }
  }

  lemma {:induction false} PlayKeepsCutoff(steps: seq<Step>, cutoff: int, parse: Parser, dateOf: Calendar)
    requires CutoffsUpTo(steps, cutoff)
    ensures NoneLater(Play(steps, parse, dateOf).log, cutoff)
    ensures CutoffsAt(steps, cutoff) ==> OneCutoff(Play(steps, parse, dateOf).log, cutoff)
    decreases |steps|
  {
    hide RefreshFiles;
    if steps == [] {
    } else {
      var n := |steps| - 1;
      assert CutoffsUpTo(steps[..n], cutoff) by { assert forall i :: 0 <= i < n ==> steps[..n][i] == steps[i]; }
      PlayKeepsCutoff(steps[..n], cutoff, parse, dateOf);
      if steps[n].Refresh? {
        RefreshKeepsCutoff(Play(steps[..n], parse, dateOf), steps[n].files, steps[n].cutoff, cutoff, parse, dateOf);
      }
    }
  }

  lemma {:induction false} TotalConcat(a: seq<Rec>, b: seq<Rec>, date: string, c: Cell, dateOf: Calendar)
    ensures Total(a + b, date, c, dateOf) == Total(a, date, c, dateOf) + Total(b, date, c, dateOf)
    decreases |b|
  {
    hide Adds;
    if b == [] {
      assert a + b == a;
    } else {
      assert (a + b)[..|a + b| - 1] == a + b[..|b| - 1];
      TotalConcat(a, b[..|b| - 1], date, c, dateOf);
    }
  }

  // ---- file by file ----

  /** The reads of one file. */
  function ReadsOf(log: seq<Read>, file: string): seq<Read> {
    if log == [] then []
    else ReadsOf(log[..|log| - 1], file) + if log[|log| - 1].file == file then [log[|log| - 1]] else []
  }

  /** What the lines of each file add to a number, each judged by the cutoff of the refresh that read it. */
  function JudgedTable(log: seq<Read>, files: set<string>, date: string, c: Cell, parse: Parser,
                       dateOf: Calendar): map<string, int> {
    map f | f in files :: Total(RecordsOf(ReadsOf(log, f), parse), date, c, dateOf)
  }

  /** One more read changes the entry of its file only, by what its line adds. */
  lemma OneMoreRead(log: seq<Read>, files: set<string>, date: string, c: Cell, parse: Parser, dateOf: Calendar)
    requires log != [] && log[|log| - 1].file in files
    ensures var r, before := log[|log| - 1], JudgedTable(log[..|log| - 1], files, date, c, parse, dateOf);
            JudgedTable(log, files, date, c, parse, dateOf) ==
            before[r.file := At(before, r.file) + Total(Kept([r.line], r.cutoff, parse), date, c, dateOf)]
  {
    hide Total, Kept, RecordsOf;
    var r, before := log[|log| - 1], log[..|log| - 1];
    forall f | f in files && f != r.file ensures ReadsOf(log, f) == ReadsOf(before, f) {
      assert ReadsOf(before, f) + [] == ReadsOf(before, f);
    }
    RecordsPush(ReadsOf(before, r.file), r, parse);
    TotalConcat(RecordsOf(ReadsOf(before, r.file), parse), Kept([r.line], r.cutoff, parse), date, c, dateOf);
  }

  /** However the reads of several files are interleaved, their records add up file by file. */
  lemma {:induction false} LogAddsUp(log: seq<Read>, files: set<string>, date: string, c: Cell, parse: Parser,
                                     dateOf: Calendar)
    requires forall i :: 0 <= i < |log| ==> log[i].file in files
    ensures Total(RecordsOf(log, parse), date, c, dateOf) == Sum(JudgedTable(log, files, date, c, parse, dateOf))
    decreases |log|
  {
    hide Sum, Total, Kept, JudgedTable;
    if log == [] {
      NoReads(files, date, c, parse, dateOf);
    } else {
      var r, before := log[|log| - 1], log[..|log| - 1];
      LogAddsUp(before, files, date, c, parse, dateOf);
      TotalConcat(RecordsOf(before, parse), Kept([r.line], r.cutoff, parse), date, c, dateOf);
      OneMoreRead(log, files, date, c, parse, dateOf);
      var table := JudgedTable(before, files, date, c, parse, dateOf);
      SumUpdate(table, r.file, At(table, r.file) + Total(Kept([r.line], r.cutoff, parse), date, c, dateOf));
    }
  }

  lemma NoReads(files: set<string>, date: string, c: Cell, parse: Parser, dateOf: Calendar)
    ensures Total(RecordsOf([], parse), date, c, dateOf) == 0 == Sum(JudgedTable([], files, date, c, parse, dateOf))
  {
    ZeroSum(JudgedTable([], files, date, c, parse, dateOf));
  }

  // ---- one pass ----

  /** What some lines add to a number of a date. */
  function LinesTotal(lines: seq<Text>, cutoff: int, date: string, c: Cell, parse: Parser, dateOf: Calendar): nat {
    Total(Kept(lines, cutoff, parse), date, c, dateOf)
  }

  /** What the complete lines of all files add to a number of a date. */
  function FilesTable(contents: map<string, Bytes>, cutoff: int, date: string, c: Cell, parse: Parser,
                      dateOf: Calendar): map<string, int> {
    map f | f in contents :: LinesTotal(CompleteLines(contents[f]), cutoff, date, c, parse, dateOf)
  }

  /** The log as it would be had every line been judged by one cutoff. */
  function Rejudged(log: seq<Read>, cutoff: int): (r: seq<Read>)
    ensures |r| == |log| && forall i :: 0 <= i < |r| ==> r[i] == log[i].(cutoff := cutoff)
  {
    seq(|log|, i requires 0 <= i < |log| => log[i].(cutoff := cutoff))
  }

  lemma {:induction false} RejudgedLines(log: seq<Read>, cutoff: int, file: string, parse: Parser)
    ensures RecordsOf(ReadsOf(Rejudged(log, cutoff), file), parse) == Kept(LinesOf(log, file), cutoff, parse)
    decreases |log|
  {
    hide Kept, RecordsOf;
    if log == [] {
      KeptNothing(cutoff, parse);
      NoRecords(parse);
    } else {
      var r, before, n := log[|log| - 1], log[..|log| - 1], |log| - 1;
      assert Rejudged(log, cutoff)[..n] == Rejudged(before, cutoff);
      RejudgedLines(before, cutoff, file, parse);
      if r.file == file {
        RecordsPush(ReadsOf(Rejudged(before, cutoff), file), r.(cutoff := cutoff), parse);
        KeptLast(LinesOf(before, file), r.line, cutoff, parse);
      } else {
        assert ReadsOf(Rejudged(before, cutoff), file) + [] == ReadsOf(Rejudged(before, cutoff), file);
        assert LinesOf(before, file) + [] == LinesOf(before, file);
      }
    }
  }

  lemma NoRecords(parse: Parser)
    ensures RecordsOf([], parse) == []
  {
  }

  /** The records that were taken when they were read and are older than the last cutoff since. */
  function Expired(log: seq<Read>, cutoff: int, parse: Parser): seq<Rec> {
    if log == [] then []
    else
      var r := log[|log| - 1];
      var rec := parse(r.line);
      Expired(log[..|log| - 1], cutoff, parse) +
      if rec.Some? && r.cutoff <= rec.value.at < cutoff then [rec.value] else []
  }

  lemma KeptOne(line: Text, cutoff: int, parse: Parser)
    ensures Kept([line], cutoff, parse) ==
            if parse(line).Some? && parse(line).value.at >= cutoff then [parse(line).value] else []
  {
    KeptPush([], line, cutoff, parse);
    assert [] + [line] == [line];
  }

  /** What a log counts is what it would count under the last cutoff, and the records that have expired. */
  lemma {:induction false} ExpiredAreExtra(log: seq<Read>, cutoff: int, date: string, c: Cell, parse: Parser,
                                           dateOf: Calendar)
    requires NoneLater(log, cutoff)
    ensures Total(RecordsOf(log, parse), date, c, dateOf) ==
            Total(RecordsOf(Rejudged(log, cutoff), parse), date, c, dateOf) +
            Total(Expired(log, cutoff, parse), date, c, dateOf)
    decreases |log|
  {
    hide Total, Kept;
    if log == [] {
      NothingAdded(date, c, dateOf);
    } else {
      var r, before, n := log[|log| - 1], log[..|log| - 1], |log| - 1;
      assert Rejudged(log, cutoff)[..n] == Rejudged(before, cutoff);
      ExpiredAreExtra(before, cutoff, date, c, parse, dateOf);
      TotalConcat(RecordsOf(before, parse), Kept([r.line], r.cutoff, parse), date, c, dateOf);
      TotalConcat(RecordsOf(Rejudged(before, cutoff), parse), Kept([r.line], cutoff, parse), date, c, dateOf);
      var rec := parse(r.line);
      var more := if rec.Some? && r.cutoff <= rec.value.at < cutoff then [rec.value] else [];
      TotalConcat(Expired(before, cutoff, parse), more, date, c, dateOf);
      KeptOne(r.line, r.cutoff, parse);
      KeptOne(r.line, cutoff, parse);
      NothingAdded(date, c, dateOf);
    }
  }

  lemma NothingAdded(date: string, c: Cell, dateOf: Calendar)
    ensures Total([], date, c, dateOf) == 0
  {
  }

  lemma {:induction false} NothingExpired(log: seq<Read>, cutoff: int, parse: Parser)
    requires OneCutoff(log, cutoff)
    ensures Expired(log, cutoff, parse) == []
    decreases |log|
  {
    if log == [] {
    } else {
      NothingExpired(log[..|log| - 1], cutoff, parse);
    }
  }

  lemma {:induction false} ReadIsOfFile(log: seq<Read>, i: nat)
    requires i < |log|
    ensures LinesOf(log, log[i].file) != []
  {
    if i == |log| - 1 {
    } else {
      assert log[..|log| - 1][i] == log[i];
      ReadIsOfFile(log[..|log| - 1], i);
    }
  }

  /** The lines read of every file are its complete lines, and no others were read. */
  ghost predicate CaughtUp(w: World) {
    && (forall f :: f in w.contents ==> LinesOf(w.log, f) == CompleteLines(w.contents[f]))
    && forall f :: f !in w.contents ==> LinesOf(w.log, f) == []
  }

  /** Every number of a world that has read its files up to their last complete lines is the sum over these lines, each
      judged when it was read; and that is the sum under one last cutoff and what has expired since. */
  lemma CaughtUpIsSum(w: World, cutoff: int, date: string, c: Cell, parse: Parser, dateOf: Calendar)
    requires Folded(w, parse, dateOf) && NoneLater(w.log, cutoff) && CaughtUp(w)
    ensures Value(DayAt(w.ledger.days, date), c) ==
            Sum(JudgedTable(w.log, w.contents.Keys, date, c, parse, dateOf)) ==
            Sum(FilesTable(w.contents, cutoff, date, c, parse, dateOf)) +
            Total(Expired(w.log, cutoff, parse), date, c, dateOf)
  {
    hide Sum, Total, Kept, IngestAll, Value, CompleteLines, DayAt, RecordsOf, ReadsOf;
    var files, again := w.contents.Keys, Rejudged(w.log, cutoff);
    DaysAreSums(RecordsOf(w.log, parse), date, c, dateOf);
    forall i | 0 <= i < |w.log| ensures w.log[i].file in files { ReadIsOfFile(w.log, i); }
    LogAddsUp(w.log, files, date, c, parse, dateOf);
    LogAddsUp(again, files, date, c, parse, dateOf);
    ExpiredAreExtra(w.log, cutoff, date, c, parse, dateOf);
    forall f | f in files ensures RecordsOf(ReadsOf(again, f), parse) ==
      Kept(CompleteLines(w.contents[f]), cutoff, parse) {
      RejudgedLines(w.log, cutoff, f, parse);
    }
    assert JudgedTable(again, files, date, c, parse, dateOf) == FilesTable(w.contents, cutoff, date, c, parse, dateOf);
  }

  lemma RefreshedIsCaughtUp(w: World, files: seq<string>, cutoff: int, parse: Parser, dateOf: Calendar)
    requires AllWellFormed(w) && Folded(w, parse, dateOf) && NoneLater(w.log, cutoff)
    requires (forall f :: ReadOnce(w, f)) && forall f :: f in w.contents ==> f in files
    ensures var v := RefreshFiles(w, files, cutoff, parse, dateOf);
            && v.contents == w.contents && Folded(v, parse, dateOf) && NoneLater(v.log, cutoff) && CaughtUp(v)
            && (OneCutoff(w.log, cutoff) ==> OneCutoff(v.log, cutoff))
  {
    hide RefreshFiles, LinesOf, CompleteLines, AllWellFormed, Folded, OneCutoff, NoneLater, ReadOnce;
    var v := RefreshFiles(w, files, cutoff, parse, dateOf);
    RefreshKeepsContents(w, files, cutoff, parse, dateOf);
    RefreshKeepsFolded(w, files, cutoff, parse, dateOf);
    RefreshKeepsCutoff(w, files, cutoff, cutoff, parse, dateOf);
    forall f ensures ReadOnce(v, f) && (f in w.contents ==> LinesOf(v.log, f) == CompleteLines(v.contents[f])) {
      RefreshKeepsOnce(w, files, cutoff, parse, dateOf, f);
    }
    forall f | f !in v.contents ensures LinesOf(v.log, f) == [] { UnknownFile(v, f); }
  }

  lemma UnknownFile(w: World, file: string)
    requires ReadOnce(w, file) && file !in w.contents
    ensures LinesOf(w.log, file) == []
  {
    var offset := OffsetOf(w.ledger, file);
    assert ContentOf(w, file)[..offset] == [];
  }

  /** A ledger that reads the files once, under the last cutoff. */
  function OnePass(contents: map<string, Bytes>, files: seq<string>, cutoff: int, parse: Parser,
                   dateOf: Calendar): Ledger {
    RefreshFiles(Start(contents), files, cutoff, parse, dateOf).ledger
  }

  lemma OnePassIsSum(contents: map<string, Bytes>, files: seq<string>, cutoff: int, date: string, c: Cell,
                     parse: Parser, dateOf: Calendar)
    requires AllWellFormed(Start(contents)) && forall f :: f in contents ==> f in files
    ensures Value(DayAt(OnePass(contents, files, cutoff, parse, dateOf).days, date), c) ==
            Sum(FilesTable(contents, cutoff, date, c, parse, dateOf))
  {
    hide RefreshFiles, AllWellFormed, Folded, OneCutoff, NoneLater, CaughtUp, ReadOnce, FilesTable, Sum, Value, DayAt,
      JudgedTable;
    forall f ensures ReadOnce(Start(contents), f) { NothingRead(contents, f); }
    StartIsFolded(contents, cutoff, parse, dateOf);
    RefreshedIsCaughtUp(Start(contents), files, cutoff, parse, dateOf);
    var v := RefreshFiles(Start(contents), files, cutoff, parse, dateOf);
    CaughtUpIsSum(v, cutoff, date, c, parse, dateOf);
    NothingExpired(v.log, cutoff, parse);
    NothingAdded(date, c, dateOf);
  }

  /** For growing files of well-formed text, after any interleaving of appends and refreshes, none with a later
      cutoff than the last one, which lists every file: each number of each day is the sum over the complete lines of
      all files, each judged by the refresh that read it. It is what one pass under the last cutoff gives and what the
      records that have expired since add; so it is never less, and the same exactly when these add nothing. */
  lemma AnyInterleavingIsOnePass(steps: seq<Step>, files: seq<string>, cutoff: int, date: string, c: Cell,
                                 parse: Parser, dateOf: Calendar)
    requires CutoffsUpTo(steps, cutoff) && AllWellFormed(Play(steps, parse, dateOf))
    requires forall f :: f in Play(steps, parse, dateOf).contents ==> f in files
    ensures var contents := Play(steps, parse, dateOf).contents;
            var w := Play(steps + [Refresh(files, cutoff)], parse, dateOf);
            var kept := Value(DayAt(w.ledger.days, date), c);
            var once := Value(DayAt(OnePass(contents, files, cutoff, parse, dateOf).days, date), c);
            var expired := Total(Expired(w.log, cutoff, parse), date, c, dateOf);
            && CaughtUp(w) && w.contents == contents
            && kept == Sum(JudgedTable(w.log, contents.Keys, date, c, parse, dateOf))
            && once == Sum(FilesTable(contents, cutoff, date, c, parse, dateOf))
            && kept == once + expired && (kept == once <==> expired == 0)
  {
    hide RefreshFiles, AllWellFormed, Folded, NoneLater, CaughtUp, ReadOnce, FilesTable, Sum, Value, DayAt, OnePass,
      JudgedTable, Expired, Total;
    var w := Play(steps, parse, dateOf);
    var all := steps + [Refresh(files, cutoff)];
    assert all[..|all| - 1] == steps;
    forall f ensures ReadOnce(w, f) { EveryLineOnce(steps, parse, dateOf, f); }
    DaysAreOnePass(steps, parse, dateOf);
    PlayKeepsCutoff(steps, cutoff, parse, dateOf);
    SameContents(w, Start(w.contents));
    RefreshedIsCaughtUp(w, files, cutoff, parse, dateOf);
    CaughtUpIsSum(RefreshFiles(w, files, cutoff, parse, dateOf), cutoff, date, c, parse, dateOf);
    OnePassIsSum(w.contents, files, cutoff, date, c, parse, dateOf);
  }

  /** As long as nothing read could expire in between, because every refresh had the same cutoff, however the refreshes
      interleave with the appends is the same as one pass. */
  lemma OneCutoffIsOnePass(steps: seq<Step>, files: seq<string>, cutoff: int, date: string, c: Cell, parse: Parser,
                           dateOf: Calendar)
    requires CutoffsAt(steps, cutoff) && AllWellFormed(Play(steps, parse, dateOf))
    requires forall f :: f in Play(steps, parse, dateOf).contents ==> f in files
    ensures var contents := Play(steps, parse, dateOf).contents;
            Value(DayAt(Play(steps + [Refresh(files, cutoff)], parse, dateOf).ledger.days, date), c) ==
            Value(DayAt(OnePass(contents, files, cutoff, parse, dateOf).days, date), c)
  {
    hide *;
    var all := steps + [Refresh(files, cutoff)];
    CutoffsPush(steps, files, cutoff);
    PlayKeepsCutoff(all, cutoff, parse, dateOf);
    NothingExpired(Play(all, parse, dateOf).log, cutoff, parse);
    NothingAdded(date, c, dateOf);
    AnyInterleavingIsOnePass(steps, files, cutoff, date, c, parse, dateOf);
  }

  lemma CutoffsPush(steps: seq<Step>, files: seq<string>, cutoff: int)
    requires CutoffsAt(steps, cutoff)
    ensures CutoffsUpTo(steps, cutoff)
    ensures CutoffsAt(steps + [Refresh(files, cutoff)], cutoff) && CutoffsUpTo(steps + [Refresh(files, cutoff)], cutoff)
  {
  }

  lemma StartIsFolded(contents: map<string, Bytes>, cutoff: int, parse: Parser, dateOf: Calendar)
    ensures Folded(Start(contents), parse, dateOf)
    ensures OneCutoff(Start(contents).log, cutoff) && NoneLater(Start(contents).log, cutoff)
  {
  }

  // ---- a record that expires ----

  /** One model call, read while it is within retention; by the next refresh it is older than the cutoff, and the ledger
      still counts it, which a ledger started then would not. */
  lemma ExpiredRecordStays(file: string, record: Rec, date: string)
    requires record.kind == Model && record.at == 5
    ensures var parse := (line: Text) => if line == [65] then Some(record) else None;
            var dateOf := (at: int) => date;
            var steps := [Append(file, [65, 10]), Refresh([file], 0), Refresh([file], 10)];
            var w := Play(steps, parse, dateOf);
            && Value(DayAt(w.ledger.days, date), OfDay(ModelCalls)) == 1
            && Value(DayAt(OnePass(w.contents, [file], 10, parse, dateOf).days, date), OfDay(ModelCalls)) == 0
  {
    var parse := (line: Text) => if line == [65] then Some(record) else None;
    var dateOf := (at: int) => date;
    hide Play, OnePass, FilesTable, JudgedTable, RecordsOf, Expired, Total, Value, DayAt, AllWellFormed, CaughtUp,
      IngestAll, Sum;
    var steps := [Append(file, [65, 10]), Refresh([file], 0)];
    var log := [Read(file, [65], 0)];
    assert steps + [Refresh([file], 10)] == [Append(file, [65, 10]), Refresh([file], 0), Refresh([file], 10)];
    OneLetterRead(file, parse, dateOf);
    DaysAreOnePass(steps + [Refresh([file], 10)], parse, dateOf);
    DaysAreSums(RecordsOf(log, parse), date, OfDay(ModelCalls), dateOf);
    OneLetterCounts(file, record, date, parse, dateOf);
    assert forall f :: f in Play(steps, parse, dateOf).contents ==> f in [file];
    assert CutoffsUpTo(steps, 10);
    AnyInterleavingIsOnePass(steps, [file], 10, date, OfDay(ModelCalls), parse, dateOf);
  }

  lemma OneLetterLine()
    ensures Decode([65, 10]) == [65, NEWLINE] && CompleteLines([65, 10]) == [[65]]
    ensures Consumed([65, 10], 0) == 2 && WellFormed([65, 10])
  {
    var b: Bytes := [65, 10];
    assert b[1..] == [10] && b[0..] == b;
    DecodeNewline();
    DecodeStep(b);
    var text: Text := [65, NEWLINE];
    SplitHead(text, 1);
    EmptySplit();
    assert text[..1] == [65] && text[2..] == [] && text[1..] == [NEWLINE];
    assert CompletePart(text) == text;
    assert EncodedSize(text) == 1 + EncodedSize([NEWLINE]) && EncodedSize([NEWLINE]) == 1 + EncodedSize([]);
    var e: Bytes := [10];
    assert e[1..] == [];
  }

  /** The line is read by the first refresh, and the second finds nothing new. */
  lemma OneLetterRead(file: string, parse: Parser, dateOf: Calendar)
    ensures var steps := [Append(file, [65, 10]), Refresh([file], 0)];
            && Play(steps, parse, dateOf).contents == map[file := [65, 10]] && AllWellFormed(Play(steps, parse, dateOf))
            && Play(steps + [Refresh([file], 10)], parse, dateOf).log == [Read(file, [65], 0)]
            && Play(steps + [Refresh([file], 10)], parse, dateOf).contents == map[file := [65, 10]]
  {
    hide Decode, Split, Consumed, IngestAll, Kept, WellFormed;
    var content: Bytes := [65, 10];
    var first, steps := [Append(file, content)], [Append(file, content), Refresh([file], 0)];
    OneLetterLine();
    assert first[..0] == [] && steps[..1] == first && [] + content == content && content[0..] == content;
    assert Play(first[..0], parse, dateOf) == Start(map[]) && ContentOf(Start(map[]), file) == [];
    var w0, w1 := Play(first, parse, dateOf), Play(steps, parse, dateOf);
    assert map[][file := content] == map[file := content];
    assert w0 == Start(map[file := content]);
    RefreshOne(w0, file, 0, parse, dateOf);
    assert NewLines(w0.ledger, file, content) == [[65]];
    OneTagged(file, [65], 0);
    assert [] + [Read(file, [65], 0)] == [Read(file, [65], 0)];
    assert w1.log == [Read(file, [65], 0)] && OffsetOf(w1.ledger, file) == 2;
    RefreshOne(w1, file, 10, parse, dateOf);
    var all := steps + [Refresh([file], 10)];
    assert all[..2] == steps && content[2..] == [];
    DecodeNothing();
    EmptySplit();
    assert NewLines(w1.ledger, file, content) == [];
    assert w1.log + [] == w1.log;
  }

  lemma OneTagged(file: string, line: Text, cutoff: int)
    ensures Tagged(file, [line], cutoff) == [Read(file, line, cutoff)]
  {
    assert [line][..0] == [] && [] + [Read(file, line, cutoff)] == [Read(file, line, cutoff)];
  }

  lemma RefreshOne(w: World, file: string, cutoff: int, parse: Parser, dateOf: Calendar)
    ensures RefreshFiles(w, [file], cutoff, parse, dateOf) == RefreshFile(w, file, cutoff, parse, dateOf)
  {
    hide RefreshFile;
    assert [file][..0] == [];
  }

  lemma DecodeNothing()
    ensures Decode([]) == []
  {
  }

  lemma OneLetterCounts(file: string, record: Rec, date: string, parse: Parser, dateOf: Calendar)
    requires record.kind == Model && record.at == 5 && parse([65]) == Some(record) && dateOf(5) == date
    ensures var log := [Read(file, [65], 0)];
            && Total(RecordsOf(log, parse), date, OfDay(ModelCalls), dateOf) == 1
            && Total(Expired(log, 10, parse), date, OfDay(ModelCalls), dateOf) == 1
  {
    OneLetterLog(file, record, parse);
    OneCallCounts(record, date, dateOf);
    hide RecordsOf, Expired, Total;
  }

  lemma OneLetterLog(file: string, record: Rec, parse: Parser)
    requires record.at == 5 && parse([65]) == Some(record)
    ensures var log := [Read(file, [65], 0)];
            RecordsOf(log, parse) == [record] && Expired(log, 10, parse) == [record]
  {
    hide Kept;
    var log := [Read(file, [65], 0)];
    KeptOne([65], 0, parse);
    assert log[..0] == [] && [] + [record] == [record];
    NoRecords(parse);
  }

  lemma OneCallCounts(record: Rec, date: string, dateOf: Calendar)
    requires record.kind == Model && dateOf(record.at) == date
    ensures Total([record], date, OfDay(ModelCalls), dateOf) == 1
  {
    assert [record][..0] == [];
  }
}
