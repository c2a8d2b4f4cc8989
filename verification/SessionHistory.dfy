/**
 * Backward paging of an append-only transcript (backend/session-history.ts).
 *
 * A page is read from a byte window that ends at a line boundary and grows until it holds
 * enough complete rows. The reference is the list of complete lines of the file, `Lines`.
 */
module SessionHistory {
  import opened TextEncoding
  import opened Wrappers
  import SessionParser

  /** Whether a row's text mentions a tool result role; the regular expression is a parameter. */
  type RowTest = Bytes -> bool

  const NL: Byte := 10
  const HISTORY_PAGE_ROWS := 200
  const MAX_PAGE_ROWS := 1000
  const INITIAL_WINDOW_BYTES := 4 * 1024 * 1024
  const TAIL_PROBE_BYTES := 64 * 1024
  const MAX_WINDOW_BYTES := 256 * 1024 * 1024
  const TOOL_ALIGN_EXTRA_ROWS := 10

  datatype Row = Row(offset: nat, text: Bytes)

  datatype Window = Window(rows: seq<Bytes>, startOffset: nat, reachedStart: bool)

  // ---- the reference: the complete lines of a file ----

  /** The last line boundary at or before `end`: 0, or the position just after a newline. */
  function LastBoundary(file: Bytes, end: nat): (b: nat)
    requires end <= |file|
    ensures b <= end
    ensures b == 0 || file[b - 1] == NL
    ensures forall j :: b <= j < end ==> file[j] != NL
  {
    if end == 0 || file[end - 1] == NL then end else LastBoundary(file, end - 1)
  }

  predicate Boundary(file: Bytes, b: nat) {
    b <= |file| && (b == 0 || file[b - 1] == NL)
  }

  function Prev(file: Bytes, b: nat): (p: nat)
    requires 0 < b <= |file|
    ensures p < b && Boundary(file, p)
  {
    LastBoundary(file, b - 1)
  }

  function RowEnding(file: Bytes, b: nat): Row
    requires 0 < b <= |file|
  {
    Row(Prev(file, b), file[Prev(file, b)..b - 1])
  }

  /** The complete rows of the file up to boundary `b`, oldest first. */
  function Lines(file: Bytes, b: nat): seq<Row>
    requires b <= |file|
  {
    if b == 0 then [] else Lines(file, Prev(file, b)) + [RowEnding(file, b)]
  }

  function Texts(rows: seq<Row>): (r: seq<Bytes>)
    ensures |r| == |rows|
    ensures forall i :: 0 <= i < |rows| ==> r[i] == rows[i].text
  {
    seq(|rows|, i requires 0 <= i < |rows| => rows[i].text)
  }

  /** What a reader of the whole file should see: every complete line, an empty first line excepted. */
  function Expected(file: Bytes, b: nat): seq<Bytes>
    requires b <= |file|
  {
    Seen(Lines(file, b))
  }

  predicate EmptyFirst(l: seq<Row>) {
    l != [] && l[0].text == []
  }

  function Seen(l: seq<Row>): (r: seq<Bytes>)
    ensures |r| == if EmptyFirst(l) then |l| - 1 else |l|
  {
    Texts(if EmptyFirst(l) then l[1..] else l)
  }

  // ---- what one window yields ----

  /** Buffer.lastIndexOf(10, p - 1): the newest newline before `p`, or -1. */
  function LastNewline(buf: Bytes, p: nat): (r: int)
    requires p <= |buf|
    ensures -1 <= r < p
  {
    if p == 0 then -1 else if buf[p - 1] == NL then p - 1 else LastNewline(buf, p - 1)
  }

  /** The newline scan: positions before `p`, newest first, until `m` of them have been found. */
  function Scan(buf: Bytes, p: nat, m: nat, nls: seq<nat>): (r: seq<nat>)
    requires p <= |buf|
    requires forall i :: 0 <= i < |nls| ==> nls[i] < |buf|
    ensures forall i :: 0 <= i < |r| ==> r[i] < |buf|
    decreases m - |nls|
  {
    var idx := LastNewline(buf, p);
    if |nls| >= m || idx < 0 then nls else Scan(buf, idx, m, nls + [idx])
  }

  /** The complete rows between neighbouring newlines from index `k` on, at most `n` rows in all. */
  function RowsBetween(buf: Bytes, fileStart: nat, nls: seq<nat>, k: nat, n: nat, rows: seq<Row>): seq<Row>
    requires forall i :: 0 <= i < |nls| ==> nls[i] < |buf|
    decreases n - |rows|
  {
    if k + 1 >= |nls| || |rows| >= n then rows
    else RowsBetween(buf, fileStart, nls, k + 1, n, rows + [RowAt(buf, fileStart, nls[k + 1], nls[k])])
  }

  function RowAt(buf: Bytes, fileStart: nat, before: nat, end: nat): Row
    requires before < |buf| && end < |buf|
  {
    Row(fileStart + before + 1, if before < end then buf[before + 1..end] else [])
  }

  /** The rows of a window and the bytes before the oldest newline that was looked at. */
  function RowsInBuffer(buf: Bytes, fileStart: nat, n: nat): (seq<Row>, Option<Row>) {
    var nls := Scan(buf, |buf|, n + 2, []);
    var holeEnd := if nls == [] then |buf| else nls[|nls| - 1];
    (RowsBetween(buf, fileStart, nls, 0, n, []), if holeEnd > 0 then Some(Row(fileStart, buf[..holeEnd])) else None)
  }

  /** At the head of the file the hole is collected as the oldest row. */
  function Collected(file: Bytes, start: nat, end: nat, n: nat): seq<Row>
    requires start <= end <= |file|
  {
    var w := RowsInBuffer(file[start..end], start, n);
    if start == 0 && w.1.Some? then w.0 + [w.1.value] else w.0
  }

  /** Page size widened past tool results that would open the page. */
  function Align(rows: seq<Row>, count: nat, tool: RowTest): (c: nat)
    requires count <= |rows|
    ensures count <= c <= |rows|
    ensures forall k :: count - 1 <= k < c - 1 ==> k >= 0 && tool(rows[k].text)
    ensures c == |rows| || c == 0 || !tool(rows[c - 1].text)
    decreases |rows| - count
  {
    if 0 < count < |rows| && tool(rows[count - 1].text) then Align(rows, count + 1, tool) else count
  }

  function OldestFirst(rows: seq<Row>, count: nat): (r: seq<Bytes>)
    requires count <= |rows|
    ensures |r| == count
    ensures forall i :: 0 <= i < count ==> r[i] == rows[count - 1 - i].text
  {
    seq(count, i requires 0 <= i < count => rows[count - 1 - i].text)
  }

  function Choose(rows: seq<Row>, n: nat, hitHead: bool, tool: RowTest): Window {
    var count := Align(rows, Min(n, |rows|), tool);
    Window(OldestFirst(rows, count), if count > 0 then rows[count - 1].offset else 0, hitHead)
  }

  function GiveUp(): Window {
    Window([], 0, true)
  }

  function WindowStart(end: nat, cap: nat): nat {
    if cap < end then end - cap else 0
  }

  /** The page a window of `cap` bytes serves, or None when it holds too few rows. */
  function WindowPage(file: Bytes, end: nat, cap: nat, n: nat, tool: RowTest): Option<Window>
    requires end <= |file|
  {
    var start := WindowStart(end, cap);
    var collected := Collected(file, start, end, n + TOOL_ALIGN_EXTRA_ROWS);
    if |collected| >= n || start == 0 then Some(Choose(collected, n, start == 0, tool)) else None
  }

  function PageFrom(file: Bytes, end: nat, cap: nat, n: nat, tool: RowTest): Window
    requires end <= |file| && 0 < cap
    decreases MAX_WINDOW_BYTES - cap
  {
    match WindowPage(file, end, cap, n, tool)
    case Some(w) => w
    case None => if cap >= MAX_WINDOW_BYTES then GiveUp() else PageFrom(file, end, 4 * cap, n, tool)
  }

  function PageEndingAt(file: Bytes, end: nat, n: nat, tool: RowTest): Window
    requires 0 < end <= |file|
  {
    PageFrom(file, end, Min(INITIAL_WINDOW_BYTES, end), n, tool)
  }

  function PageEnd(file: Bytes, endOffset: Option<nat>): (e: nat)
    ensures e <= |file|
  {
    var e := if endOffset.None? then |file| else Min(endOffset.value, |file|);
    if e == |file| then LastBoundary(file, e) else e
  }

  function Page(file: Bytes, endOffset: Option<nat>, n: nat, tool: RowTest): Window {
    var end := PageEnd(file, endOffset);
    if end == 0 then GiveUp() else PageEndingAt(file, end, n, tool)
  }

  // ---- the reader ----

  lemma {:induction false} LastNewlineIsBoundary(file: Bytes, start: nat, end: nat, p: nat)
    requires start <= end <= |file| && p <= end - start
    ensures var idx := LastNewline(file[start..end], p);
            var b := LastBoundary(file, start + p);
            if idx >= 0 then b == start + idx + 1 else b <= start
    decreases p
  {
    if p > 0 && file[start + p - 1] != NL { LastNewlineIsBoundary(file, start, end, p - 1); }
  }

  method FindLastLineBoundary(file: Bytes, size: nat) returns (b: nat)
    requires size <= |file|
    ensures b == LastBoundary(file, size)
  {
    var pos := size;
    while pos > 0
      invariant 0 <= pos <= size
      invariant LastBoundary(file, pos) == LastBoundary(file, size)
    {
      var chunk := Min(TAIL_PROBE_BYTES, pos);
      var buf := file[pos - chunk..pos];
      var idx := LastNewline(buf, |buf|);
      LastNewlineIsBoundary(file, pos - chunk, pos, chunk);
      if idx >= 0 { return pos - chunk + idx + 1; }
      SkipNoNewline(file, pos - chunk, pos);
      pos := pos - chunk;
    }
    return 0;
  }

  lemma {:induction false} SkipNoNewline(file: Bytes, a: nat, b: nat)
    requires a <= b <= |file| && forall j :: a <= j < b ==> file[j] != NL
    ensures LastBoundary(file, a) == LastBoundary(file, b)
    decreases b
  {
    if a < b { SkipNoNewline(file, a, b - 1); }
  }

  lemma ScanStep(buf: Bytes, p: nat, m: nat, nls: seq<nat>)
    requires p <= |buf| && forall i :: 0 <= i < |nls| ==> nls[i] < |buf|
    ensures var idx := LastNewline(buf, p);
            Scan(buf, p, m, nls) == if |nls| >= m || idx < 0 then nls else Scan(buf, idx, m, nls + [idx])
  {
  }

  lemma RowsStep(buf: Bytes, fileStart: nat, nls: seq<nat>, k: nat, n: nat, rows: seq<Row>)
    requires forall i :: 0 <= i < |nls| ==> nls[i] < |buf|
    ensures RowsBetween(buf, fileStart, nls, k, n, rows) ==
            if k + 1 >= |nls| || |rows| >= n then rows
            else RowsBetween(buf, fileStart, nls, k + 1, n, rows + [RowAt(buf, fileStart, nls[k + 1], nls[k])])
  {
  }

  method RowsInRange(buf: Bytes, fileStart: nat, maxRows: nat) returns (rows: seq<Row>, hole: Option<Row>)
    ensures (rows, hole) == RowsInBuffer(buf, fileStart, maxRows)
  {
    hide Scan, RowsBetween, LastNewline, RowAt;
    var nls: seq<nat> := [];
    var p := |buf|;
    while p > 0 && |nls| <= maxRows + 1
      invariant 0 <= p <= |buf|
      invariant forall i :: 0 <= i < |nls| ==> nls[i] < |buf|
      invariant Scan(buf, p, maxRows + 2, nls) == Scan(buf, |buf|, maxRows + 2, [])
    {
      var idx := LastNewline(buf, p);
      ScanStep(buf, p, maxRows + 2, nls);
      if idx < 0 { break; }
      nls := nls + [idx];
      p := idx;
    }
    ScanStep(buf, p, maxRows + 2, nls);
    rows := [];
    var k := 0;
    while k + 1 < |nls| && |rows| < maxRows
      invariant RowsBetween(buf, fileStart, nls, k, maxRows, rows) == RowsBetween(buf, fileStart, nls, 0, maxRows, [])
    {
      RowsStep(buf, fileStart, nls, k, maxRows, rows);
      rows := rows + [RowAt(buf, fileStart, nls[k + 1], nls[k])];
      k := k + 1;
    }
    RowsStep(buf, fileStart, nls, k, maxRows, rows);
    var holeEnd := if |nls| > 0 then nls[|nls| - 1] else |buf|;
    hole := if holeEnd > 0 then Some(Row(fileStart, buf[..holeEnd])) else None;
  }

  /** Extend the page backwards until its oldest row is not a tool result. */
  method AlignPage(collected: seq<Row>, maxRows: nat, tool: RowTest) returns (count: nat)
    ensures count == Align(collected, Min(maxRows, |collected|), tool)
  {
    count := Min(maxRows, |collected|);
    while count < |collected| && count > 0 && tool(collected[count - 1].text)
      invariant 0 <= count <= |collected|
      invariant Align(collected, count, tool) == Align(collected, Min(maxRows, |collected|), tool)
      decreases |collected| - count
    {
      count := count + 1;
    }
  }

  method TryWindow(file: Bytes, end: nat, cap: nat, maxRows: nat, tool: RowTest) returns (w: Option<Window>)
    requires end <= |file|
    ensures w == WindowPage(file, end, cap, maxRows, tool)
  {
    hide RowsInBuffer, Align, OldestFirst;
    var start := Max(0, end - cap);
    var hitHead := start == 0;
    var rows, hole := RowsInRange(file[start..end], start, maxRows + TOOL_ALIGN_EXTRA_ROWS);
    var collected := if hitHead && hole.Some? then rows + [hole.value] else rows;
    if |collected| >= maxRows || hitHead {
      var count := AlignPage(collected, maxRows, tool);
      var startOffset := if count > 0 then collected[count - 1].offset else 0;
      return Some(Window(OldestFirst(collected, count), startOffset, hitHead));
    }
    return None;
  }

  method ReadCompleteRowsEndingAt(file: Bytes, endOffset: Option<nat>, maxRows: nat, tool: RowTest) returns (w: Window)
    ensures w == Page(file, endOffset, maxRows, tool)
  {
    hide WindowPage;
    var size := |file|;
    var end := if endOffset.None? then size else Min(endOffset.value, size);
    if end == size { end := FindLastLineBoundary(file, end); }
    if end <= 0 { return Window([], 0, true); }
    var cap := Min(INITIAL_WINDOW_BYTES, end);
    while true
      invariant cap > 0
      invariant PageFrom(file, end, cap, maxRows, tool) == PageEndingAt(file, end, maxRows, tool)
      decreases MAX_WINDOW_BYTES - cap
    {
      var served := TryWindow(file, end, cap, maxRows, tool);
      if served.Some? { return served.value; }
      // A single row exceeds the window ceiling.
      if cap >= MAX_WINDOW_BYTES { return Window([], 0, true); }
      cap := cap * 4;
    }
  }

  // ---- which lines a window yields ----

  /** Every row starts at a line boundary, and the lines before it are the lines up to there. */
  lemma {:induction false} LinesBefore(file: Bytes, b: nat, i: nat)
    requires b <= |file| && i < |Lines(file, b)|
    ensures var o := Lines(file, b)[i].offset;
            o < b && Boundary(file, o) && Lines(file, o) == Lines(file, b)[..i] && (o == 0 <==> i == 0)
    decreases b
  {
    var l, p := Lines(file, b), Prev(file, b);
    assert l == Lines(file, p) + [RowEnding(file, b)];
    if i < |l| - 1 {
      LinesBefore(file, p, i);
      assert l[..i] == Lines(file, p)[..i];
    } else {
      assert l[..i] == Lines(file, p);
      if p > 0 { assert |Lines(file, p)| > 0; }
    }
  }

  /** Window position `x` is the newline of the i-th newest line of `file[..end]`. */
  ghost predicate EndsLine(file: Bytes, start: nat, end: nat, x: nat, i: nat)
    requires start < end <= |file|
  {
    var l := Lines(file, end);
    i < |l| && start + x < end && file[start + x] == NL && Lines(file, start + x + 1) == l[..|l| - i]
  }

  ghost predicate EndsLines(file: Bytes, start: nat, end: nat, nls: seq<nat>)
    requires start < end <= |file|
  {
    0 < |nls| <= |Lines(file, end)| && forall i :: 0 <= i < |nls| ==> EndsLine(file, start, end, nls[i], i)
  }

  lemma NextEndsLine(file: Bytes, start: nat, end: nat, x: nat, i: nat, y: nat)
    requires start < end <= |file| && EndsLine(file, start, end, x, i) && y < x
    requires start + y + 1 == Prev(file, start + x + 1)
    ensures EndsLine(file, start, end, y, i + 1)
  {
    var l := Lines(file, end);
    DropNewestLine(file, l[..|l| - i], start + x + 1);
    assert l[..|l| - i][..|l| - i - 1] == l[..|l| - i - 1];
  }

  lemma NewestEndsLine(file: Bytes, start: nat, end: nat, x: nat)
    requires start < end <= |file| && start + x + 1 == end && file[end - 1] == NL
    ensures EndsLine(file, start, end, x, 0)
  {
    DropNewestLine(file, Lines(file, end), end);
    assert Lines(file, end)[..|Lines(file, end)|] == Lines(file, end);
  }

  lemma {:induction false} ScanEndsLines(file: Bytes, start: nat, end: nat, p: nat, m: nat, nls: seq<nat>)
    requires start < end <= |file| && p <= end - start
    requires if nls == [] then p == end - start && file[end - 1] == NL
             else EndsLines(file, start, end, nls) && p == nls[|nls| - 1]
    requires forall i :: 0 <= i < |nls| ==> nls[i] < end - start
    requires |nls| <= m && m > 0
    ensures var r := Scan(file[start..end], p, m, nls);
            && EndsLines(file, start, end, r) && |nls| <= |r| <= m
            && (|r| < m ==> Prev(file, start + r[|r| - 1] + 1) <= start)
    decreases m - |nls|
  {
    hide EndsLine, LastBoundary;
    var buf := file[start..end];
    var idx := LastNewline(buf, p);
    LastNewlineIsBoundary(file, start, end, p);
    if |nls| < m && idx >= 0 {
      if nls == [] {
        assert buf[p - 1] == file[end - 1];
        NewestEndsLine(file, start, end, idx);
      } else {
        NextEndsLine(file, start, end, p, |nls| - 1, idx);
      }
      ScanEndsLines(file, start, end, idx, m, nls + [idx]);
    }
  }

  lemma DropNewestLine(file: Bytes, l: seq<Row>, b: nat)
    requires 0 < b <= |file| && l == Lines(file, b)
    ensures |l| > 0 && Lines(file, Prev(file, b)) == l[..|l| - 1] && l[|l| - 1] == RowEnding(file, b)
    ensures Prev(file, b) > 0 ==> |l| > 1
  {
  }

  /** The newest `r` rows of a list, newest first. */
  function NewestFirst(l: seq<Row>, r: nat): (s: seq<Row>)
    requires r <= |l|
    ensures |s| == r && forall i :: 0 <= i < r ==> s[i] == l[|l| - 1 - i]
  {
    seq(r, i requires 0 <= i < r => l[|l| - 1 - i])
  }

  lemma {:induction false} RowsAreNewest(file: Bytes, start: nat, end: nat, nls: seq<nat>, k: nat, n: nat,
                                         rows: seq<Row>)
    requires start < end <= |file| && EndsLines(file, start, end, nls)
    requires forall i :: 0 <= i < |nls| ==> nls[i] < end - start
    requires k == |rows| <= n && k < |nls| && rows == NewestFirst(Lines(file, end), k)
    ensures RowsBetween(file[start..end], start, nls, k, n, rows) == NewestFirst(Lines(file, end), Min(n, |nls| - 1))
    decreases n - |rows|
  {
    hide EndsLine, Lines, LastBoundary, RowAt;
    if k + 1 < |nls| && k < n {
      RowIsLine(file, start, end, k, nls[k], nls[k + 1]);
      var row := RowAt(file[start..end], start, nls[k + 1], nls[k]);
      assert rows + [row] == NewestFirst(Lines(file, end), k + 1);
      RowsAreNewest(file, start, end, nls, k + 1, n, rows + [row]);
    }
  }

  lemma RowIsLine(file: Bytes, start: nat, end: nat, k: nat, x: nat, y: nat)
    requires start < end <= |file| && EndsLine(file, start, end, x, k) && EndsLine(file, start, end, y, k + 1)
    ensures RowAt(file[start..end], start, y, x) == Lines(file, end)[|Lines(file, end)| - 1 - k]
  {
    hide LastBoundary, Lines;
    var l := Lines(file, end);
    var b, p, n := start + x + 1, start + y + 1, |l| - k;
    DropNewestLine(file, l[..n], b);
    assert l[..n][..n - 1] == l[..n - 1];
    LinesLength(file, Prev(file, b), p);
    assert file[start..end][y + 1..x] == file[p..b - 1];
  }

  /** A boundary is determined by how many lines come before it. */
  lemma {:induction false} LinesLength(file: Bytes, b: nat, c: nat)
    requires Boundary(file, b) && Boundary(file, c) && |Lines(file, b)| == |Lines(file, c)|
    ensures b == c
    decreases b + c
  {
    if b > 0 && c > 0 {
      if b < c { LinesGrow(file, b, c); }
      if c < b { LinesGrow(file, c, b); }
    }
  }

  lemma {:induction false} LinesGrow(file: Bytes, b: nat, c: nat)
    requires b < c <= |file| && Boundary(file, b) && Boundary(file, c)
    ensures |Lines(file, b)| < |Lines(file, c)|
    decreases c
  {
    if Prev(file, c) != b {
      assert b <= Prev(file, c);
      LinesGrow(file, b, Prev(file, c));
    }
  }

  // ---- what a page shows ----

  function TextOfTail(l: seq<Row>, count: nat): seq<Bytes>
    requires count <= |l|
  {
    Texts(l[|l| - count..])
  }

  /** A window inside the file holds whole lines only, one fewer than its newlines. */
  lemma InnerWindow(file: Bytes, start: nat, end: nat, m: nat) returns (r: nat)
    requires 0 < start < end <= |file| && file[end - 1] == NL
    ensures r < |Lines(file, end)| && Collected(file, start, end, m) == NewestFirst(Lines(file, end), r)
    ensures r == Min(m, |Scan(file[start..end], end - start, m + 2, [])| - 1)
  {
    hide EndsLine, Lines, LastBoundary, RowAt, LastNewline;
    var nls := Scan(file[start..end], end - start, m + 2, []);
    ScanEndsLines(file, start, end, end - start, m + 2, []);
    RowsAreNewest(file, start, end, nls, 0, m, []);
    r := Min(m, |nls| - 1);
  }

  /** A window that reaches the head of the file: every line, or the newest `m` and a blob for the rest. */
  lemma HeadWindow(file: Bytes, end: nat, m: nat) returns (blob: Row)
    requires 0 < end <= |file| && file[end - 1] == NL
    ensures var l := Lines(file, end);
            var c := Collected(file, 0, end, m);
            if |l| <= m + 1 then c == NewestFirst(if EmptyFirst(l) then l[1..] else l,
                                                  if EmptyFirst(l) then |l| - 1 else |l|)
            else if |l| == m + 2 && EmptyFirst(l) then c == NewestFirst(l, m)
            else c == NewestFirst(l, m) + [blob]
    ensures blob.offset == 0
  {
    hide EndsLine, LastBoundary, RowAt, LastNewline;
    var l := Lines(file, end);
    var nls := Scan(file[0..end], end, m + 2, []);
    ScanEndsLines(file, 0, end, end, m + 2, []);
    RowsAreNewest(file, 0, end, nls, 0, m, []);
    var x := nls[|nls| - 1];
    OldestEndsLine(file, end, x, |nls| - 1);
    assert file[0..end][..x] == file[..x];
    blob := Row(0, file[..x]);
    if |l| <= m + 1 {
      assert l[0] == blob;
      assert NewestFirst(l[1..], |l| - 1) == NewestFirst(l, |l| - 1);
      assert NewestFirst(l, |l|) == NewestFirst(l, |l| - 1) + [l[0]];
    }
  }

  lemma OldestEndsLine(file: Bytes, end: nat, x: nat, i: nat)
    requires 0 < end <= |file| && EndsLine(file, 0, end, x, i)
    ensures var l := Lines(file, end);
            && (Prev(file, x + 1) == 0 <==> |l| == i + 1)
            && (|l| == i + 1 ==> l[0] == Row(0, file[..x]))
            && (|l| > i + 1 ==> x > 0)
  {
    var l := Lines(file, end);
    DropNewestLine(file, l[..|l| - i], x + 1);
    assert l[..|l| - i][..|l| - i - 1] == l[..|l| - i - 1];
  }

  /** The window that serves a page, found by growing it; None when the ceiling is met first. */
  function FinalCap(file: Bytes, end: nat, n: nat, cap: nat): (r: Option<nat>)
    requires end <= |file| && 0 < cap
    decreases MAX_WINDOW_BYTES - cap
  {
    var start := WindowStart(end, cap);
    if |Collected(file, start, end, n + TOOL_ALIGN_EXTRA_ROWS)| >= n || start == 0 then Some(cap)
    else if cap >= MAX_WINDOW_BYTES then None
    else FinalCap(file, end, n, 4 * cap)
  }

  lemma {:induction false} PageByFinalCap(file: Bytes, end: nat, cap: nat, n: nat, tool: RowTest)
    requires end <= |file| && 0 < cap
    ensures match FinalCap(file, end, n, cap)
            case None => PageFrom(file, end, cap, n, tool) == GiveUp()
            case Some(c) => c > 0 && WindowPage(file, end, c, n, tool) == Some(PageFrom(file, end, cap, n, tool))
    ensures FinalCap(file, end, n, cap).None? ==> end > MAX_WINDOW_BYTES
    decreases MAX_WINDOW_BYTES - cap
  {
    hide Collected, Choose;
    if WindowPage(file, end, cap, n, tool).None? && cap < MAX_WINDOW_BYTES {
      PageByFinalCap(file, end, 4 * cap, n, tool);
    }
  }

  // ---- how many rows a page holds ----

  /** As many rows as there are neighbouring newlines, up to the limit; the oldest starts after the oldest of them. */
  lemma {:induction false} RowsBetweenCount(buf: Bytes, fileStart: nat, nls: seq<nat>, k: nat, n: nat, rows: seq<Row>)
    requires forall i :: 0 <= i < |nls| ==> nls[i] < |buf|
    requires k == |rows| <= n && if nls == [] then k == 0 else k < |nls|
    requires k > 0 ==> rows[k - 1].offset == fileStart + nls[k] + 1
    ensures var r := RowsBetween(buf, fileStart, nls, k, n, rows);
            && |r| == (if nls == [] then 0 else Min(n, |nls| - 1))
            && (r != [] ==> r[|r| - 1].offset == fileStart + nls[|r|] + 1)
    decreases n - |rows|
  {
    hide RowsBetween;
    RowsStep(buf, fileStart, nls, k, n, rows);
    if k + 1 < |nls| && k < n {
      RowsBetweenCount(buf, fileStart, nls, k + 1, n, rows + [RowAt(buf, fileStart, nls[k + 1], nls[k])]);
    }
  }

  /** A window holds at most one row more than is asked of it; when it starts at the head and holds fewer rows than
      asked, its oldest row starts the file, or follows an empty first line. */
  lemma CollectedCount(file: Bytes, start: nat, end: nat, m: nat)
    requires start <= end <= |file|
    ensures |Collected(file, start, end, m)| <= m + 1
    ensures var c := Collected(file, start, end, m);
            start == 0 && 0 < |c| < m ==> c[|c| - 1].offset <= 1
  {
    hide Scan, RowsBetween;
    var buf := file[start..end];
    var nls := Scan(buf, |buf|, m + 2, []);
    RowsBetweenCount(buf, start, nls, 0, m, []);
  }

  /** `w` holds as many rows as asked, and beyond that only tool results, unless it reaches the head. */
  predicate HoldsPage(w: Window, n: nat, tool: RowTest)
    requires n > 0
  {
    && (w.startOffset > 1 ==> |w.rows| >= n)
    && |w.rows| <= n + TOOL_ALIGN_EXTRA_ROWS + 1
    && forall i :: 1 <= i <= |w.rows| - n ==> tool(w.rows[i])
  }

  lemma ChosenHolds(c: seq<Row>, n: nat, hitHead: bool, tool: RowTest)
    requires |c| <= n + TOOL_ALIGN_EXTRA_ROWS + 1 && n > 0
    requires |c| >= n || (hitHead && (c != [] ==> c[|c| - 1].offset <= 1))
    ensures HoldsPage(Choose(c, n, hitHead, tool), n, tool)
  {
    var count := Align(c, Min(n, |c|), tool);
    var rows := OldestFirst(c, count);
    forall i | 1 <= i <= |rows| - n ensures tool(rows[i]) {
      assert rows[i] == c[count - 1 - i].text;
    }
  }

  /** Whatever the file and wherever the page ends: a page holds as many rows as asked unless it reaches the head, never
      more than the extra ones beyond, and the extra ones are there for the sake of tool results only. */
  lemma PageHoldsItsRows(file: Bytes, end: nat, n: nat, tool: RowTest)
    requires 0 < end <= |file| && n > 0
    ensures HoldsPage(PageEndingAt(file, end, n, tool), n, tool)
  {
    hide Collected, Choose, HoldsPage;
    var cap0 := Min(INITIAL_WINDOW_BYTES, end);
    PageByFinalCap(file, end, cap0, n, tool);
    match FinalCap(file, end, n, cap0)
    case None => GivenUpHolds(n, tool);
    case Some(cap) =>
      var start, m := WindowStart(end, cap), n + TOOL_ALIGN_EXTRA_ROWS;
      CollectedCount(file, start, end, m);
      FinalCapServes(file, end, n, cap0);
      ChosenHolds(Collected(file, start, end, m), n, start == 0, tool);
  }

  lemma GivenUpHolds(n: nat, tool: RowTest)
    requires n > 0
    ensures HoldsPage(GiveUp(), n, tool)
  {
  }

  lemma {:induction false} FinalCapServes(file: Bytes, end: nat, n: nat, cap: nat)
    requires end <= |file| && 0 < cap && FinalCap(file, end, n, cap).Some?
    ensures var start := WindowStart(end, FinalCap(file, end, n, cap).value);
            |Collected(file, start, end, n + TOOL_ALIGN_EXTRA_ROWS)| >= n || start == 0
    decreases MAX_WINDOW_BYTES - cap
  {
    hide Collected;
    var start := WindowStart(end, cap);
    if |Collected(file, start, end, n + TOOL_ALIGN_EXTRA_ROWS)| < n && start != 0 && cap < MAX_WINDOW_BYTES {
      FinalCapServes(file, end, n, 4 * cap);
    }
  }

  /** A page that opens with a tool result shows all the rows that its window held. */
  lemma OpensWithToolResult(file: Bytes, end: nat, n: nat, tool: RowTest)
    requires 0 < end <= |file| && n > 0
    ensures var w, cap := PageEndingAt(file, end, n, tool), FinalCap(file, end, n, Min(INITIAL_WINDOW_BYTES, end));
            w.rows != [] && tool(w.rows[0]) ==>
              cap.Some? &&
              |w.rows| == |Collected(file, WindowStart(end, cap.value), end, n + TOOL_ALIGN_EXTRA_ROWS)|
  {
    hide Collected;
    PageByFinalCap(file, end, Min(INITIAL_WINDOW_BYTES, end), n, tool);
  }

  /** The tool results at the page boundary reach past the rows that were looked at. */
  predicate Overrun(l: seq<Row>, n: nat, tool: RowTest)
    requires n > 0
  {
    var m := n + TOOL_ALIGN_EXTRA_ROWS;
    && |l| >= m + 2 && !(|l| == m + 2 && EmptyFirst(l))
    && forall i :: |l| - m <= i <= |l| - n ==> tool(l[i].text)
  }

  /** The branches of one page read that lose lines are not taken. */
  predicate PageGuard(file: Bytes, end: nat, n: nat, tool: RowTest)
    requires 0 < end <= |file| && n > 0
  {
    var cap := FinalCap(file, end, n, Min(INITIAL_WINDOW_BYTES, end));
    cap.Some? && !(cap.value >= end && Overrun(Lines(file, end), n, tool))
  }

  lemma ChosenTail(c: seq<Row>, l: seq<Row>, r: nat, n: nat, hitHead: bool, tool: RowTest)
    returns (count: nat)
    requires 0 < n && r <= |l| && r <= |c| && c[..r] == NewestFirst(l, r)
    requires Align(c, Min(n, |c|), tool) <= r
    ensures count <= r && count == Align(c, Min(n, |c|), tool)
    ensures var w := Choose(c, n, hitHead, tool);
            w.rows == TextOfTail(l, count) && w.startOffset == if count == 0 then 0 else l[|l| - count].offset
  {
    count := Align(c, Min(n, |c|), tool);
    assert forall i :: 0 <= i < count ==> c[i] == c[..r][i];
  }

  /** `w` shows the newest `count` lines and its cursor stands where they begin. */
  ghost predicate ShowsTail(w: Window, l: seq<Row>, count: nat) {
    && count <= |l| && w.rows == TextOfTail(l, count)
    && w.startOffset == (if count == 0 then 0 else l[|l| - count].offset)
    && (EmptyFirst(l) ==> count < |l|)
    && (count == 0 ==> |l| == 1 && EmptyFirst(l))
  }

  lemma HeadPage(file: Bytes, end: nat, n: nat, tool: RowTest) returns (count: nat)
    requires 0 < end <= |file| && file[end - 1] == NL && n > 0 && !Overrun(Lines(file, end), n, tool)
    ensures ShowsTail(Choose(Collected(file, 0, end, n + TOOL_ALIGN_EXTRA_ROWS), n, true, tool), Lines(file, end),
                      count)
  {
    hide Collected, Choose, LastBoundary, Align, RowsInBuffer, Lines, ShowsTail, Overrun, NewestFirst, EmptyFirst;
    var l, m := Lines(file, end), n + TOOL_ALIGN_EXTRA_ROWS;
    var c := Collected(file, 0, end, m);
    var blob := HeadWindow(file, end, m);
    DropNewestLine(file, l, end);
    if |l| <= m + 1 {
      count := AllRowsPage(c, l, n, tool);
    } else {
      count := BlobPage(c, l, n, tool);
    }
  }

  /** A page of a head window whose rows are all the lines. */
  lemma AllRowsPage(c: seq<Row>, l: seq<Row>, n: nat, tool: RowTest) returns (count: nat)
    requires n > 0 && l != [] && c == NewestFirst(l, if EmptyFirst(l) then |l| - 1 else |l|)
    ensures ShowsTail(Choose(c, n, true, tool), l, count)
  {
    hide Choose, Align;
    var r := if EmptyFirst(l) then |l| - 1 else |l|;
    assert c[..r] == c;
    count := ChosenTail(c, l, r, n, true, tool);
  }

  /** A page of a head window that ends with one blob, which no page without an overrun reaches. */
  lemma BlobPage(c: seq<Row>, l: seq<Row>, n: nat, tool: RowTest) returns (count: nat)
    requires var m := n + TOOL_ALIGN_EXTRA_ROWS;
             n > 0 && |l| >= m + 2 && m <= |c| && c[..m] == NewestFirst(l, m) &&
             (|l| == m + 2 && EmptyFirst(l) ==> |c| == m) && !Overrun(l, n, tool)
    ensures ShowsTail(Choose(c, n, true, tool), l, count)
  {
    hide Choose, Align;
    var m := n + TOOL_ALIGN_EXTRA_ROWS;
    if |l| != m + 2 || !EmptyFirst(l) {
      var i :| |l| - m <= i <= |l| - n && !tool(l[i].text);
      assert c[|l| - 1 - i] == c[..m][|l| - 1 - i] == l[i];
    }
    count := ChosenTail(c, l, m, n, true, tool);
  }

  /** A guarded page shows a tail of the lines. */
  lemma GuardedPage(file: Bytes, end: nat, n: nat, tool: RowTest) returns (count: nat)
    requires 0 < end <= |file| && file[end - 1] == NL && n > 0 && PageGuard(file, end, n, tool)
    ensures ShowsTail(PageEndingAt(file, end, n, tool), Lines(file, end), count)
  {
    hide Collected, Choose, LastBoundary, Align, ShowsTail, Overrun, Lines;
    var l, m := Lines(file, end), n + TOOL_ALIGN_EXTRA_ROWS;
    var cap0 := Min(INITIAL_WINDOW_BYTES, end);
    PageByFinalCap(file, end, cap0, n, tool);
    var cap := FinalCap(file, end, n, cap0).value;
    var start := WindowStart(end, cap);
    if start == 0 {
      count := HeadPage(file, end, n, tool);
    } else {
      count := InnerPage(file, start, end, n, tool);
    }
  }

  lemma InnerPage(file: Bytes, start: nat, end: nat, n: nat, tool: RowTest) returns (count: nat)
    requires 0 < start < end <= |file| && file[end - 1] == NL && n > 0
    requires |Collected(file, start, end, n + TOOL_ALIGN_EXTRA_ROWS)| >= n
    ensures ShowsTail(Choose(Collected(file, start, end, n + TOOL_ALIGN_EXTRA_ROWS), n, false, tool), Lines(file, end),
                      count)
  {
    hide Collected, Choose, LastBoundary, Align, Lines;
    var c := Collected(file, start, end, n + TOOL_ALIGN_EXTRA_ROWS);
    var r := InnerWindow(file, start, end, n + TOOL_ALIGN_EXTRA_ROWS);
    assert c[..r] == c;
    count := ChosenTail(c, Lines(file, end), r, n, false, tool);
  }

  /** An unguarded page ends the walk with fewer rows than there are lines to see. */
  lemma UnguardedPage(file: Bytes, end: nat, n: nat, tool: RowTest)
    requires 0 < end <= |file| && file[end - 1] == NL && n > 0 && !PageGuard(file, end, n, tool)
    ensures var w := PageEndingAt(file, end, n, tool);
            w.startOffset == 0 && |w.rows| < |Expected(file, end)|
  {
    hide Collected, LastBoundary, Align;
    var l, m := Lines(file, end), n + TOOL_ALIGN_EXTRA_ROWS;
    var cap0 := Min(INITIAL_WINDOW_BYTES, end);
    PageByFinalCap(file, end, cap0, n, tool);
    match FinalCap(file, end, n, cap0)
    case None =>
      DropNewestLine(file, l, end);
      if |l| == 1 { assert l[0].text == file[0..end - 1]; }
    case Some(cap) =>
      var blob := HeadWindow(file, end, m);
      var c := Collected(file, 0, end, m);
      var count := Align(c, n, tool);
      assert c == NewestFirst(l, m) + [blob];
      assert forall k :: n - 1 <= k < m ==> c[k] == l[|l| - 1 - k];
  }

  /** Every page leaves a shorter, line-aligned rest of the file. */
  lemma PageProgress(file: Bytes, end: nat, n: nat, tool: RowTest)
    requires 0 < end <= |file| && Boundary(file, end) && n > 0
    ensures var o := PageEndingAt(file, end, n, tool).startOffset; o < end && Boundary(file, o)
  {
    hide Collected, Choose, PageEndingAt, PageGuard, Lines;
    if PageGuard(file, end, n, tool) {
      var count := GuardedPage(file, end, n, tool);
      if count > 0 { LinesBefore(file, end, |Lines(file, end)| - count); }
    } else {
      UnguardedPage(file, end, n, tool);
    }
  }

  // ---- following the cursor to the head of the file ----

  /** All rows seen by following the cursor from boundary `end`, oldest first. */
  function Walk(file: Bytes, end: nat, n: nat, tool: RowTest): seq<Bytes>
    requires Boundary(file, end) && n > 0
    decreases end
  {
    if end == 0 then [] else
      PageProgress(file, end, n, tool);
      var w := PageEndingAt(file, end, n, tool);
      Walk(file, w.startOffset, n, tool) + w.rows
  }

  predicate WalkGuard(file: Bytes, end: nat, n: nat, tool: RowTest)
    requires Boundary(file, end) && n > 0
    decreases end
  {
    end == 0 ||
    (PageProgress(file, end, n, tool);
     PageGuard(file, end, n, tool) && WalkGuard(file, PageEndingAt(file, end, n, tool).startOffset, n, tool))
  }

  lemma SeenStep(l: seq<Row>, i: nat)
    requires i <= |l| && (i == 0 ==> !EmptyFirst(l))
    ensures Seen(l) == Seen(l[..i]) + Texts(l[i..])
  {
  }

  lemma ExpectedStep(file: Bytes, end: nat, w: Window, count: nat)
    requires 0 < end <= |file| && ShowsTail(w, Lines(file, end), count) && w.startOffset <= |file|
    ensures Expected(file, end) == Expected(file, w.startOffset) + w.rows
  {
    hide Lines, Seen;
    var l := Lines(file, end);
    NothingExpected(file);
    if count > 0 {
      LinesBefore(file, end, |l| - count);
      SeenStep(l, |l| - count);
    } else {
      assert |Seen(l)| == 0;
    }
  }

  lemma NothingExpected(file: Bytes)
    ensures Expected(file, 0) == []
  {
  }

  /** Following the cursor shows every complete line once and in order, exactly when no page overruns. */
  lemma {:induction false} WalkIsComplete(file: Bytes, end: nat, n: nat, tool: RowTest)
    requires Boundary(file, end) && n > 0
    ensures Walk(file, end, n, tool) == Expected(file, end) <==> WalkGuard(file, end, n, tool)
    decreases end
  {
    hide PageEndingAt, PageGuard, ShowsTail, Expected, LastBoundary;
    if end == 0 {
      NothingExpected(file);
    } else {
      PageProgress(file, end, n, tool);
      var w := PageEndingAt(file, end, n, tool);
      if PageGuard(file, end, n, tool) {
        var count := GuardedPage(file, end, n, tool);
        ExpectedStep(file, end, w, count);
        WalkIsComplete(file, w.startOffset, n, tool);
        SameSuffix(Walk(file, w.startOffset, n, tool), Expected(file, w.startOffset), w.rows);
      } else {
        UnguardedPage(file, end, n, tool);
        assert Walk(file, 0, n, tool) == [];
      }
    }
  }

  lemma SameSuffix<T>(a: seq<T>, b: seq<T>, c: seq<T>)
    ensures a + c == b + c <==> a == b
  {
    if a + c == b + c {
      assert a == (a + c)[..|a|] && b == (b + c)[..|b|];
    }
  }

  // ---- when the guards hold ----

  /** A wider window finds at least as many newlines. */
  lemma {:induction false} WiderScan(file: Bytes, a: nat, b: nat, end: nat, p: nat, m: nat, wide: seq<nat>,
                                     nls: seq<nat>)
    requires a <= b <= end <= |file| && p <= end - b && |wide| >= |nls|
    requires forall i :: 0 <= i < |wide| ==> wide[i] < end - a
    requires forall i :: 0 <= i < |nls| ==> nls[i] < end - b
    ensures Min(m, |Scan(file[b..end], p, m, nls)|) <= |Scan(file[a..end], p + (b - a), m, wide)|
    decreases m - |nls|
  {
    var idx := LastNewline(file[b..end], p);
    LastNewlineIsBoundary(file, b, end, p);
    LastNewlineIsBoundary(file, a, end, p + (b - a));
    if |nls| < m && idx >= 0 && |wide| < m {
      WiderScan(file, a, b, end, idx, m, wide + [idx + (b - a)], nls + [idx]);
    } else {
      ScanBounds(file[a..end], p + (b - a), m, wide);
    }
  }

  lemma ScanBounds(buf: Bytes, p: nat, m: nat, nls: seq<nat>)
    requires p <= |buf| && forall i :: 0 <= i < |nls| ==> nls[i] < |buf|
    ensures |nls| <= |Scan(buf, p, m, nls)|
    decreases m - |nls|
  {
  }

  lemma WiderWindow(file: Bytes, a: nat, b: nat, end: nat, n: nat)
    requires 0 < a <= b < end <= |file| && file[end - 1] == NL
    ensures |Collected(file, b, end, n)| <= |Collected(file, a, end, n)|
  {
    hide Collected, Scan, Lines;
    var ra := InnerWindow(file, a, end, n);
    var rb := InnerWindow(file, b, end, n);
    WiderScan(file, a, b, end, end - b, n + 2, [], []);
  }

  /** The reader gives up exactly when the largest window it may use holds fewer rows than a page. */
  lemma {:induction false} GivesUpExactly(file: Bytes, end: nat, n: nat, cap: nat)
    requires 0 < end <= |file| && file[end - 1] == NL && n > 0
    requires cap in {INITIAL_WINDOW_BYTES, 4 * INITIAL_WINDOW_BYTES, 16 * INITIAL_WINDOW_BYTES, MAX_WINDOW_BYTES}
    ensures FinalCap(file, end, n, cap).None? <==>
            end > MAX_WINDOW_BYTES && |Collected(file, end - MAX_WINDOW_BYTES, end, n + TOOL_ALIGN_EXTRA_ROWS)| < n
    decreases MAX_WINDOW_BYTES - cap
  {
    hide Collected, Lines;
    if cap < end && |Collected(file, end - cap, end, n + TOOL_ALIGN_EXTRA_ROWS)| >= n && end > MAX_WINDOW_BYTES {
      WiderWindow(file, end - MAX_WINDOW_BYTES, end - cap, end, n + TOOL_ALIGN_EXTRA_ROWS);
    } else if cap < MAX_WINDOW_BYTES {
      GivesUpExactly(file, end, n, 4 * cap);
    }
  }

  /** The largest window the reader may use that does not reach the head of the file, or 0. */
  function LargestInner(end: nat): (c: nat)
    ensures c < end || c == 0
  {
    if end <= INITIAL_WINDOW_BYTES then 0
    else if end <= 4 * INITIAL_WINDOW_BYTES then INITIAL_WINDOW_BYTES
    else if end <= 16 * INITIAL_WINDOW_BYTES then 4 * INITIAL_WINDOW_BYTES
    else if end <= MAX_WINDOW_BYTES then 16 * INITIAL_WINDOW_BYTES
    else MAX_WINDOW_BYTES
  }

  /** Some window inside the file holds a page of complete rows. */
  predicate InnerServes(file: Bytes, end: nat, n: nat)
    requires end <= |file|
  {
    var c := LargestInner(end);
    c > 0 && |Collected(file, end - c, end, n + TOOL_ALIGN_EXTRA_ROWS)| >= n
  }

  lemma {:induction false} FinalCapExactly(file: Bytes, end: nat, n: nat, cap: nat)
    requires 0 < end <= |file| && file[end - 1] == NL && cap < end
    requires cap in {INITIAL_WINDOW_BYTES, 4 * INITIAL_WINDOW_BYTES, 16 * INITIAL_WINDOW_BYTES, MAX_WINDOW_BYTES}
    ensures match FinalCap(file, end, n, cap)
            case None => end > MAX_WINDOW_BYTES && !InnerServes(file, end, n)
            case Some(c) => if InnerServes(file, end, n) then c < end else c >= end && end <= MAX_WINDOW_BYTES
    decreases MAX_WINDOW_BYTES - cap
  {
    hide Collected, Lines;
    if |Collected(file, end - cap, end, n + TOOL_ALIGN_EXTRA_ROWS)| >= n {
      WiderWindow(file, end - LargestInner(end), end - cap, end, n + TOOL_ALIGN_EXTRA_ROWS);
    } else if 4 * cap < end && cap < MAX_WINDOW_BYTES {
      FinalCapExactly(file, end, n, 4 * cap);
    }
  }

  /** The page guard in terms of the file alone: the largest window inside the file holds a page of rows, or the whole
      file may be read and the tool results at the page boundary do not reach past the rows looked at. */
  lemma PageGuardExactly(file: Bytes, end: nat, n: nat, tool: RowTest)
    requires 0 < end <= |file| && file[end - 1] == NL && n > 0
    ensures PageGuard(file, end, n, tool) <==>
            InnerServes(file, end, n) || (end <= MAX_WINDOW_BYTES && !Overrun(Lines(file, end), n, tool))
  {
    hide Collected, Lines, Overrun;
    if end > INITIAL_WINDOW_BYTES { FinalCapExactly(file, end, n, INITIAL_WINDOW_BYTES); }
  }

  predicate BreaksRun(l: seq<Row>, i: nat, tool: RowTest)
    requires i + TOOL_ALIGN_EXTRA_ROWS < |l|
  {
    exists j :: i <= j <= i + TOOL_ALIGN_EXTRA_ROWS && !tool(l[j].text)
  }

  /** Among any eleven neighbouring lines one is not a tool result. */
  predicate ShortToolRuns(l: seq<Row>, tool: RowTest) {
    forall i {:trigger BreaksRun(l, i, tool)} :: 0 <= i < |l| - TOOL_ALIGN_EXTRA_ROWS ==> BreaksRun(l, i, tool)
  }

  lemma OrdinaryPage(file: Bytes, end: nat, n: nat, tool: RowTest)
    requires 0 < end <= |file| && n > 0 && end <= MAX_WINDOW_BYTES
    requires ShortToolRuns(Lines(file, end), tool)
    ensures PageGuard(file, end, n, tool)
  {
    hide Collected, Lines;
    var l := Lines(file, end);
    PageByFinalCap(file, end, Min(INITIAL_WINDOW_BYTES, end), n, tool);
    if |l| >= n + TOOL_ALIGN_EXTRA_ROWS {
      assert BreaksRun(l, |l| - n - TOOL_ALIGN_EXTRA_ROWS, tool);
    }
  }

  lemma ShortRunsOfPrefix(l: seq<Row>, i: nat, tool: RowTest)
    requires i <= |l| && ShortToolRuns(l, tool)
    ensures ShortToolRuns(l[..i], tool)
  {
    forall a | 0 <= a < i - TOOL_ALIGN_EXTRA_ROWS ensures BreaksRun(l[..i], a, tool) {
      assert BreaksRun(l, a, tool);
      var j :| a <= j <= a + TOOL_ALIGN_EXTRA_ROWS && !tool(l[j].text);
      assert l[..i][j] == l[j];
    }
  }

  /** Short tool runs and a file below the window ceiling are enough for a complete walk. */
  lemma {:induction false} OrdinaryFileWalks(file: Bytes, end: nat, n: nat, tool: RowTest)
    requires Boundary(file, end) && n > 0 && end <= MAX_WINDOW_BYTES
    requires ShortToolRuns(Lines(file, end), tool)
    ensures WalkGuard(file, end, n, tool)
    ensures Walk(file, end, n, tool) == Expected(file, end)
    decreases end
  {
    hide PageEndingAt, PageGuard, Lines, ShortToolRuns;
    WalkIsComplete(file, end, n, tool);
    if end == 0 {
    } else {
      OrdinaryPage(file, end, n, tool);
      var l := Lines(file, end);
      var count := GuardedPage(file, end, n, tool);
      PageProgress(file, end, n, tool);
      if count > 0 {
        LinesBefore(file, end, |l| - count);
        ShortRunsOfPrefix(l, |l| - count, tool);
        OrdinaryFileWalks(file, PageEndingAt(file, end, n, tool).startOffset, n, tool);
      }
    }
  }

  // ---- files that lose lines ----

  /** The same row `k` times. */
  function Repeated(r: Bytes, k: nat): Bytes {
    if k == 0 then [] else Repeated(r, k - 1) + r + [NL]
  }

  lemma PrevOfRow(f: Bytes, n: nat, end: nat)
    requires n < end <= |f| && Boundary(f, n) && forall i :: n <= i < end - 1 ==> f[i] != NL
    ensures Prev(f, end) == n
  {
  }

  lemma LinesStep(f: Bytes, b: nat)
    requires 0 < b <= |f|
    ensures Lines(f, b) == Lines(f, Prev(f, b)) + [RowEnding(f, b)]
  {
  }

  lemma NoLines(f: Bytes)
    ensures Lines(f, 0) == []
  {
  }

  lemma {:induction false} RepeatedLines(r: Bytes, k: nat)
    requires NL !in r
    ensures var f := Repeated(r, k);
            |f| == k * (|r| + 1) && Boundary(f, |f|) && |Lines(f, |f|)| == k && forall i :: 0 <= i < k ==>
              Lines(f, |f|)[i].text == r
  {
    hide Lines;
    if k == 0 {
      NoLines([]);
    } else {
      RepeatedLines(r, k - 1);
      OneMoreLine(Repeated(r, k), Repeated(r, k - 1), r);
    }
  }

  lemma AppendedRow(f: Bytes, g: Bytes, r: Bytes)
    requires f == g + r + [NL] && NL !in r
    ensures var n := |g|;
            && |f| == n + |r| + 1 && f[..n] == g && f[n..|f| - 1] == r && f[|f| - 1] == NL
            && forall i :: n <= i < |f| - 1 ==> f[i] != NL
  {
    forall i | |g| <= i < |f| - 1 ensures f[i] != NL { assert f[i] == r[i - |g|]; }
  }

  lemma OneMoreLine(f: Bytes, g: Bytes, r: Bytes)
    requires f == g + r + [NL] && Boundary(g, |g|) && NL !in r
    ensures Lines(f, |f|) == Lines(g, |g|) + [Row(|g|, r)] && Boundary(f, |f|)
  {
    var n, end := |g|, |f|;
    AppendedRow(f, g, r);
    LongerByRow(f, g, r, n, end);
  }

  lemma LongerByRow(f: Bytes, g: Bytes, r: Bytes, n: nat, end: nat)
    requires n == |g| && n < end == |f| && f[..n] == g && f[n..end - 1] == r && f[end - 1] == NL && Boundary(g, n)
    requires forall i :: n <= i < end - 1 ==> f[i] != NL
    ensures Lines(f, end) == Lines(g, n) + [Row(n, r)] && Boundary(f, end)
  {
    hide Lines, LastBoundary;
    assert Boundary(f, n) by { if n > 0 { assert f[n - 1] == f[..n][n - 1]; } }
    assert g[..n] == g;
    LinesOfPrefix(f, g, n);
    PrevOfRow(f, n, end);
    LinesStep(f, end);
  }

  lemma {:induction false} BoundaryOfPrefix(f: Bytes, g: Bytes, end: nat)
    requires end <= |f| && end <= |g| && f[..end] == g[..end]
    ensures LastBoundary(f, end) == LastBoundary(g, end)
    decreases end
  {
    if end == 0 {
    } else {
      assert f[..end][end - 1] == g[..end][end - 1];
      assert f[..end - 1] == f[..end][..end - 1] == g[..end - 1];
      BoundaryOfPrefix(f, g, end - 1);
    }
  }

  lemma {:induction false} LinesOfPrefix(f: Bytes, g: Bytes, b: nat)
    requires b <= |f| && b <= |g| && f[..b] == g[..b]
    ensures Lines(f, b) == Lines(g, b)
    decreases b
  {
    if b == 0 {
    } else {
      assert f[..b - 1] == f[..b][..b - 1] == g[..b - 1];
      BoundaryOfPrefix(f, g, b - 1);
      var p := Prev(f, b);
      assert f[..p] == f[..b][..p] == g[..p];
      assert f[p..b - 1] == f[..b][p..b - 1] == g[p..b - 1];
      LinesOfPrefix(f, g, p);
    }
  }

  /** Thirteen tool results that fit the first window, read one row a page: the walk does not show what the file
      holds. */
  lemma LongToolRunLosesLines(r: Bytes, tool: RowTest)
    requires NL !in r && r != [] && tool(r) && 13 * (|r| + 1) <= INITIAL_WINDOW_BYTES
    ensures var f := Repeated(r, 13); Boundary(f, |f|) && Walk(f, |f|, 1, tool) != Expected(f, |f|)
  {
    hide Lines, Walk, Expected, LastBoundary, Collected;
    var f := Repeated(r, 13);
    RepeatedLines(r, 13);
    WalkIsComplete(f, |f|, 1, tool);
    PageGuardExactly(f, |f|, 1, tool);
  }

  /** A row that does not fit the largest window: the reader shows nothing of a file that holds it. */
  lemma HugeRowGivesUp(r: Bytes, n: nat, tool: RowTest)
    requires NL !in r && |r| >= MAX_WINDOW_BYTES && n > 0
    ensures Page(r + [NL], None, n, tool) == GiveUp() && Expected(r + [NL], |r| + 1) == [r]
  {
    hide Lines, Collected, LastBoundary, FinalCap;
    var f, end := r + [NL], |r| + 1;
    assert f[end - 1] == NL && LastBoundary(f, end) == end by { AtNewline(f, end); }
    NoLines([]);
    OneMoreLine(f, [], r);
    assert [] + r + [NL] == f;
    OneLineInside(f, end, end - MAX_WINDOW_BYTES, n);
    GivesUpExactly(f, end, n, INITIAL_WINDOW_BYTES);
    PageByFinalCap(f, end, INITIAL_WINDOW_BYTES, n, tool);
  }

  lemma AtNewline(f: Bytes, end: nat)
    requires 0 < end <= |f| && f[end - 1] == NL
    ensures LastBoundary(f, end) == end
  {
  }

  /** A window that holds the end of one row only yields no complete row. */
  lemma OneLineInside(f: Bytes, end: nat, start: nat, n: nat)
    requires 0 < start < end <= |f| && f[end - 1] == NL && |Lines(f, end)| == 1
    ensures Collected(f, start, end, n + TOOL_ALIGN_EXTRA_ROWS) == []
  {
    hide Lines, Collected;
    var r := InnerWindow(f, start, end, n + TOOL_ALIGN_EXTRA_ROWS);
  }

  // ---- cursors ----

  function Number(s: string): nat
    requires forall i :: 0 <= i < |s| ==> IsDigit(s[i])
  {
    if s == "" then 0 else
      assert IsDigit(s[|s| - 1]);
      10 * Number(s[..|s| - 1]) + (s[|s| - 1] as int - '0' as int)
  }

  lemma {:induction false} DecimalRoundTrip(n: nat)
    ensures Number(Decimal(n)) == n
  {
    var s := Decimal(n);
    if n >= 10 {
      DecimalRoundTrip(n / 10);
      assert s[..|s| - 1] == Decimal(n / 10);
    } else {
      assert s[..|s| - 1] == "";
    }
  }

  /** The first position from `i` on that does not hold a digit. */
  function DigitsEnd(s: string, i: nat): (j: nat)
    requires i <= |s|
    ensures i <= j <= |s| && (j == |s| || !IsDigit(s[j]))
    ensures forall k :: i <= k < j ==> IsDigit(s[k])
    decreases |s| - i
  {
    if i == |s| || !IsDigit(s[i]) then i else DigitsEnd(s, i + 1)
  }

  function EncodeHistoryCursor(offset: nat, size: nat): string {
    "b:" + Decimal(offset) + ":" + Decimal(size)
  }

  /** The expression ^b:(\d+):(\d+)$, read left to right. */
  function DecodeHistoryCursor(cursor: string): Option<(nat, nat)> {
    if |cursor| < 2 || cursor[..2] != "b:" then None else
      var j := DigitsEnd(cursor, 2);
      if j == 2 || j == |cursor| || cursor[j] != ':' then None else
        var k := DigitsEnd(cursor, j + 1);
        if k == j + 1 || k != |cursor| then None else Some((Number(cursor[2..j]), Number(cursor[j + 1..k])))
  }

  lemma CursorRoundTrip(offset: nat, size: nat)
    ensures DecodeHistoryCursor(EncodeHistoryCursor(offset, size)) == Some((offset, size))
  {
    hide Decimal, Number;
    var a, b := Decimal(offset), Decimal(size);
    var c := EncodeHistoryCursor(offset, size);
    assert c == "b:" + a + ":" + b;
    assert c[..2] == "b:";
    assert forall i :: 0 <= i < |a| ==> c[2 + i] == a[i];
    assert c[2 + |a|] == ':';
    assert forall i :: 0 <= i < |b| ==> c[3 + |a| + i] == b[i];
    assert DigitsEnd(c, 2) == 2 + |a|;
    assert c[2..2 + |a|] == a;
    assert DigitsEnd(c, 3 + |a|) == |c|;
    assert c[3 + |a|..|c|] == b;
    DecimalRoundTrip(offset);
    DecimalRoundTrip(size);
  }

  // ---- one request ----

  datatype HistoryPage = HistoryPage(messages: seq<SessionParser.ChatMessage>, nextCursor: Option<string>,
                                     hasMore: bool)

  type RowDecoder = Bytes -> SessionParser.Line

  /** The size asked for, within its bounds. */
  function PageSize(rows: Option<int>): (n: nat)
    ensures 1 <= n <= MAX_PAGE_ROWS
    ensures rows.Some? && 1 <= rows.value <= MAX_PAGE_ROWS ==> n == rows.value
    ensures rows.Some? && rows.value < 1 ==> n == 1
    ensures rows.Some? && rows.value > MAX_PAGE_ROWS ==> n == MAX_PAGE_ROWS
    ensures rows.None? ==> n == HISTORY_PAGE_ROWS
  {
    Max(1, Min(if rows.Some? then rows.value else HISTORY_PAGE_ROWS, MAX_PAGE_ROWS))
  }

  /** The window a request gets; a malformed, exhausted or outlived cursor gets none. */
  function CursorWindow(file: Bytes, cursor: Option<string>, n: nat, tool: RowTest): Window {
    if cursor.None? || cursor.value == "" then Page(file, None, n, tool)
    else match DecodeHistoryCursor(cursor.value)
      case None => GiveUp()
      case Some((offset, size)) =>
        if offset == 0 || |file| < size then GiveUp() else Page(file, Some(offset), n, tool)
  }

  function DecodeRows(rows: seq<Bytes>, decode: RowDecoder): seq<SessionParser.Line> {
    seq(|rows|, i requires 0 <= i < |rows| => decode(rows[i]))
  }

  function NextCursor(w: Window, size: nat): Option<string> {
    if w.startOffset > 0 then Some(EncodeHistoryCursor(w.startOffset, size)) else None
  }

  /** Whatever the cursor, well formed or not: the window of a request holds a page. */
  lemma CursorPageHolds(file: Bytes, cursor: Option<string>, n: nat, tool: RowTest)
    requires n > 0
    ensures HoldsPage(CursorWindow(file, cursor, n, tool), n, tool)
  {
    hide HoldsPage, PageEndingAt, LastBoundary, DecodeHistoryCursor;
    GivenUpHolds(n, tool);
    forall end | 0 < end <= |file| ensures HoldsPage(PageEndingAt(file, end, n, tool), n, tool) {
      PageHoldsItsRows(file, end, n, tool);
    }
  }

  method ReadSessionHistoryPage(file: Option<Bytes>, cursor: Option<string>, rows: Option<int>,
                                tool: RowTest, decode: RowDecoder)
    returns (page: Option<HistoryPage>)
    ensures file.None? <==> page.None?
    ensures page.Some? ==>
              var w := CursorWindow(file.value, cursor, PageSize(rows), tool);
              && page.value.messages == SessionParser.Parse(DecodeRows(w.rows, decode))
              && page.value.nextCursor == NextCursor(w, |file.value|)
              && page.value.hasMore == (w.startOffset > 0)
              && HoldsPage(w, PageSize(rows), tool)
  {
    hide Page, SessionParser.Fed, PageEndingAt, HoldsPage;
    if file.Some? { CursorPageHolds(file.value, cursor, PageSize(rows), tool); }
    if file.None? { return None; }
    var n := Max(1, Min(if rows.Some? then rows.value else HISTORY_PAGE_ROWS, MAX_PAGE_ROWS));
    var size := |file.value|;
    var endOffset: Option<nat> := None;
    if cursor.Some? && cursor.value != "" {
      var decoded := DecodeHistoryCursor(cursor.value);
      if decoded.None? || decoded.value.0 <= 0 { return Some(HistoryPage([], None, false)); }
      if size < decoded.value.1 { return Some(HistoryPage([], None, false)); }
      endOffset := Some(decoded.value.0);
    }
    var win := ReadCompleteRowsEndingAt(file.value, endOffset, n, tool);
    var parser := new SessionParser.SessionLineParser();
    ghost var lines := DecodeRows(win.rows, decode);
    for i := 0 to |win.rows|
      invariant SessionParser.FedAll(parser.messages, lines[i..]) == SessionParser.Parse(lines)
    {
      assert lines[i..][1..] == lines[i + 1..];
      parser.Feed(decode(win.rows[i]));
    }
    var nextCursor := if win.startOffset > 0 then Some(EncodeHistoryCursor(win.startOffset, size)) else None;
    return Some(HistoryPage(parser.messages, nextCursor, nextCursor.Some?));
  }

  // ---- pages of a file that grows between requests ----

  lemma {:induction false} PageOfPrefix(f: Bytes, g: Bytes, end: nat, cap: nat, n: nat, tool: RowTest)
    requires 0 < end <= |f| && f <= g && 0 < cap
    ensures PageFrom(f, end, cap, n, tool) == PageFrom(g, end, cap, n, tool)
    decreases MAX_WINDOW_BYTES - cap
  {
    hide Choose, RowsInBuffer;
    var start := WindowStart(end, cap);
    assert f[start..end] == g[start..end];
    if cap < MAX_WINDOW_BYTES { PageOfPrefix(f, g, end, 4 * cap, n, tool); }
  }

  /** A minted cursor means the same rows and the same older cursor however much is appended. */
  lemma MintedCursorIsStable(f: Bytes, g: Bytes, offset: nat, size: nat, n: nat, tool: RowTest)
    requires f <= g && 0 < offset <= |f| && Boundary(f, offset) && size <= |g|
    ensures var cursor := Some(EncodeHistoryCursor(offset, size));
            && (size <= |f| ==> CursorWindow(f, cursor, n, tool) == PageEndingAt(f, offset, n, tool))
            && CursorWindow(g, cursor, n, tool) == PageEndingAt(f, offset, n, tool)
  {
    hide PageFrom, EncodeHistoryCursor, DecodeHistoryCursor;
    CursorRoundTrip(offset, size);
    assert EncodeHistoryCursor(offset, size) != "" by { NoEmptyCursor(offset, size); }
    PageOfPrefix(f, g, offset, Min(INITIAL_WINDOW_BYTES, offset), n, tool);
  }

  lemma NoEmptyCursor(offset: nat, size: nat)
    ensures EncodeHistoryCursor(offset, size) != ""
  {
    assert |"b:"| == 2;
  }

  /** A client's requests, newest page first, each answered from the file as it is by then. */
  ghost predicate Traversal(files: seq<Bytes>, pages: seq<Window>, n: nat, tool: RowTest) {
    && |files| == |pages| > 0
    && (forall i, j :: 0 <= i <= j < |files| ==> files[i] <= files[j])
    && pages[0] == CursorWindow(files[0], None, n, tool)
    && (forall i, j :: 0 <= i < j < |pages| && j == i + 1 ==>
          pages[i].startOffset > 0 && pages[j] == CursorWindow(files[j], NextCursor(pages[i], |files[i]|), n, tool))
    && pages[|pages| - 1].startOffset == 0
  }

  /** The rows of pages `i`, `i + 1`, ... with the oldest page first. */
  function RowsFrom(pages: seq<Window>, i: nat): seq<Bytes>
    requires i <= |pages|
    decreases |pages| - i
  {
    if i == |pages| then [] else RowsFrom(pages, i + 1) + pages[i].rows
  }

  lemma {:induction false} TraversalWalks(files: seq<Bytes>, pages: seq<Window>, i: nat, end: nat, n: nat,
                                          tool: RowTest)
    requires Traversal(files, pages, n, tool) && i < |pages| && n > 0
    requires 0 < end <= |files[0]| && Boundary(files[0], end) && pages[i] == PageEndingAt(files[0], end, n, tool)
    ensures RowsFrom(pages, i) == Walk(files[0], end, n, tool)
    decreases |pages| - i
  {
    hide PageEndingAt, CursorWindow, EncodeHistoryCursor, DecodeHistoryCursor;
    var o := pages[i].startOffset;
    PageProgress(files[0], end, n, tool);
    if i + 1 < |pages| {
      var k := i + 1;
      assert files[0] <= files[k] && |files[i]| <= |files[k]| && files[0] <= files[i];
      assert pages[k] == CursorWindow(files[k], NextCursor(pages[i], |files[i]|), n, tool);
      MintedCursorIsStable(files[0], files[k], o, |files[i]|, n, tool);
      TraversalWalks(files, pages, k, o, n, tool);
    } else {
      assert RowsFrom(pages, i + 1) == [];
    }
  }

  /** Requests answered from a growing file show the lines of the first answer's file, each once, exactly
      when no page of that file overruns. */
  lemma TraversalIsComplete(files: seq<Bytes>, pages: seq<Window>, n: nat, tool: RowTest)
    requires Traversal(files, pages, n, tool) && n > 0
    ensures var end := LastBoundary(files[0], |files[0]|);
            && RowsFrom(pages, 0) == Walk(files[0], end, n, tool)
            && (RowsFrom(pages, 0) == Expected(files[0], end) <==> WalkGuard(files[0], end, n, tool))
  {
    assert |files| == |pages| > 0;
    hide *;
    var end := LastBoundary(files[0], |files[0]|);
    FirstPage(files, pages, end, n, tool);
    WalkIsComplete(files[0], end, n, tool);
    if end > 0 {
      TraversalWalks(files, pages, 0, end, n, tool);
    } else {
      EmptyWalk(files[0], n, tool);
    }
  }

  lemma FirstPage(files: seq<Bytes>, pages: seq<Window>, end: nat, n: nat, tool: RowTest)
    requires Traversal(files, pages, n, tool) && n > 0 && end == LastBoundary(files[0], |files[0]|)
    ensures Boundary(files[0], end)
    ensures if end > 0 then pages[0] == PageEndingAt(files[0], end, n, tool) else RowsFrom(pages, 0) == []
  {
    hide PageEndingAt, NextCursor, DecodeHistoryCursor;
    assert pages[0] == CursorWindow(files[0], None, n, tool);
    if end == 0 {
      assert pages[0].startOffset == 0;
      assert RowsFrom(pages, 1) == [];
    }
  }

  lemma EmptyWalk(file: Bytes, n: nat, tool: RowTest)
    requires n > 0
    ensures Walk(file, 0, n, tool) == []
  {
  }

  // ---- the messages of all pages ----

  /** Pages oldest first, as the lines each was parsed from. */
  function PageLines(pages: seq<Window>, i: nat, decode: RowDecoder): seq<seq<SessionParser.Line>>
    requires i <= |pages|
    decreases |pages| - i
  {
    if i == |pages| then [] else PageLines(pages, i + 1, decode) + [DecodeRows(pages[i].rows, decode)]
  }

  lemma {:induction false} PageLinesFlatten(pages: seq<Window>, i: nat, decode: RowDecoder)
    requires i <= |pages|
    ensures SessionParser.Flatten(PageLines(pages, i, decode)) == DecodeRows(RowsFrom(pages, i), decode)
    decreases |pages| - i
  {
    if i < |pages| {
      PageLinesFlatten(pages, i + 1, decode);
      var older := PageLines(pages, i + 1, decode);
      assert PageLines(pages, i, decode)[..|older|] == older;
    }
  }

  /** An empty line feeds nothing, so the line the pager leaves out does not matter. */
  lemma SeenParsesAsAll(l: seq<Row>, decode: RowDecoder)
    requires decode([]) == SessionParser.Blank
    ensures SessionParser.Parse(DecodeRows(Seen(l), decode)) == SessionParser.Parse(DecodeRows(Texts(l), decode))
  {
    if EmptyFirst(l) {
      var all := DecodeRows(Texts(l), decode);
      assert all[0] == SessionParser.Blank && all[1..] == DecodeRows(Seen(l), decode);
      assert SessionParser.Fed([], all[0]) == [];
    } else {
      assert Seen(l) == Texts(l);
    }
  }

  /** All pages' messages, joined oldest first, are the whole-file parse exactly when no call and
      result are on different pages. */
  lemma PagedMessagesAreTheTranscript(files: seq<Bytes>, pages: seq<Window>, n: nat, tool: RowTest, decode: RowDecoder)
    requires Traversal(files, pages, n, tool) && n > 0 && decode([]) == SessionParser.Blank
    requires WalkGuard(files[0], LastBoundary(files[0], |files[0]|), n, tool)
    requires SessionParser.Identified(DecodeRows(RowsFrom(pages, 0), decode))
    ensures var l := Texts(Lines(files[0], LastBoundary(files[0], |files[0]|)));
            SessionParser.ParsedPages(PageLines(pages, 0, decode)) == SessionParser.Parse(DecodeRows(l, decode)) <==>
            SessionParser.NoPageStraddles(PageLines(pages, 0, decode))
  {
    hide Walk, WalkGuard, SessionParser.Parse, SessionParser.NoPageStraddles;
    var end := LastBoundary(files[0], |files[0]|);
    TraversalIsComplete(files, pages, n, tool);
    PageLinesFlatten(pages, 0, decode);
    SeenParsesAsAll(Lines(files[0], end), decode);
    SessionParser.IdentifiedPages(PageLines(pages, 0, decode));
    SessionParser.PagesJoin(PageLines(pages, 0, decode));
  }
}
