/**
 * Splitting growing text into lines.
 */
module LineFeed {
  import opened TextEncoding

  const NEWLINE: Point := 10

  /** The complete lines seen so far and the unfinished rest. */
  datatype Cut = Cut(lines: seq<Text>, rest: Text)

  function Push(c: Cut, x: Point): Cut {
    if x == NEWLINE then Cut(c.lines + [c.rest], []) else Cut(c.lines, c.rest + [x])
  }

  function Feed(c: Cut, s: Text): Cut
    decreases |s|
  {
    if s == [] then c else Feed(Push(c, s[0]), s[1..])
  }

  /** The complete lines of a text and what follows the last newline. */
  function Split(s: Text): Cut {
    Feed(Cut([], []), s)
  }

  /** An offset just after a newline, or at the head of the text. */
  predicate LineStart(s: Text, p: nat) {
    p <= |s| && (p == 0 || s[p - 1] == NEWLINE)
  }

  predicate OneLine(s: Text) {
    forall i :: 0 <= i < |s| ==> s[i] != NEWLINE
  }

  lemma {:induction false} FeedConcat(c: Cut, a: Text, b: Text)
    ensures Feed(c, a + b) == Feed(Feed(c, a), b)
    decreases |a|
  {
    if a == [] {
      assert a + b == b;
    } else {
      assert (a + b)[1..] == a[1..] + b;
      FeedConcat(Push(c, a[0]), a[1..], b);
    }
  }

  lemma {:induction false} FeedAfter(ls: seq<Text>, r: Text, s: Text)
    ensures Feed(Cut(ls, r), s) == Cut(ls + Feed(Cut([], r), s).lines, Feed(Cut([], r), s).rest)
    decreases |s|
  {
    if s == [] {
      assert ls + [] == ls;
    } else if s[0] == NEWLINE {
      FeedAfter(ls + [r], [], s[1..]);
      FeedAfter([r], [], s[1..]);
      assert [] + [r] == [r];
      assert ls + ([r] + Feed(Cut([], []), s[1..]).lines) == ls + [r] + Feed(Cut([], []), s[1..]).lines;
    } else {
      FeedAfter(ls, r + [s[0]], s[1..]);
    }
  }

  lemma {:induction false} FeedOneLine(c: Cut, s: Text)
    requires OneLine(s)
    ensures Feed(c, s) == Cut(c.lines, c.rest + s)
    decreases |s|
  {
    if s == [] {
      assert c.rest + s == c.rest;
    } else {
      FeedOneLine(Push(c, s[0]), s[1..]);
      assert c.rest + [s[0]] + s[1..] == c.rest + s;
    }
  }

  /** The rest never holds a newline. */
  lemma {:induction false} RestIsOneLine(c: Cut, s: Text)
    requires OneLine(c.rest)
    ensures OneLine(Feed(c, s).rest)
    decreases |s|
  {
    if s == [] {
    } else {
      RestIsOneLine(Push(c, s[0]), s[1..]);
    }
  }

  /** A text cut at a line start splits into the lines before and after it. */
  lemma SplitAt(s: Text, p: nat)
    requires LineStart(s, p)
    ensures Split(s[..p]).rest == []
    ensures Split(s) == Cut(Split(s[..p]).lines + Split(s[p..]).lines, Split(s[p..]).rest)
  {
    if p > 0 {
      assert s[..p] == s[..p - 1] + [NEWLINE];
      FeedConcat(Cut([], []), s[..p - 1], [NEWLINE]);
      assert [NEWLINE][1..] == [];
    }
    assert s == s[..p] + s[p..];
    FeedConcat(Cut([], []), s[..p], s[p..]);
    FeedAfter(Split(s[..p]).lines, [], s[p..]);
  }

  /** Feeding from an unfinished rest is splitting the rest and the new text together. */
  lemma FeedRest(r: Text, s: Text)
    requires OneLine(r)
    ensures Feed(Cut([], r), s) == Split(r + s)
  {
    FeedConcat(Cut([], []), r, s);
    FeedOneLine(Cut([], []), r);
    assert [] + r == r;
  }

  /** One step of a loop that takes lines off the front of a text. */
  lemma SplitHead(s: Text, i: nat)
    requires i < |s| && s[i] == NEWLINE && OneLine(s[..i])
    ensures Split(s) == Cut([s[..i]] + Split(s[i + 1..]).lines, Split(s[i + 1..]).rest)
  {
    SplitAt(s, i + 1);
    assert s[..i + 1] == s[..i] + [NEWLINE];
    FeedConcat(Cut([], []), s[..i], [NEWLINE]);
    FeedOneLine(Cut([], []), s[..i]);
    assert [NEWLINE][1..] == [];
    assert [] + s[..i] == s[..i];
  }

  /** Lines written one after the other, each with its newline. */
  function Written(lines: seq<Text>): Text {
    if lines == [] then [] else lines[0] + [NEWLINE] + Written(lines[1..])
  }

  /** The split of a text is the one way to write it as lines without newlines, each followed by one, and a rest. */
  lemma SplitExactly(s: Text, lines: seq<Text>, rest: Text)
    ensures Split(s) == Cut(lines, rest) <==>
            Written(lines) + rest == s && OneLine(rest) && forall i :: 0 <= i < |lines| ==> OneLine(lines[i])
  {
    FedIsWritten(Cut([], []), s);
    hide Split, Feed;
    if Written(lines) + rest == s && OneLine(rest) && forall i :: 0 <= i < |lines| ==> OneLine(lines[i]) {
      WrittenSplits(lines, rest);
    }
  }

  lemma {:induction false} FedIsWritten(c: Cut, s: Text)
    requires OneLine(c.rest) && forall i :: 0 <= i < |c.lines| ==> OneLine(c.lines[i])
    ensures var d := Feed(c, s);
            && Written(d.lines) + d.rest == Written(c.lines) + c.rest + s && OneLine(d.rest)
            && forall i :: 0 <= i < |d.lines| ==> OneLine(d.lines[i])
    decreases |s|
  {
    if s == [] {
    } else {
      var d := Push(c, s[0]);
      FedIsWritten(d, s[1..]);
      if s[0] == NEWLINE { WrittenPush(c.lines, c.rest); }
      assert Written(d.lines) + d.rest == Written(c.lines) + c.rest + [s[0]];
      assert s == [s[0]] + s[1..];
    }
  }

  lemma {:induction false} WrittenPush(lines: seq<Text>, line: Text)
    ensures Written(lines + [line]) == Written(lines) + line + [NEWLINE]
    decreases |lines|
  {
    var all := lines + [line];
    if lines == [] {
      assert all[1..] == [];
    } else {
      assert all[1..] == lines[1..] + [line];
      WrittenPush(lines[1..], line);
    }
  }

  lemma {:induction false} WrittenSplits(lines: seq<Text>, rest: Text)
    requires OneLine(rest) && forall i :: 0 <= i < |lines| ==> OneLine(lines[i])
    ensures Split(Written(lines) + rest) == Cut(lines, rest)
    decreases |lines|
  {
    hide Split;
    var s := Written(lines) + rest;
    if lines == [] {
      assert s == rest;
      SplitOneLine(rest);
    } else {
      var n, later := |lines[0]|, Written(lines[1..]) + rest;
      assert s == lines[0] + [NEWLINE] + later;
      assert s[n] == NEWLINE && s[..n] == lines[0] && s[n + 1..] == later;
      SplitHead(s, n);
      WrittenSplits(lines[1..], rest);
      assert lines == [lines[0]] + lines[1..];
    }
  }

  /** The first newline of a text, or -1. */
  method IndexOfNewline(s: Text) returns (i: int)
    ensures -1 <= i < |s|
    ensures i >= 0 ==> s[i] == NEWLINE && OneLine(s[..i])
    ensures i < 0 ==> OneLine(s)
  {
    i := 0;
    while i < |s|
      invariant 0 <= i <= |s| && OneLine(s[..i])
    {
      if s[i] == NEWLINE { return; }
      i := i + 1;
    }
    return -1;
  }

  /** The last newline of a text, or -1. */
  method LastIndexOfNewline(s: Text) returns (i: int)
    ensures -1 <= i < |s|
    ensures i >= 0 ==> s[i] == NEWLINE && OneLine(s[i + 1..])
    ensures i < 0 ==> OneLine(s)
  {
    i := |s| - 1;
    while i >= 0
      invariant -1 <= i < |s| && OneLine(s[i + 1..])
    {
      if s[i] == NEWLINE { return; }
      i := i - 1;
    }
  }

  /** The lengths of the lines and the rest account for the whole text. */
  function Length(lines: seq<Text>): nat {
    if lines == [] then 0 else Length(lines[..|lines| - 1]) + |lines[|lines| - 1]| + 1
  }

  lemma LengthConcat(a: seq<Text>, b: seq<Text>)
    ensures Length(a + b) == Length(a) + Length(b)
    decreases |b|
  {
    if b == [] {
      assert a + b == a;
    } else {
      assert (a + b)[..|a + b| - 1] == a + b[..|b| - 1];
      LengthConcat(a, b[..|b| - 1]);
    }
  }

  lemma {:induction false} SplitLength(c: Cut, s: Text)
    ensures Length(Feed(c, s).lines) + |Feed(c, s).rest| == Length(c.lines) + |c.rest| + |s|
    decreases |s|
  {
    if s == [] {
    } else {
      SplitLength(Push(c, s[0]), s[1..]);
      if s[0] == NEWLINE { LengthConcat(c.lines, [c.rest]); assert [c.rest][..0] == []; }
    }
  }

  lemma EmptySplit()
    ensures Split([]) == Cut([], []) && Length([]) == 0
  {
  }

  lemma SplitLengths(s: Text)
    ensures Length(Split(s).lines) + |Split(s).rest| == |s|
  {
    SplitLength(Cut([], []), s);
  }

  lemma SplitOneLine(s: Text)
    requires OneLine(s)
    ensures Split(s) == Cut([], s)
  {
    FeedOneLine(Cut([], []), s);
    assert [] + s == s;
  }

  /** A buffer cut at a line start decodes to the lines before and after it, whatever its bytes are. */
  lemma DecodedAt(b: Bytes, p: nat)
    requires LineStart(b, p)
    ensures Decode(b) == Decode(b[..p]) + Decode(b[p..]) && Split(Decode(b[..p])).rest == []
    ensures Split(Decode(b)) ==
            Cut(Split(Decode(b[..p])).lines + Split(Decode(b[p..])).lines, Split(Decode(b[p..])).rest)
  {
    hide Decode, Split;
    var t, n := Decode(b), |Decode(b[..p])|;
    if p == 0 {
      assert b[..0] == [] && b[0..] == b;
      DecodeNewline();
      EmptySplit();
      assert [] + t == t && [] + Split(t).lines == Split(t).lines;
    } else {
      DecodeAtNewline(b, p - 1);
      assert t[..n] == Decode(b[..p]) && t[n..] == Decode(b[p..]) && t[n - 1] == NEWLINE;
      SplitAt(t, n);
    }
  }

  /** Bytes without a newline decode to an unfinished line. */
  lemma DecodedRest(b: Bytes)
    requires OneLine(b)
    ensures Split(Decode(b)) == Cut([], Decode(b))
  {
    hide Decode;
    NoNewlineDecoded(b);
    SplitOneLine(Decode(b));
  }
}
