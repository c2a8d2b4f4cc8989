/**
 * What a request for a page of history means (backend/session-history.ts): which cursors are read,
   which window a cursor
 * asks for, and which of the growing windows serves it.
 */
module HistoryRequests {
  import opened Wrappers
  import opened TextEncoding
  import opened SessionHistory

  // ---- cursors ----

  predicate Digits(s: string) {
    s != "" && forall i :: 0 <= i < |s| ==> IsDigit(s[i])
  }

  /** The letter b and two numbers, with colons between them and nothing else. */
  ghost predicate IsCursor(cursor: string, offset: nat, size: nat) {
    exists a, b :: Digits(a) && Digits(b) && cursor == "b:" + a + ":" + b && Number(a) == offset && Number(b) == size
  }

  lemma NumberPush(s: string, c: char)
    requires (forall i :: 0 <= i < |s| ==> IsDigit(s[i])) && IsDigit(c)
    ensures Number("") == 0 && Number(s + [c]) == 10 * Number(s) + (c as int - '0' as int)
  {
    assert (s + [c])[..|s|] == s;
  }

  lemma CursorExactly(cursor: string, offset: nat, size: nat)
    ensures DecodeHistoryCursor(cursor) == Some((offset, size)) <==> IsCursor(cursor, offset, size)
  {
    hide Number;
    if DecodeHistoryCursor(cursor) == Some((offset, size)) {
      var j := DigitsEnd(cursor, 2);
      var a, b := cursor[2..j], cursor[j + 1..];
      assert cursor[..2] == "b:" && cursor == cursor[..2] + a + [cursor[j]] + b;
      assert b == cursor[j + 1..|cursor|];
    }
    if IsCursor(cursor, offset, size) {
      var a, b :| Digits(a) && Digits(b) && cursor == "b:" + a + ":" + b && Number(a) == offset && Number(b) == size;
      SpelledCursor(cursor, a, b);
    }
  }

  lemma SpelledCursor(cursor: string, a: string, b: string)
    requires Digits(a) && Digits(b) && cursor == "b:" + a + ":" + b
    ensures DecodeHistoryCursor(cursor) == Some((Number(a), Number(b)))
  {
    var n := 2 + |a|;
    assert cursor[..2] == "b:" && cursor[n] == ':' && cursor[2..n] == a && cursor[n + 1..|cursor|] == b;
    assert DigitsEnd(cursor, 2) == n by {
      assert forall i :: 2 <= i < n ==> cursor[i] == a[i - 2];
      EndOfDigits(cursor, 2, n);
    }
    assert DigitsEnd(cursor, n + 1) == |cursor| by {
      assert forall i :: n < i < |cursor| ==> cursor[i] == b[i - n - 1];
      EndOfDigits(cursor, n + 1, |cursor|);
    }
    hide Number, DigitsEnd;
  }

  lemma EndOfDigits(s: string, i: nat, j: nat)
    requires i <= j <= |s| && (forall k :: i <= k < j ==> IsDigit(s[k])) && (j < |s| ==> !IsDigit(s[j]))
    ensures DigitsEnd(s, i) == j
  {
    var e := DigitsEnd(s, i);
    hide DigitsEnd;
    assert !(e < j) && !(j < e);
  }

  // ---- requests ----

  /** The place after the last newline, or the head of a file without one. */
  predicate LastLineEnd(file: Bytes, end: nat) {
    end <= |file| && (end == 0 || file[end - 1] == NL) && forall i :: end <= i < |file| ==> file[i] != NL
  }

  /** A cursor that is none, that is used up, or that was made when the file was longer gets no rows and no next
      page; any other gets the page that ends where it says, and a request without one the page that ends with the last
      line. */
  lemma RequestExactly(file: Bytes, cursor: Option<string>, n: nat, tool: RowTest, offset: nat, size: nat, end: nat)
    requires LastLineEnd(file, end)
    ensures var w := CursorWindow(file, cursor, n, tool);
            var given := cursor.Some? && cursor.value != "";
            && (given && (forall o, s :: !IsCursor(cursor.value, o, s)) ==> w.rows == [] && w.startOffset == 0)
            && (given && IsCursor(cursor.value, offset, size) && (offset == 0 || |file| < size) ==>
                  w.rows == [] && w.startOffset == 0)
            && (given && IsCursor(cursor.value, offset, size) && 0 < offset < |file| && size <= |file| ==>
                  w == PageEndingAt(file, offset, n, tool))
            && (!given || (IsCursor(cursor.value, offset, size) && offset >= |file| > 0 && size <= |file|) ==>
                  if end == 0 then w.rows == [] && w.startOffset == 0 else w == PageEndingAt(file, end, n, tool))
  {
    hide PageEndingAt, DecodeHistoryCursor, IsCursor;
    var last := LastBoundary(file, |file|);
    assert last == end by {
      hide LastBoundary;
      assert !(last < end) && !(end < last);
    }
    if cursor.Some? && cursor.value != "" {
      CursorExactly(cursor.value, offset, size);
      if DecodeHistoryCursor(cursor.value).Some? {
        var read := DecodeHistoryCursor(cursor.value).value;
        CursorExactly(cursor.value, read.0, read.1);
      }
    }
  }

  // ---- the windows ----

  /** The sizes of the windows that are tried: four times as many bytes each time. */
  function Try(end: nat, k: nat): nat {
    if k == 0 then Min(4194304, end) else 4 * Try(end, k - 1)
  }

  /** A page is what the first window serves that holds enough rows or begins at the head of the file; when the
      window of 256 MiB does not either, nothing is shown. */
  lemma FirstWindowServes(file: Bytes, end: nat, n: nat, tool: RowTest) returns (k: nat)
    requires 0 < end <= |file|
    ensures forall j: nat | j < k :: Try(end, j) < 268435456 && Try(end, j) < end && TooFew(file, end, Try(end, j), n)
    ensures var w := PageEndingAt(file, end, n, tool);
            if TooFew(file, end, Try(end, k), n) then Try(end, k) >= 268435456 && w.rows == [] && w.startOffset == 0
            else WindowPage(file, end, Try(end, k), n, tool) == Some(w)
  {
    k := WindowFrom(file, end, 0, n, tool);
  }

  /** A window inside the file that holds fewer rows than asked for. */
  predicate TooFew(file: Bytes, end: nat, cap: nat, n: nat)
    requires end <= |file|
  {
    cap < end && |Collected(file, end - cap, end, n + 10)| < n
  }

  lemma {:induction false} WindowFrom(file: Bytes, end: nat, i: nat, n: nat, tool: RowTest) returns (k: nat)
    requires 0 < end <= |file|
    ensures k >= i
    ensures Try(end, i) > 0
    ensures forall j: nat ::
              i <= j < k ==> Try(end, j) < 268435456 && Try(end, j) < end && TooFew(file, end, Try(end, j), n)
    ensures var w := PageFrom(file, end, Try(end, i), n, tool);
            if TooFew(file, end, Try(end, k), n) then Try(end, k) >= 268435456 && w.rows == [] && w.startOffset == 0
            else WindowPage(file, end, Try(end, k), n, tool) == Some(w)
    decreases 268435456 - Try(end, i)
  {
    hide Collected, Choose;
    TriesArePositive(end, i);
    var cap := Try(end, i);
    if TooFew(file, end, cap, n) && cap < 268435456 {
      k := WindowFrom(file, end, i + 1, n, tool);
    } else {
      k := i;
    }
  }

  lemma {:induction false} TriesArePositive(end: nat, i: nat)
    requires end > 0
    ensures Try(end, i) > 0
  {
    if i > 0 { TriesArePositive(end, i - 1); }
  }
}
