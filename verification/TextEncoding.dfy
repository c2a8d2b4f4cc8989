/**
 * UTF-8 as a buffer is turned into text: ill-formed bytes are replaced by U+FFFD, one for each
 * maximal part of a character (section 3.9 of the Unicode Standard).
 */
module TextEncoding {
  import opened Wrappers

  type Byte = b: int | 0 <= b < 256
  type Bytes = seq<Byte>
  type Point = p: int | 0 <= p < 0x110000
  type Text = seq<Point>

  const REPLACEMENT: Point := 0xFFFD

  // ---- one character ----

  predicate Surrogate(p: Point) {
    0xD800 <= p < 0xE000
  }

  /** How many bytes a code point takes. */
  function PointSize(p: Point): (n: nat)
    ensures 1 <= n <= 4
  {
    if p < 0x80 then 1 else if p < 0x800 then 2 else if p < 0x10000 then 3 else 4
  }

  function EncodePoint(p: Point): (b: Bytes)
    ensures |b| == PointSize(p)
  {
    var q := p / 64;
    var r := q / 64;
    if p < 0x80 then [p]
    else if p < 0x800 then [0xC0 + q, 0x80 + p % 64]
    else if p < 0x10000 then [0xE0 + r, 0x80 + q % 64, 0x80 + p % 64]
    else [0xF0 + r / 64, 0x80 + r % 64, 0x80 + q % 64, 0x80 + p % 64]
  }

  /** A byte in the middle of a character. */
  predicate Continues(x: Byte) {
    0x80 <= x < 0xC0
  }

  /** The number of bytes a first byte announces; 0 for a byte that cannot be first. */
  function Announced(x: Byte): (n: nat)
    ensures n <= 4
  {
    if x < 0x80 then 1 else if 0xC2 <= x < 0xE0 then 2 else if 0xE0 <= x < 0xF0 then 3 else if 0xF0 <= x < 0xF5 then 4
      else 0
  }

  /** Whether a second byte may follow a first one: no overlong form, no surrogate, nothing beyond U+10FFFF. */
  predicate Follows(first: Byte, x: Byte) {
    Continues(x) && (first == 0xE0 ==> 0xA0 <= x) && (first == 0xED ==> x < 0xA0) && (first == 0xF0 ==> 0x90 <= x) &&
    (first == 0xF4 ==> x < 0x90)
  }

  /** The length of the longest part of a character at the head of `b`; at least one byte is always taken. */
  function PartSize(b: Bytes): (n: nat)
    requires b != []
    ensures 1 <= n <= |b| && n <= 4
  {
    var need := Announced(b[0]);
    if need <= 1 || |b| == 1 || !Follows(b[0], b[1]) then 1
    else if need == 2 || |b| == 2 || !Continues(b[2]) then 2
    else if need == 3 || |b| == 3 || !Continues(b[3]) then 3
    else 4
  }

  /** The head of `b` is a whole character. */
  predicate Whole(b: Bytes)
    requires b != []
  {
    PartSize(b) == Announced(b[0])
  }

  function HeadPoint(b: Bytes): (p: Point)
    requires b != []
  {
    if !Whole(b) then REPLACEMENT
    else if Announced(b[0]) == 1 then b[0]
    else if Announced(b[0]) == 2 then Shift(b[0] as int - 0xC0, b[1])
    else if Announced(b[0]) == 3 then Shift(Shift(b[0] as int - 0xE0, b[1]), b[2])
    else Shift(Shift(Shift(b[0] as int - 0xF0, b[1]), b[2]), b[3])
  }

  /** Six more bits. */
  function Shift(high: int, x: Byte): int {
    high * 64 + (x as int - 0x80)
  }

  // ---- whole buffers ----

  function Decode(b: Bytes): Text
    decreases |b|
  {
    if b == [] then [] else [HeadPoint(b)] + Decode(b[PartSize(b)..])
  }

  function Encode(t: Text): Bytes {
    if t == [] then [] else EncodePoint(t[0]) + Encode(t[1..])
  }

  function EncodedSize(t: Text): nat {
    if t == [] then 0 else PointSize(t[0]) + EncodedSize(t[1..])
  }

  /** Well-formed UTF-8, up to a last character that may still be in the middle of being written. */
  predicate WellFormed(b: Bytes)
    decreases |b|
  {
    b == [] ||
    (Announced(b[0]) > 0 && (Whole(b) || PartSize(b) == |b|) && WellFormed(b[PartSize(b)..]))
  }

  /** A place between two characters. */
  predicate PointBoundary(b: Bytes, i: nat) {
    i <= |b| && (i == |b| || !Continues(b[i]))
  }

  // ---- well-formed text is what is encoded ----

  lemma ShiftUndone(p: nat)
    ensures Shift(p / 64, 0x80 + p % 64) == p
  {
  }

  lemma ShiftSplit(high: nat, x: Byte)
    requires Continues(x)
    ensures Shift(high, x) / 64 == high && 0x80 + Shift(high, x) % 64 == x
  {
  }

  lemma HeadOfEncoded(p: Point, rest: Bytes)
    requires !Surrogate(p)
    ensures var b := EncodePoint(p) + rest;
            PartSize(b) == PointSize(p) && Whole(b) && HeadPoint(b) == p && b[PartSize(b)..] == rest
  {
    hide Shift;
    var b, e := EncodePoint(p) + rest, EncodePoint(p);
    var q := p / 64;
    var r := q / 64;
    assert b[|e|..] == rest && b[0] == e[0];
    ShiftUndone(p);
    ShiftUndone(q);
    ShiftUndone(r);
    if |e| > 1 { assert b[1] == e[1]; }
    if |e| > 2 { assert b[2] == e[2]; }
    if |e| > 3 { assert b[3] == e[3]; }
  }

  lemma EncodedNothing()
    ensures EncodedSize([]) == 0
  {
  }

  lemma {:induction false} EncodedPush(t: Text, p: Point)
    ensures EncodedSize(t + [p]) == EncodedSize(t) + PointSize(p)
    decreases |t|
  {
    if t == [] {
      assert t + [p] == [p] && [p][1..] == [];
    } else {
      assert (t + [p])[1..] == t[1..] + [p];
      EncodedPush(t[1..], p);
    }
  }

  /** Decoding what was encoded gives it back, and what was encoded is well formed. */
  lemma {:induction false} DecodeEncode(t: Text)
    requires forall i :: 0 <= i < |t| ==> !Surrogate(t[i])
    ensures Decode(Encode(t)) == t && WellFormed(Encode(t)) && |Encode(t)| == EncodedSize(t)
  {
    hide EncodePoint, HeadPoint, PartSize, Whole, Announced;
    if t == [] {
    } else {
      var b := Encode(t);
      HeadOfEncoded(t[0], Encode(t[1..]));
      DecodeEncode(t[1..]);
      WholeIsAnnounced(b);
      assert t == [t[0]] + t[1..];
    }
  }

  lemma WholeIsAnnounced(b: Bytes)
    requires b != [] && Whole(b)
    ensures Announced(b[0]) > 0
  {
  }

  lemma TwoBytes(x: Byte, y: Byte)
    requires Announced(x) == 2 && Follows(x, y)
    ensures var p := Shift(x as int - 0xC0, y);
            0x80 <= p < 0x800 && EncodePoint(p) == [x, y]
  {
    ShiftSplit(x as int - 0xC0, y);
  }

  lemma ThreeBytes(x: Byte, y: Byte, z: Byte)
    requires Announced(x) == 3 && Follows(x, y) && Continues(z)
    ensures var p := Shift(Shift(x as int - 0xE0, y), z);
            0x800 <= p < 0x10000 && !Surrogate(p) && EncodePoint(p) == [x, y, z]
  {
    var q := Shift(x as int - 0xE0, y);
    ShiftSplit(x as int - 0xE0, y);
    ShiftSplit(q, z);
  }

  lemma FourBytes(x: Byte, y: Byte, z: Byte, w: Byte)
    requires Announced(x) == 4 && Follows(x, y) && Continues(z) && Continues(w)
    ensures var p := Shift(Shift(Shift(x as int - 0xF0, y), z), w);
            0x10000 <= p < 0x110000 && EncodePoint(p) == [x, y, z, w]
  {
    var r := Shift(x as int - 0xF0, y);
    var q := Shift(r, z);
    ShiftSplit(x as int - 0xF0, y);
    ShiftSplit(r, z);
    ShiftSplit(q, w);
  }

  lemma HeadOfWhole(b: Bytes)
    requires b != [] && Whole(b)
    ensures EncodePoint(HeadPoint(b)) == b[..PartSize(b)] && PointSize(HeadPoint(b)) == PartSize(b)
    ensures !Surrogate(HeadPoint(b))
  {
    hide Shift, EncodePoint;
    match PartSize(b)
    case 2 => TwoBytes(b[0], b[1]);
    case 3 => ThreeBytes(b[0], b[1], b[2]);
    case 4 => FourBytes(b[0], b[1], b[2], b[3]);
    case _ => OneByte(b[0]);
  }

  lemma OneByte(x: Byte)
    requires x < 0x80
    ensures EncodePoint(x) == [x]
  {
  }

  /** Encoding a decoded buffer never gives fewer bytes, and gives as many exactly when no replaced part was shorter
      than the three bytes of U+FFFD. */
  lemma {:induction false} ReencodedSize(b: Bytes)
    ensures EncodedSize(Decode(b)) >= |b|
    ensures EncodedSize(Decode(b)) == |b| <==> NoShortPart(b)
    decreases |b|
  {
    hide HeadPoint, PartSize, Whole, Announced;
    if b == [] {
    } else {
      ReencodedSize(b[PartSize(b)..]);
      HeadSize(b);
    }
  }

  /** No part that is replaced is shorter than three bytes. */
  predicate NoShortPart(b: Bytes)
    decreases |b|
  {
    b == [] || ((Whole(b) || PartSize(b) == 3) && NoShortPart(b[PartSize(b)..]))
  }

  lemma HeadSize(b: Bytes)
    requires b != []
    ensures PointSize(HeadPoint(b)) >= PartSize(b)
    ensures PointSize(HeadPoint(b)) == PartSize(b) <==> Whole(b) || PartSize(b) == 3
  {
    if Whole(b) { HeadOfWhole(b); }
  }

  // ---- cutting a buffer in two ----

  /** A part does not depend on what is cut off behind it; what is cut off inside it makes it shorter. */
  lemma PartOfPrefix(b: Bytes, k: nat)
    requires 0 < k <= |b|
    ensures PartSize(b[..k]) == Min(k, PartSize(b))
    ensures if PartSize(b) <= k then (Whole(b[..k]) <==> Whole(b)) && HeadPoint(b[..k]) == HeadPoint(b)
      else !Whole(b[..k])
  {
  }

  lemma PartContinues(b: Bytes, k: nat)
    requires b != [] && 0 < k < PartSize(b)
    ensures Continues(b[k])
  {
  }

  lemma DecodeStep(b: Bytes)
    requires b != []
    ensures Decode(b) == [HeadPoint(b)] + Decode(b[PartSize(b)..])
  {
  }

  /** A newline is decoded as such wherever it stands, in any buffer. */
  lemma {:induction false} DecodeAtNewline(b: Bytes, i: nat)
    requires i < |b| && b[i] == 10
    ensures Decode(b) == Decode(b[..i + 1]) + Decode(b[i + 1..])
    ensures Decode(b[..i + 1]) == Decode(b[..i]) + [10]
    decreases |b|
  {
    hide HeadPoint, PartSize, Decode, Whole;
    if i == 0 {
      NewlineHead(b);
      DecodeStep(b);
      assert b[..1] == [10] && b[..0] == [];
      DecodeNewline();
    } else {
      var n := PartSize(b);
      if i < n { PartContinues(b, i); }
      DecodeStep(b);
      CutStep(b, i + 1);
      CutStep(b, i);
      DecodeAtNewline(b[n..], i - n);
      assert b[n..][..i + 1 - n] == b[..i + 1][n..] && b[n..][i + 1 - n..] == b[i + 1..];
      assert b[n..][..i - n] == b[..i][n..];
    }
  }

  lemma NewlineHead(b: Bytes)
    requires b != [] && b[0] == 10
    ensures PartSize(b) == 1 && HeadPoint(b) == 10
  {
  }

  lemma DecodeNewline()
    ensures Decode([10]) == [10] && Decode([]) == []
  {
    NewlineHead([10]);
    assert [10][1..] == [];
  }

  /** The first character of a prefix that holds it. */
  lemma CutStep(b: Bytes, k: nat)
    requires b != [] && PartSize(b) <= k <= |b|
    ensures Decode(b[..k]) == [HeadPoint(b)] + Decode(b[PartSize(b)..][..k - PartSize(b)])
    ensures (Announced(b[0]) > 0 && (Whole(b) || PartSize(b) == |b|) && WellFormed(b[PartSize(b)..][..k - PartSize(b)]))
            ==> WellFormed(b[..k])
  {
    hide HeadPoint, Announced;
    var n := PartSize(b);
    PartOfPrefix(b, k);
    assert b[..k][n..] == b[n..][..k - n] && b[..k][0] == b[0];
  }

  lemma {:induction false} Strays(b: Bytes, k: nat)
    requires k <= |b| && forall i :: 0 <= i < k ==> Continues(b[i])
    ensures |Decode(b)| == k + |Decode(b[k..])|
    decreases k
  {
    hide Decode;
    if k == 0 {
      assert b[0..] == b;
    } else {
      StrayHead(b);
      Strays(b[1..], k - 1);
      assert b[1..][k - 1..] == b[k..];
    }
  }

  /** A stray byte from the middle of a character is replaced by itself. */
  lemma StrayHead(b: Bytes)
    requires b != [] && Continues(b[0])
    ensures Decode(b) == [REPLACEMENT] + Decode(b[1..])
  {
    hide Decode;
    DecodeStep(b);
  }

  lemma WellFormedStep(b: Bytes)
    requires WellFormed(b) && b != []
    ensures Announced(b[0]) > 0 && (Whole(b) || PartSize(b) == |b|) && WellFormed(b[PartSize(b)..])
  {
  }

  lemma EmptyIsWellFormed()
    ensures WellFormed([]) && Decode([]) == []
  {
  }

  /** Well-formed text cut between two characters: both sides are well formed and decode to the two sides of the
      text. */
  lemma {:induction false} CutBetween(b: Bytes, i: nat)
    requires WellFormed(b) && PointBoundary(b, i)
    ensures Decode(b) == Decode(b[..i]) + Decode(b[i..]) && WellFormed(b[..i]) && WellFormed(b[i..])
    decreases |b|
  {
    hide HeadPoint, PartSize, Decode, Whole, WellFormed, Announced;
    EmptyIsWellFormed();
    if i == 0 {
      assert b[..0] == [] && b[0..] == b && [] + Decode(b) == Decode(b);
    } else {
      var n := PartSize(b);
      WellFormedStep(b);
      if i < n { PartContinues(b, i); }
      CutBetween(b[n..], i - n);
      DecodeStep(b);
      CutStep(b, i);
      assert b[n..][i - n..] == b[i..];
    }
  }

  /** Well-formed text cut inside a character: the pieces decode to more characters than the text has. */
  lemma {:induction false} CutInside(b: Bytes, i: nat)
    requires WellFormed(b) && i < |b| && !PointBoundary(b, i)
    ensures |Decode(b[..i])| + |Decode(b[i..])| > |Decode(b)| && WellFormed(b[..i])
    decreases |b|
  {
    hide HeadPoint, PartSize, Decode, Whole, WellFormed, Announced;
    var n := PartSize(b);
    WellFormedStep(b);
    if i == 0 { FirstAnnounces(b[0]); }
    DecodeStep(b);
    if i < n {
      PartCut(b, i);
      forall k | 0 <= k < n - i ensures Continues(b[i..][k]) { PartContinues(b, i + k); }
      Strays(b[i..], n - i);
      assert b[i..][n - i..] == b[n..];
    } else {
      CutInside(b[n..], i - n);
      CutStep(b, i);
      assert b[n..][i - n..] == b[i..];
    }
  }

  lemma FirstAnnounces(x: Byte)
    requires Announced(x) > 0
    ensures !Continues(x)
  {
  }

  /** A character cut off in its middle is one replacement. */
  lemma PartCut(b: Bytes, i: nat)
    requires b != [] && 0 < i < PartSize(b)
    ensures Decode(b[..i]) == [REPLACEMENT] && WellFormed(b[..i])
  {
    PartOfPrefix(b, i);
    assert b[..i][i..] == [];
  }

  /** The front of well-formed text is well formed. */
  lemma PrefixIsWellFormed(b: Bytes, i: nat)
    requires WellFormed(b) && i <= |b|
    ensures WellFormed(b[..i])
  {
    if PointBoundary(b, i) { CutBetween(b, i); } else { CutInside(b, i); }
  }

  /** A cut between two characters does no harm to a piece that starts anywhere before it. */
  lemma {:induction false} CutBehind(b: Bytes, p: nat, i: nat)
    requires WellFormed(b) && p <= i && PointBoundary(b, i)
    ensures Decode(b[p..]) == Decode(b[p..i]) + Decode(b[i..])
    decreases i - p
  {
    hide Decode, WellFormed;
    if PointBoundary(b, p) {
      CutBetween(b, p);
      CutBetween(b[p..], i - p);
      assert b[p..][..i - p] == b[p..i] && b[p..][i - p..] == b[i..];
    } else {
      StrayHead(b[p..]);
      StrayHead(b[p..i]);
      assert b[p..][1..] == b[p + 1..] && b[p..i][1..] == b[p + 1..i];
      CutBehind(b, p + 1, i);
    }
  }

  /** Only the byte of a newline is decoded as one. */
  lemma {:induction false} NoNewlineDecoded(b: Bytes)
    requires forall i :: 0 <= i < |b| ==> b[i] != 10
    ensures forall i :: 0 <= i < |Decode(b)| ==> Decode(b)[i] != 10
    decreases |b|
  {
    hide HeadPoint, PartSize, EncodePoint;
    if b == [] {
    } else {
      HeadNotNewline(b);
      NoNewlineDecoded(b[PartSize(b)..]);
    }
  }

  lemma HeadNotNewline(b: Bytes)
    requires b != [] && b[0] != 10
    ensures HeadPoint(b) != 10
  {
    hide HeadPoint, PartSize, EncodePoint;
    if Whole(b) {
      HeadOfWhole(b);
      OneByte(10);
    } else {
      ReplacedHead(b);
    }
  }

  lemma ReplacedHead(b: Bytes)
    requires b != [] && !Whole(b)
    ensures HeadPoint(b) == REPLACEMENT
  {
  }
}
