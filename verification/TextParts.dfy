/**
 * UTF-8 as the standards define it: the bytes of a code point (RFC 3629, section 3), and the maximal part of an
 * ill-formed sequence (section 3.9 of the Unicode Standard).
 */
module TextParts {
  import opened Wrappers
  import opened TextEncoding

  /** The six bits of a byte that is not the first, or none. */
  function Six(x: Byte): Option<nat> {
    if 0x80 <= x < 0xC0 then Some(x - 0x80) else None
  }

  /** The number that a first byte with its mark taken off and the bytes behind it spell, if they do. */
  function Spelled(high: int, rest: Bytes): Option<int>
    decreases |rest|
  {
    if rest == [] then Some(high)
    else if Six(rest[0]).None? then None
    else Spelled(high * 64 + Six(rest[0]).value, rest[1..])
  }

  /** The bytes of a code point carry its bits, six in every byte but the first. */
  lemma EncodedExactly(p: Point)
    ensures var e := EncodePoint(p);
            && (p < 0x80 ==> e == [p])
            && (0x80 <= p < 0x800 ==> |e| == 2 && 0xC2 <= e[0] && Spelled(e[0] as int - 0xC0, e[1..]) == Some(p))
            && (0x800 <= p < 0x10000 ==> |e| == 3 && 0xE0 <= e[0] && Spelled(e[0] as int - 0xE0, e[1..]) == Some(p))
            && (0x10000 <= p ==> |e| == 4 && 0xF0 <= e[0] && Spelled(e[0] as int - 0xF0, e[1..]) == Some(p))
  {
    var e, q := EncodePoint(p), p / 64;
    var r := q / 64;
    assert p == q * 64 + p % 64 && q == r * 64 + q % 64 && r == (r / 64) * 64 + r % 64;
    if |e| == 2 {
      SpelledStep(q, e[1..], p % 64);
    } else if |e| == 3 {
      SpelledStep(q, e[1..][1..], p % 64);
      SpelledStep(r, e[1..], q % 64);
    } else if |e| == 4 {
      SpelledStep(q, e[1..][1..][1..], p % 64);
      SpelledStep(r, e[1..][1..], q % 64);
      SpelledStep(r / 64, e[1..], r % 64);
    }
  }

  lemma SpelledStep(high: int, rest: Bytes, bits: nat)
    requires rest != [] && bits < 64 && rest[0] as int == 0x80 + bits
    ensures Spelled(high, rest) == Spelled(high * 64 + bits, rest[1..])
  {
  }

  /** The bytes begin the encoding of some character, or are all of it. */
  ghost predicate Begins(b: Bytes) {
    exists p: Point :: !Surrogate(p) && b <= EncodePoint(p)
  }

  /** The part taken at the head of a buffer is the longest that begins a character; where not even the first byte does,
      that byte is taken alone. */
  lemma PartExactly(b: Bytes, n: nat)
    requires 1 <= n <= |b|
    ensures Begins(b[..n]) <==> n <= PartSize(b) && Announced(b[0]) > 0
    ensures !Begins(b[..1]) ==> PartSize(b) == 1 && !Whole(b)
  {
    forall m: nat | 1 <= m <= |b| ensures Begins(b[..m]) <==> m <= PartSize(b) && Announced(b[0]) > 0 {
      if m <= PartSize(b) && Announced(b[0]) > 0 { PartBegins(b, m); }
      if Begins(b[..m]) { BegunIsPart(b, m); }
    }
  }

  /** The byte that fills the next place of a character in the making. */
  function Filler(b: Bytes): Byte
    requires b != []
  {
    if |b| > 1 then 0x80 else if b[0] == 0xE0 then 0xA0 else if b[0] == 0xF0 then 0x90 else 0x80
  }

  lemma {:induction false} PartBegins(b: Bytes, m: nat)
    requires 1 <= m <= |b| && m <= PartSize(b) && Announced(b[0]) > 0
    ensures Begins(b[..m])
  {
    PartOfPrefix(b, m);
    UnfinishedBegins(b[..m]);
  }

  lemma {:induction false} UnfinishedBegins(b: Bytes)
    requires b != [] && PartSize(b) == |b| && Announced(b[0]) > 0
    ensures Begins(b)
    decreases 4 - |b|
  {
    if |b| >= Announced(b[0]) {
      HeadOfWhole(b);
      assert b[..|b|] == b;
    } else {
      var longer := b + [Filler(b)];
      FilledPart(b);
      UnfinishedBegins(longer);
      var p: Point :| !Surrogate(p) && longer <= EncodePoint(p);
      assert b <= longer;
    }
  }

  lemma FilledPart(b: Bytes)
    requires b != [] && PartSize(b) == |b| < Announced(b[0])
    ensures var longer := b + [Filler(b)]; longer[0] == b[0] && PartSize(longer) == |longer|
  {
  }

  lemma BegunIsPart(b: Bytes, m: nat)
    requires 1 <= m <= |b| && Begins(b[..m])
    ensures m <= PartSize(b) && Announced(b[0]) > 0
  {
    var p: Point :| !Surrogate(p) && b[..m] <= EncodePoint(p);
    var e := EncodePoint(p);
    HeadOfEncoded(p, []);
    WholeIsAnnounced(e + []);
    assert e + [] == e;
    PartOfPrefix(e, m);
    PartOfPrefix(b, m);
    assert e[..m] == b[..m];
    hide EncodePoint, HeadPoint, PartSize, Whole, Announced, Surrogate;
    assert b[0] == b[..m][0] == e[0];
  }
}
