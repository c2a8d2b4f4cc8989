/**
 * The duplicate-name scanner for JSON text (backend/machine-connector.ts).
 *
 * A text is a sequence of UTF-16 code units. The scanner moves one shared index through the
 * text and fails at the first object that repeats a name. It is compared with the concrete
 * syntax of section 2 to section 7 of RFC 8259, with all whitespace and escapes spelled out.
 */
module JsonScanner {
  import opened Wrappers

  type Unit = u: int | 0 <= u < 0x10000
  type Text = seq<Unit>

  const QUOTE: Unit := 34
  const COMMA: Unit := 44
  const COLON: Unit := 58
  const LBRACKET: Unit := 91
  const BACKSLASH: Unit := 92
  const RBRACKET: Unit := 93
  const LBRACE: Unit := 123
  const RBRACE: Unit := 125

  /** The whitespace class of a regular expression, wider than that of JSON. */
  predicate IsSpace(u: Unit) {
    9 <= u <= 13 || u == 32 || u == 160 || u == 0x1680 || 0x2000 <= u <= 0x200A || u == 0x2028 || u == 0x2029 ||
    u == 0x202F || u == 0x205F || u == 0x3000 || u == 0xFEFF
  }

  predicate At(t: Text, i: nat, u: Unit) {
    i < |t| && t[i] == u
  }

  predicate EndsAtom(u: Unit) {
    IsSpace(u) || u == COMMA || u == RBRACE || u == RBRACKET
  }

  // ---- decoding a string token ----

  predicate IsHex(u: Unit) {
    48 <= u <= 57 || 65 <= u <= 70 || 97 <= u <= 102
  }

  function HexValue(u: Unit): (v: nat)
    requires IsHex(u)
    ensures v < 16
  {
    if u <= 57 then u - 48 else if u <= 70 then u - 55 else u - 87
  }

  function HexUnit(a: Unit, b: Unit, c: Unit, d: Unit): Unit
    requires IsHex(a) && IsHex(b) && IsHex(c) && IsHex(d)
  {
    HexValue(a) * 4096 + HexValue(b) * 256 + HexValue(c) * 16 + HexValue(d)
  }

  /** The two-character escapes. */
  function ShortEscape(c: Unit): Option<Unit> {
    if c == QUOTE || c == BACKSLASH || c == 47 then Some(c)
    else if c == 98 then Some(8)
    else if c == 102 then Some(12)
    else if c == 110 then Some(10)
    else if c == 114 then Some(13)
    else if c == 116 then Some(9)
    else None
  }

  /** What JSON.parse makes of the string token `s` from position `k` on; None when it throws. */
  function DecodeFrom(s: Text, k: nat): Option<Text>
    requires k <= |s|
    decreases |s| - k
  {
    if k == |s| then None
    else if s[k] == QUOTE then if k + 1 == |s| then Some([]) else None
    else if s[k] < 32 then None
    else if s[k] != BACKSLASH then Prepend(s[k], DecodeFrom(s, k + 1))
    else if k + 1 == |s| then None
    else if s[k + 1] == 117 then
      if k + 5 < |s| && IsHex(s[k + 2]) && IsHex(s[k + 3]) && IsHex(s[k + 4]) && IsHex(s[k + 5])
      then Prepend(HexUnit(s[k + 2], s[k + 3], s[k + 4], s[k + 5]), DecodeFrom(s, k + 6)) else None
    else match ShortEscape(s[k + 1])
      case None => None
      case Some(u) => Prepend(u, DecodeFrom(s, k + 2))
  }

  function Prepend(u: Unit, rest: Option<Text>): Option<Text> {
    if rest.None? then None else Some([u] + rest.value)
  }

  function ParseString(s: Text): Option<Text> {
    if s == [] || s[0] != QUOTE then None else DecodeFrom(s, 1)
  }

  // ---- the scanner as functions of text and index; None where it throws ----

  function SkipSpace(t: Text, i: nat): (j: nat)
    requires i <= |t|
    ensures i <= j <= |t|
    decreases |t| - i
  {
    if i < |t| && IsSpace(t[i]) then SkipSpace(t, i + 1) else i
  }

  /** The position after the closing quote. */
  function StringEnd(t: Text, j: nat): (r: Option<nat>)
    ensures r.Some? ==> j < r.value <= |t|
    decreases |t| - j
  {
    if j >= |t| then None
    else if t[j] == BACKSLASH then StringEnd(t, j + 2)
    else if t[j] == QUOTE then Some(j + 1)
    else StringEnd(t, j + 1)
  }

  /** A string token that starts at `i`, with the position after it. */
  function ScanString(t: Text, i: nat): (r: Option<(nat, Text)>)
    requires i <= |t|
    ensures r.Some? ==> i < r.value.0 <= |t|
  {
    match StringEnd(t, i + 1)
    case None => None
    case Some(end) =>
      match ParseString(t[i..end])
      case None => None
      case Some(s) => Some((end, s))
  }

  function SkipAtom(t: Text, i: nat): (j: nat)
    requires i <= |t|
    ensures i <= j <= |t|
    decreases |t| - i
  {
    if i < |t| && !EndsAtom(t[i]) then SkipAtom(t, i + 1) else i
  }

  function ScanValue(t: Text, i0: nat): (r: Option<nat>)
    requires i0 <= |t|
    ensures r.Some? ==> i0 <= r.value <= |t|
    decreases |t| - i0, 0
  {
    var i := SkipSpace(t, i0);
    if At(t, i, LBRACE) then ScanMembers(t, SkipSpace(t, i + 1), {})
    else if At(t, i, LBRACKET) then ScanElements(t, SkipSpace(t, i + 1))
    else if At(t, i, QUOTE) then var s := ScanString(t, i); if s.Some? then Some(s.value.0) else None
    else Some(SkipAtom(t, i))
  }

  function ScanMembers(t: Text, i: nat, keys: set<Text>): (r: Option<nat>)
    requires i <= |t|
    ensures r.Some? ==> i <= r.value <= |t|
    decreases |t| - i, 1
  {
    if At(t, i, RBRACE) then Some(i + 1)
    else match ScanString(t, SkipSpace(t, i))
      case None => None
      case Some((k, name)) =>
        if name in keys || !At(t, SkipSpace(t, k), COLON) then None
        else match ScanValue(t, SkipSpace(t, k) + 1)
          case None => None
          case Some(m) =>
            var m2 := SkipSpace(t, m);
            if At(t, m2, COMMA) then ScanMembers(t, m2 + 1, keys + {name})
            else if At(t, m2, RBRACE) then Some(m2 + 1) else None
  }

  function ScanElements(t: Text, i: nat): (r: Option<nat>)
    requires i <= |t|
    ensures r.Some? ==> i <= r.value <= |t|
    decreases |t| - i, 1
  {
    if At(t, i, RBRACKET) then Some(i + 1)
    else match ScanValue(t, i)
      case None => None
      case Some(m) =>
        var m2 := SkipSpace(t, m);
        if At(t, m2, COMMA) then ScanElements(t, m2 + 1)
        else if At(t, m2, RBRACKET) then Some(m2 + 1) else None
  }

  // ---- the scanner with its shared index ----

  class Scanner {
    const text: Text
    var i: nat

    constructor (text: Text)
      ensures this.text == text && i == 0
    {
      this.text, i := text, 0;
    }

    method Space()
      requires i <= |text|
      modifies this
      ensures i == SkipSpace(text, old(i))
    {
      while i < |text| && IsSpace(text[i])
        invariant i <= |text| && SkipSpace(text, i) == SkipSpace(text, old(i))
      {
        i := i + 1;
      }
    }

    method String() returns (r: Option<Text>)
      requires i <= |text|
      modifies this
      ensures match ScanString(text, old(i)) case None => r.None? case Some((end, s)) => r == Some(s) && i == end
    {
      var start := i;
      i := i + 1;
      while i < |text|
        invariant StringEnd(text, i) == StringEnd(text, start + 1)
        decreases |text| - i
      {
        if text[i] == BACKSLASH {
          i := i + 2;
          continue;
        }
        i := i + 1;
        if text[i - 1] == QUOTE { return ParseString(text[start..i]); }
      }
      return None;
    }

    method Value() returns (ok: bool)
      requires i <= |text|
      modifies this
      ensures match ScanValue(text, old(i)) case None => !ok case Some(end) => ok && i == end
      decreases |text| - i, 0
    {
      Space();
      if At(text, i, LBRACE) {
        i := i + 1;
        Space();
        ok := Members();
      } else if At(text, i, LBRACKET) {
        i := i + 1;
        Space();
        ok := Elements();
      } else if At(text, i, QUOTE) {
        var s := String();
        ok := s.Some?;
      } else {
        ghost var start := i;
        while i < |text| && !EndsAtom(text[i])
          invariant i <= |text| && SkipAtom(text, i) == SkipAtom(text, start)
        {
          i := i + 1;
        }
        ok := true;
      }
    }

    method Members() returns (ok: bool)
      requires i <= |text|
      modifies this
      ensures match ScanMembers(text, old(i), {}) case None => !ok case Some(end) => ok && i == end
      decreases |text| - i, 1
    {
      hide SkipSpace, ScanString, ScanValue;
      var keys: set<Text> := {};
      while !At(text, i, RBRACE)
        invariant old(i) <= i <= |text|
        invariant ScanMembers(text, i, keys) == ScanMembers(text, old(i), {})
        decreases |text| - i
      {
        Space();
        var key := String();
        if key.None? || key.value in keys { return false; }
        Space();
        if !At(text, i, COLON) { return false; }
        i := i + 1;
        var ok := Value();
        if !ok { return false; }
        Space();
        if !At(text, i, COMMA) {
          i := i + 1;
          return At(text, i - 1, RBRACE);
        }
        keys := keys + {key.value};
        i := i + 1;
      }
      i := i + 1;
      return true;
    }

    method Elements() returns (ok: bool)
      requires i <= |text|
      modifies this
      ensures match ScanElements(text, old(i)) case None => !ok case Some(end) => ok && i == end
      decreases |text| - i, 1
    {
      while !At(text, i, RBRACKET)
        invariant old(i) <= i <= |text|
        invariant ScanElements(text, i) == ScanElements(text, old(i))
        decreases |text| - i
      {
        var ok := Value();
        if !ok { return false; }
        Space();
        if !At(text, i, COMMA) {
          i := i + 1;
          return At(text, i - 1, RBRACKET);
        }
        i := i + 1;
      }
      i := i + 1;
      return true;
    }
  }

  function NoDuplicates(t: Text): bool {
    var end := ScanValue(t, 0);
    end.Some? && SkipSpace(t, end.value) == |t|
  }

  method NoDuplicateKeys(text: Text) returns (ok: bool)
    ensures ok == NoDuplicates(text)
  {
    var s := new Scanner(text);
    ok := s.Value();
    if ok {
      s.Space();
      ok := s.i == |text|;
    }
  }

  // ---- the concrete syntax of JSON ----

  /** One character of a string token: itself, a two-character escape, or four hexadecimal digits. */
  datatype StrChar = Plain(u: Unit) | Short(c: Unit) | Hex(a: Unit, b: Unit, c: Unit, d: Unit)

  /** A value with its whitespace. An atom is a number or a literal name. */
  datatype Json =
    | Atom(text: Text)
    | Str(chars: seq<StrChar>)
    | Arr(pad: Text, elements: Elements)
    | Obj(pad: Text, members: Members)

  datatype Elements = NoElements | Element(before: Text, value: Json, after: Text, rest: Elements)

  datatype Members =
    | NoMembers
    | Member(before: Text, name: seq<StrChar>, between: Text, space: Text, value: Json, after: Text, rest: Members)

  predicate JsonSpace(s: Text) {
    forall i :: 0 <= i < |s| ==> s[i] == 32 || s[i] == 9 || s[i] == 10 || s[i] == 13
  }

  predicate OkChar(c: StrChar) {
    match c
    case Plain(u) => u >= 32 && u != QUOTE && u != BACKSLASH
    case Short(e) => ShortEscape(e).Some?
    case Hex(a, b, c, d) => IsHex(a) && IsHex(b) && IsHex(c) && IsHex(d)
  }

  predicate OkChars(cs: seq<StrChar>) {
    forall i :: 0 <= i < |cs| ==> OkChar(cs[i])
  }

  predicate OkAtom(s: Text) {
    s != [] && s[0] != QUOTE && s[0] != LBRACE && s[0] != LBRACKET && forall i :: 0 <= i < |s| ==> !EndsAtom(s[i])
  }

  predicate OkValue(v: Json) {
    match v
    case Atom(s) => OkAtom(s)
    case Str(cs) => OkChars(cs)
    case Arr(pad, es) => JsonSpace(pad) && OkElements(es)
    case Obj(pad, ms) => JsonSpace(pad) && OkMembers(ms)
  }

  predicate OkElements(es: Elements) {
    es.NoElements? || (JsonSpace(es.before) && OkValue(es.value) && JsonSpace(es.after) && OkElements(es.rest))
  }

  predicate OkMembers(ms: Members) {
    ms.NoMembers? ||
    (JsonSpace(ms.before) && OkChars(ms.name) && JsonSpace(ms.between) && JsonSpace(ms.space) && OkValue(ms.value) &&
     JsonSpace(ms.after) && OkMembers(ms.rest))
  }

  // ---- its text ----

  function PrintChar(c: StrChar): Text {
    match c
    case Plain(u) => [u]
    case Short(e) => [BACKSLASH, e]
    case Hex(a, b, c, d) => [BACKSLASH, 117, a, b, c, d]
  }

  function PrintChars(cs: seq<StrChar>): Text {
    if cs == [] then [] else PrintChar(cs[0]) + PrintChars(cs[1..])
  }

  function PrintString(cs: seq<StrChar>): Text {
    [QUOTE] + (PrintChars(cs) + [QUOTE])
  }

  function Print(v: Json): Text {
    match v
    case Atom(s) => s
    case Str(cs) => PrintString(cs)
    case Arr(pad, es) => [LBRACKET] + ((if es.NoElements? then pad else PrintElements(es)) + [RBRACKET])
    case Obj(pad, ms) => [LBRACE] + ((if ms.NoMembers? then pad else PrintMembers(ms)) + [RBRACE])
  }

  function PrintElements(es: Elements): Text
    requires es.Element?
  {
    es.before + (Print(es.value) + (es.after + (if es.rest.NoElements? then [] else [COMMA] + PrintElements(es.rest))))
  }

  function PrintMembers(ms: Members): Text
    requires ms.Member?
  {
    ms.before + (PrintString(ms.name) + (ms.between + ([COLON] + (ms.space + (Print(ms.value) + (ms.after +
      (if ms.rest.NoMembers? then [] else [COMMA] + PrintMembers(ms.rest))))))))
  }

  // ---- its meaning ----

  function CharValue(c: StrChar): Unit
    requires OkChar(c)
  {
    match c
    case Plain(u) => u
    case Short(e) => ShortEscape(e).value
    case Hex(a, b, c, d) => HexUnit(a, b, c, d)
  }

  function Decoded(cs: seq<StrChar>): Text
    requires OkChars(cs)
  {
    if cs == [] then [] else [CharValue(cs[0])] + Decoded(cs[1..])
  }

  function Names(ms: Members): seq<Text>
    requires OkMembers(ms)
  {
    if ms.NoMembers? then [] else [Decoded(ms.name)] + Names(ms.rest)
  }

  predicate Distinct(names: seq<Text>) {
    forall i, j :: 0 <= i < j < |names| ==> names[i] != names[j]
  }

  /** No object of the value, at any depth, repeats a decoded name. */
  predicate UniqueNames(v: Json)
    requires OkValue(v)
  {
    match v
    case Atom(_) => true
    case Str(_) => true
    case Arr(_, es) => UniqueElements(es)
    case Obj(_, ms) => Distinct(Names(ms)) && UniqueMembers(ms)
  }

  predicate UniqueElements(es: Elements)
    requires OkElements(es)
  {
    es.NoElements? || (UniqueNames(es.value) && UniqueElements(es.rest))
  }

  predicate UniqueMembers(ms: Members)
    requires OkMembers(ms)
  {
    ms.NoMembers? || (UniqueNames(ms.value) && UniqueMembers(ms.rest))
  }

  // ---- the scanner on printed text ----

  predicate Has(t: Text, i: nat, s: Text) {
    i + |s| <= |t| && t[i..i + |s|] == s
  }

  lemma HasConcat(t: Text, i: nat, a: Text, b: Text)
    ensures Has(t, i, a + b) <==> Has(t, i, a) && Has(t, i + |a|, b)
  {
    if Has(t, i, a + b) {
      assert t[i..i + |a|] == t[i..i + |a + b|][..|a|] == (a + b)[..|a|] == a;
      assert t[i + |a|..i + |a| + |b|] == t[i..i + |a + b|][|a|..] == (a + b)[|a|..] == b;
    }
    if Has(t, i, a) && Has(t, i + |a|, b) {
      assert t[i..i + |a + b|] == t[i..i + |a|] + t[i + |a|..i + |a| + |b|];
    }
  }

  lemma HasAt(t: Text, i: nat, s: Text, k: nat)
    requires Has(t, i, s) && k < |s|
    ensures i + k < |t| && t[i + k] == s[k]
  {
    assert t[i..i + |s|][k] == s[k];
  }

  lemma {:induction false} SkipsSpace(t: Text, i: nat, ws: Text)
    requires Has(t, i, ws) && JsonSpace(ws) && (i + |ws| == |t| || !IsSpace(t[i + |ws|]))
    ensures SkipSpace(t, i) == i + |ws|
    decreases |ws|
  {
    if ws == [] {
    } else {
      HasAt(t, i, ws, 0);
      assert ws == [ws[0]] + ws[1..];
      HasConcat(t, i, [ws[0]], ws[1..]);
      SkipsSpace(t, i + 1, ws[1..]);
    }
  }

  lemma PlainStep(t: Text, j: nat)
    requires j < |t| && t[j] != QUOTE && t[j] != BACKSLASH
    ensures StringEnd(t, j) == StringEnd(t, j + 1)
  {
  }

  lemma CharStep(t: Text, j: nat, c: StrChar)
    requires OkChar(c) && Has(t, j, PrintChar(c))
    ensures StringEnd(t, j) == StringEnd(t, j + |PrintChar(c)|)
  {
    hide StringEnd;
    var p := PrintChar(c);
    forall k | 0 <= k < |p| ensures j + k < |t| && t[j + k] == p[k] { HasAt(t, j, p, k); }
    match c
    case Plain(u) => PlainStep(t, j);
    case Short(e) => EscapeStep(t, j);
    case Hex(a, b, c', d) =>
      EscapeStep(t, j);
      assert t[j + 2] == a && t[j + 3] == b && t[j + 4] == c' && t[j + 5] == d;
      PlainStep(t, j + 2);
      PlainStep(t, j + 3);
      PlainStep(t, j + 4);
      PlainStep(t, j + 5);
  }

  lemma EscapeStep(t: Text, j: nat)
    requires j < |t| && t[j] == BACKSLASH
    ensures StringEnd(t, j) == StringEnd(t, j + 2)
  {
  }

  lemma {:induction false} FindsStringEnd(t: Text, j: nat, cs: seq<StrChar>)
    requires OkChars(cs) && Has(t, j, PrintChars(cs) + [QUOTE])
    ensures StringEnd(t, j) == Some(j + |PrintChars(cs)| + 1)
    decreases |cs|
  {
    hide PrintChar;
    if cs == [] {
      HasAt(t, j, PrintChars(cs) + [QUOTE], 0);
    } else {
      var c, rest := PrintChar(cs[0]), PrintChars(cs[1..]);
      assert PrintChars(cs) + [QUOTE] == c + (rest + [QUOTE]);
      HasConcat(t, j, c, rest + [QUOTE]);
      CharStep(t, j, cs[0]);
      FindsStringEnd(t, j + |c|, cs[1..]);
    }
  }

  lemma NotHexEscape(e: Unit)
    requires ShortEscape(e).Some?
    ensures e != 117
  {
  }

  lemma DecodeStep(s: Text, k: nat, c: StrChar)
    requires OkChar(c) && Has(s, k, PrintChar(c)) && k + |PrintChar(c)| < |s|
    ensures DecodeFrom(s, k) == Prepend(CharValue(c), DecodeFrom(s, k + |PrintChar(c)|))
  {
    hide Has, IsHex, HexUnit, ShortEscape;
    var p := PrintChar(c);
    HasAt(s, k, p, 0);
    if !c.Plain? { HasAt(s, k, p, 1); }
    match c
    case Plain(u) =>
    case Short(e) => NotHexEscape(e);
    case Hex(a, b, c', d) =>
      HasAt(s, k, p, 2);
      HasAt(s, k, p, 3);
      HasAt(s, k, p, 4);
      HasAt(s, k, p, 5);
  }

  lemma {:induction false} DecodesChars(s: Text, k: nat, cs: seq<StrChar>)
    requires OkChars(cs) && Has(s, k, PrintChars(cs) + [QUOTE]) && k + |PrintChars(cs)| + 1 == |s|
    ensures DecodeFrom(s, k) == Some(Decoded(cs))
    decreases |cs|
  {
    hide PrintChar, CharValue;
    if cs == [] {
      HasAt(s, k, PrintChars(cs) + [QUOTE], 0);
    } else {
      var c, rest := PrintChar(cs[0]), PrintChars(cs[1..]);
      assert PrintChars(cs) + [QUOTE] == c + (rest + [QUOTE]);
      HasConcat(s, k, c, rest + [QUOTE]);
      DecodeStep(s, k, cs[0]);
      DecodesChars(s, k + |c|, cs[1..]);
    }
  }

  /** A printed string token is scanned to its end and decoded to its value. */
  lemma ScansString(t: Text, i: nat, cs: seq<StrChar>)
    requires OkChars(cs) && Has(t, i, PrintString(cs))
    ensures i < |t| && t[i] == QUOTE && ScanString(t, i) == Some((i + |PrintString(cs)|, Decoded(cs)))
  {
    hide PrintChars, Decoded, OkChars;
    var body := PrintChars(cs) + [QUOTE];
    HasConcat(t, i, [QUOTE], body);
    HasAt(t, i, [QUOTE], 0);
    FindsStringEnd(t, i + 1, cs);
    var s := t[i..i + |PrintString(cs)|];
    assert s == PrintString(cs);
    HasConcat(s, 0, [QUOTE], body);
    assert s[0..|s|] == s;
    DecodesChars(s, 1, cs);
  }

  lemma {:induction false} SkipsAtom(t: Text, i: nat, s: Text)
    requires Has(t, i, s) && (forall k :: 0 <= k < |s| ==> !EndsAtom(s[k])) && (i + |s| == |t| || EndsAtom(t[i + |s|]))
    ensures SkipAtom(t, i) == i + |s|
    decreases |s|
  {
    if s == [] {
    } else {
      HasAt(t, i, s, 0);
      assert s == [s[0]] + s[1..];
      HasConcat(t, i, [s[0]], s[1..]);
      SkipsAtom(t, i + 1, s[1..]);
    }
  }

  // ---- whole values ----

  /** What may follow a value: the end of the text, whitespace, or a separator. */
  predicate Stops(t: Text, i: nat) {
    i == |t| || (i < |t| && EndsAtom(t[i]))
  }

  /** Whitespace before a value, a name or a separator is skipped by the scanner. */
  lemma SpaceBefore(t: Text, i: nat, ws: Text, rest: Text)
    requires JsonSpace(ws) && Has(t, i, ws + rest) && rest != [] && !IsSpace(rest[0])
    ensures SkipSpace(t, i) == i + |ws| && Has(t, i + |ws|, rest) && At(t, i + |ws|, rest[0])
    ensures forall u :: At(t, i, u) ==> IsSpace(u) || (ws == [] && u == rest[0])
  {
    HasConcat(t, i, ws, rest);
    HasAt(t, i + |ws|, rest, 0);
    SkipsSpace(t, i, ws);
    if ws != [] { HasAt(t, i, ws, 0); }
  }

  lemma PrintHead(v: Json)
    requires OkValue(v)
    ensures Print(v) != [] && !IsSpace(Print(v)[0]) && !EndsAtom(Print(v)[0])
  {
  }

  /** The scanner on a printed value: its end, or a failure if some object below repeats a name. */
  lemma {:induction false} ScansValue(t: Text, i: nat, v: Json)
    requires OkValue(v) && Has(t, i, Print(v)) && Stops(t, i + |Print(v)|)
    ensures ScanValue(t, i) == if UniqueNames(v) then Some(i + |Print(v)|) else None
    decreases v, 1
  {
    hide ScanString, ScanMembers, ScanElements, SkipAtom, UniqueElements, UniqueMembers, Names, EndsAtom;
    PrintHead(v);
    SpaceBefore(t, i, [], Print(v)) by { assert [] + Print(v) == Print(v); }
    match v
    case Atom(s) => SkipsAtom(t, i, s);
    case Str(cs) => ScansString(t, i, cs);
    case Arr(pad, es) => ScansArray(t, i, v);
    case Obj(pad, ms) => ScansObject(t, i, v);
  }

  lemma ScanValueSkips(t: Text, i: nat, j: nat)
    requires i <= |t| && j <= |t| && SkipSpace(t, i) == SkipSpace(t, j)
    ensures ScanValue(t, i) == ScanValue(t, j)
  {
  }

  /** A value followed by whitespace and a separator. */
  lemma ValueThenSpace(t: Text, i: nat, v: Json, after: Text, rest: Text)
    requires OkValue(v) && JsonSpace(after) && rest != [] && EndsAtom(rest[0]) && !IsSpace(rest[0])
    requires Has(t, i, Print(v) + (after + rest))
    ensures var m := i + |Print(v)|;
            && Has(t, i, Print(v)) && Stops(t, m) && m <= |t|
            && SkipSpace(t, m) == m + |after| && Has(t, m + |after|, rest) && At(t, m + |after|, rest[0])
  {
    hide Print, SkipSpace, OkValue, Has, IsSpace;
    var m := i + |Print(v)|;
    HasConcat(t, i, Print(v), after + rest);
    SpaceBefore(t, m, after, rest);
    HasAt(t, m, after + rest, 0);
    if after != [] {
      assert (after + rest)[0] == after[0];
      SpaceEndsAtom(after[0]);
    }
  }

  lemma OpensArray(t: Text, i: nat)
    requires At(t, i, LBRACKET)
    ensures ScanValue(t, i) == ScanElements(t, SkipSpace(t, i + 1))
  {
    hide ScanElements, ScanMembers;
  }

  lemma OpensObject(t: Text, i: nat)
    requires At(t, i, LBRACE)
    ensures ScanValue(t, i) == ScanMembers(t, SkipSpace(t, i + 1), {})
  {
    hide ScanElements, ScanMembers;
  }

  lemma ScansArray(t: Text, i: nat, v: Json)
    requires v.Arr? && OkValue(v) && Has(t, i, Print(v))
    ensures ScanValue(t, i) == if UniqueNames(v) then Some(i + |Print(v)|) else None
    decreases v, 0
  {
    hide ScanMembers, ScanValue, SkipSpace, Has, JsonSpace, PrintElements;
    var es := v.elements;
    var body := (if es.NoElements? then v.pad else PrintElements(es)) + [RBRACKET];
    HasConcat(t, i, [LBRACKET], body);
    HasAt(t, i, [LBRACKET], 0);
    OpensArray(t, i);
    if es.NoElements? {
      SpaceBefore(t, i + 1, v.pad, [RBRACKET]);
    } else {
      ScansElements(t, i + 1, SkipSpace(t, i + 1), es);
    }
  }

  /** What follows an element's trailing whitespace. */
  function AfterElement(es: Elements): Text
    requires es.Element?
  {
    if es.rest.NoElements? then [RBRACKET] else [COMMA] + (PrintElements(es.rest) + [RBRACKET])
  }

  lemma ElementParts(es: Elements)
    requires es.Element?
    ensures PrintElements(es) + [RBRACKET] == es.before + (Print(es.value) + (es.after + AfterElement(es)))
    ensures |PrintElements(es)| + 1 == |es.before| + |Print(es.value)| + |es.after| + |AfterElement(es)|
    ensures EndsAtom(AfterElement(es)[0]) && !IsSpace(AfterElement(es)[0])
  {
    hide Print;
    var tail := if es.rest.NoElements? then [] else [COMMA] + PrintElements(es.rest);
    assert AfterElement(es) == tail + [RBRACKET];
  }

  /** The scanner reaches an element of an array. */
  lemma ElementHead(t: Text, a: nat, i: nat, es: Elements, close: Text)
    requires es.Element? && OkElements(es) && Has(t, a, es.before + (Print(es.value) + (es.after + close)))
    requires a <= |t| && (i == a || i == SkipSpace(t, a))
    ensures var b := a + |es.before|;
            && Has(t, b, Print(es.value) + (es.after + close)) && i <= |t| && b <= |t|
            && ScanValue(t, i) == ScanValue(t, b) && !At(t, i, RBRACKET)
  {
    hide Print, ScanValue, EndsAtom, SkipSpace, Has, JsonSpace, OkValue;
    var rest := Print(es.value) + (es.after + close);
    PrintHead(es.value);
    SeparatorsEndAtoms();
    SpaceBefore(t, a, es.before, rest);
    SkipTwice(t, a);
    ScanValueSkips(t, i, a + |es.before|) by { SkipTwice(t, i); }
  }

  lemma NextElement(t: Text, i: nat)
    requires i <= |t| && !At(t, i, RBRACKET)
    ensures ScanValue(t, i).None? ==> ScanElements(t, i).None?
    ensures ScanValue(t, i).Some? ==>
              var m := SkipSpace(t, ScanValue(t, i).value);
              ScanElements(t, i) == if At(t, m, COMMA) then ScanElements(t, m + 1)
                                    else if At(t, m, RBRACKET) then Some(m + 1) else None
  {
    hide ScanValue, SkipSpace;
  }

  lemma {:induction false} ScansElements(t: Text, a: nat, i: nat, es: Elements)
    requires es.Element? && OkElements(es) && Has(t, a, PrintElements(es) + [RBRACKET])
    requires a <= |t| && (i == a || i == SkipSpace(t, a))
    ensures ScanElements(t, i) == if UniqueElements(es) then Some(a + |PrintElements(es)| + 1) else None
    decreases es, 2
  {
    hide Print, ScanValue, ScanElements, EndsAtom, SkipSpace, Has, JsonSpace, OkValue, Stops, PrintElements;
    var close := AfterElement(es);
    var b := a + |es.before|;
    var m2 := b + |Print(es.value)| + |es.after|;
    ElementParts(es);
    ElementHead(t, a, i, es, close);
    ValueThenSpace(t, b, es.value, es.after, close);
    ScansValue(t, b, es.value);
    NextElement(t, i);
    if es.rest.Element? {
      HasConcat(t, m2, [COMMA], PrintElements(es.rest) + [RBRACKET]);
      ScansElements(t, m2 + 1, m2 + 1, es.rest);
    }
  }

  lemma SkipTwice(t: Text, i: nat)
    requires i <= |t|
    ensures SkipSpace(t, SkipSpace(t, i)) == SkipSpace(t, i)
    decreases |t| - i
  {
    if i < |t| && IsSpace(t[i]) { SkipTwice(t, i + 1); }
  }

  lemma SeparatorsEndAtoms()
    ensures EndsAtom(COMMA) && EndsAtom(RBRACKET) && EndsAtom(RBRACE)
    ensures !IsSpace(COMMA) && !IsSpace(RBRACKET) && !IsSpace(RBRACE) && !IsSpace(COLON) && !IsSpace(QUOTE)
  {
  }

  /** The names of the members are new, given those seen, and nothing below them repeats a name. */
  predicate UniqueFrom(ms: Members, keys: set<Text>)
    requires OkMembers(ms)
  {
    ms.NoMembers? ||
    (Decoded(ms.name) !in keys && UniqueNames(ms.value) && UniqueFrom(ms.rest, keys + {Decoded(ms.name)}))
  }

  lemma {:induction false} UniqueFromExactly(ms: Members, keys: set<Text>)
    requires OkMembers(ms)
    ensures UniqueFrom(ms, keys) <==>
            Distinct(Names(ms)) && UniqueMembers(ms) && forall n :: n in Names(ms) ==> n !in keys
    decreases ms
  {
    if ms.Member? {
      var name, rest := Decoded(ms.name), Names(ms.rest);
      UniqueFromExactly(ms.rest, keys + {name});
      DistinctCons(name, rest);
    }
  }

  lemma DistinctCons(name: Text, rest: seq<Text>)
    ensures Distinct([name] + rest) <==> name !in rest && Distinct(rest)
  {
    var all := [name] + rest;
    if Distinct(all) {
      forall i | 0 <= i < |rest| ensures rest[i] != name { assert all[0] != all[i + 1]; }
      forall i, j | 0 <= i < j < |rest| ensures rest[i] != rest[j] { assert all[i + 1] != all[j + 1]; }
    }
  }

  lemma ScansObject(t: Text, i: nat, v: Json)
    requires v.Obj? && OkValue(v) && Has(t, i, Print(v))
    ensures ScanValue(t, i) == if UniqueNames(v) then Some(i + |Print(v)|) else None
    decreases v, 0
  {
    hide ScanElements, ScanValue, SkipSpace, Has, JsonSpace, UniqueMembers, PrintMembers, Distinct;
    var ms := v.members;
    var body := (if ms.NoMembers? then v.pad else PrintMembers(ms)) + [RBRACE];
    HasConcat(t, i, [LBRACE], body);
    HasAt(t, i, [LBRACE], 0);
    OpensObject(t, i);
    UniqueFromExactly(ms, {});
    if ms.NoMembers? {
      SpaceBefore(t, i + 1, v.pad, [RBRACE]);
    } else {
      ScansMembers(t, i + 1, SkipSpace(t, i + 1), ms, {});
    }
  }

  /** What follows a member's trailing whitespace. */
  function AfterMember(ms: Members): Text
    requires ms.Member?
  {
    if ms.rest.NoMembers? then [RBRACE] else [COMMA] + (PrintMembers(ms.rest) + [RBRACE])
  }

  /** What follows the colon of a member. */
  function MemberBody(ms: Members): Text
    requires ms.Member?
  {
    ms.space + (Print(ms.value) + (ms.after + AfterMember(ms)))
  }

  function MemberText(ms: Members): Text
    requires ms.Member?
  {
    ms.before + (PrintString(ms.name) + (ms.between + ([COLON] + MemberBody(ms))))
  }

  lemma MemberParts(ms: Members)
    requires ms.Member?
    ensures PrintMembers(ms) + [RBRACE] == MemberText(ms)
    ensures |PrintMembers(ms)| + 1 == |ms.before| + |PrintString(ms.name)| + |ms.between| + 1 + |ms.space| +
                                      |Print(ms.value)| + |ms.after| + |AfterMember(ms)|
    ensures EndsAtom(AfterMember(ms)[0]) && !IsSpace(AfterMember(ms)[0])
  {
    hide Print, PrintString;
    var tail := if ms.rest.NoMembers? then [] else [COMMA] + PrintMembers(ms.rest);
    var x := Print(ms.value) + (ms.after + tail);
    assert AfterMember(ms) == tail + [RBRACE];
    assert x + [RBRACE] == Print(ms.value) + (ms.after + AfterMember(ms));
    ConcatAssoc(ms.space, x, [RBRACE]);
    ConcatAssoc([COLON], ms.space + x, [RBRACE]);
    ConcatAssoc(ms.between, [COLON] + (ms.space + x), [RBRACE]);
    ConcatAssoc(PrintString(ms.name), ms.between + ([COLON] + (ms.space + x)), [RBRACE]);
    ConcatAssoc(ms.before, PrintString(ms.name) + (ms.between + ([COLON] + (ms.space + x))), [RBRACE]);
  }

  /** The scanner reaches the name of a member and then its colon. */
  lemma MemberHead(t: Text, a: nat, i: nat, ms: Members)
    requires ms.Member? && OkMembers(ms) && Has(t, a, MemberText(ms))
    requires a <= |t| && (i == a || i == SkipSpace(t, a))
    ensures var b := a + |ms.before|;
            var k := b + |PrintString(ms.name)|;
            var c := k + |ms.between|;
            && i <= |t| && SkipSpace(t, i) == b && !At(t, i, RBRACE)
            && ScanString(t, b) == Some((k, Decoded(ms.name)))
            && SkipSpace(t, k) == c && At(t, c, COLON) && Has(t, c + 1, MemberBody(ms))
  {
    hide Print, PrintString, ScanString, Decoded, SkipSpace, Has, JsonSpace, OkValue, OkChars, MemberBody, IsSpace;
    var value := MemberBody(ms);
    var rest := ms.between + ([COLON] + value);
    var b := a + |ms.before|;
    var k := b + |PrintString(ms.name)|;
    SeparatorsEndAtoms();
    PrintQuote(ms.name);
    SpaceBefore(t, a, ms.before, PrintString(ms.name) + rest);
    SkipTwice(t, a);
    HasConcat(t, b, PrintString(ms.name), rest);
    ScansString(t, b, ms.name);
    SpaceBefore(t, k, ms.between, [COLON] + value);
    HasConcat(t, k + |ms.between|, [COLON], value);
  }

  lemma PrintQuote(cs: seq<StrChar>)
    ensures PrintString(cs) != [] && PrintString(cs)[0] == QUOTE
  {
  }

  /** The scanner reaches the value of a member. */
  lemma MemberValue(t: Text, c: nat, ms: Members, close: Text)
    requires ms.Member? && OkMembers(ms) && close == AfterMember(ms) && Has(t, c, MemberBody(ms))
    ensures var d := c + |ms.space|;
            Has(t, d, Print(ms.value) + (ms.after + close)) && c <= d <= |t| && ScanValue(t, c) == ScanValue(t, d)
  {
    hide Print, ScanValue, EndsAtom, SkipSpace, JsonSpace, OkValue, AfterMember;
    PrintHead(ms.value);
    SpaceBefore(t, c, ms.space, Print(ms.value) + (ms.after + close));
    SkipTwice(t, c);
    ScanValueSkips(t, c, c + |ms.space|);
  }

  lemma NextMember(t: Text, i: nat, keys: set<Text>, b: nat, k: nat, name: Text, c: nat)
    requires i <= |t| && !At(t, i, RBRACE) && SkipSpace(t, i) == b
    requires ScanString(t, b) == Some((k, name)) && SkipSpace(t, k) == c && At(t, c, COLON)
    ensures name in keys || ScanValue(t, c + 1).None? ==> ScanMembers(t, i, keys).None?
    ensures name !in keys && ScanValue(t, c + 1).Some? ==>
              var m := SkipSpace(t, ScanValue(t, c + 1).value);
              ScanMembers(t, i, keys) == if At(t, m, COMMA) then ScanMembers(t, m + 1, keys + {name})
                                         else if At(t, m, RBRACE) then Some(m + 1) else None
  {
    hide ScanValue, SkipSpace, ScanString;
  }

  lemma {:induction false} ScansMembers(t: Text, a: nat, i: nat, ms: Members, keys: set<Text>)
    requires ms.Member? && OkMembers(ms) && Has(t, a, PrintMembers(ms) + [RBRACE])
    requires a <= |t| && (i == a || i == SkipSpace(t, a))
    ensures ScanMembers(t, i, keys) == if UniqueFrom(ms, keys) then Some(a + |PrintMembers(ms)| + 1) else None
    decreases ms, 2
  {
    hide Print, ScanValue, ScanMembers, ScanString, PrintString, Decoded, EndsAtom, SkipSpace, Has, JsonSpace, OkValue,
      Stops, PrintMembers, OkChars;
    var close := AfterMember(ms);
    var k := a + |ms.before| + |PrintString(ms.name)|;
    var c := k + |ms.between| + 1;
    var d := c + |ms.space|;
    var m2 := d + |Print(ms.value)| + |ms.after|;
    MemberParts(ms);
    MemberHead(t, a, i, ms);
    MemberValue(t, c, ms, close);
    ValueThenSpace(t, d, ms.value, ms.after, close);
    ScansValue(t, d, ms.value);
    NextMember(t, i, keys, a + |ms.before|, k, Decoded(ms.name), c - 1);
    if ms.rest.Member? {
      HasConcat(t, m2, [COMMA], PrintMembers(ms.rest) + [RBRACE]);
      ScansMembers(t, m2 + 1, m2 + 1, ms.rest, keys + {Decoded(ms.name)});
    }
  }

  /** On the text of any JSON value, with any whitespace and escapes, the scanner answers true exactly when no
      object at any depth repeats a decoded name. */
  lemma AnswersExactly(before: Text, v: Json, after: Text)
    requires JsonSpace(before) && OkValue(v) && JsonSpace(after)
    ensures NoDuplicates(before + Print(v) + after) <==> UniqueNames(v)
  {
    hide Print, ScanValue, SkipSpace, Has, JsonSpace, OkValue, UniqueNames, IsSpace;
    var t := before + Print(v) + after;
    var i, end := |before|, |before| + |Print(v)|;
    assert t == before + (Print(v) + after) && t[0..|t|] == t;
    PrintHead(v);
    SpaceBefore(t, 0, before, Print(v) + after);
    HasConcat(t, i, Print(v), after);
    if after != [] { HasAt(t, end, after, 0); JsonSpaceEnds(after); }
    SkipTwice(t, 0);
    ScanValueSkips(t, 0, i);
    ScansValue(t, i, v);
    SkipsSpace(t, end, after);
  }

  lemma JsonSpaceEnds(s: Text)
    requires JsonSpace(s) && s != []
    ensures EndsAtom(s[0])
  {
    SpaceEndsAtom(s[0]);
  }

  lemma SpaceEndsAtom(u: Unit)
    ensures u == 32 || u == 9 || u == 10 || u == 13 ==> EndsAtom(u)
  {
  }
}
