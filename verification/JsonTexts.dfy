/**
 * The duplicate-name scanner on every text, JSON or not (backend/machine-connector.ts).
 *
 * The scanner reads more than JSON: any whitespace of a regular expression, any run of other
 * characters as an atom, even an empty one, and a comma before a closing bracket. A reading names
 * the places where its parts begin and end.
 */
module JsonTexts {
  import opened Wrappers
  import opened JsonScanner

  // ---- the characters ----

  /** The whitespace of a regular expression, character by character, and what else ends an atom: a comma, a closing
      brace and a closing bracket. */
  lemma SpacesAre(u: Unit)
    ensures IsSpace(u) <==>
            u in {9, 10, 11, 12, 13, 32, 0xA0, 0x1680, 0x2000, 0x2001, 0x2002, 0x2003, 0x2004, 0x2005, 0x2006, 0x2007,
                  0x2008, 0x2009, 0x200A, 0x2028, 0x2029, 0x202F, 0x205F, 0x3000, 0xFEFF}
    ensures EndsAtom(u) <==> IsSpace(u) || u in {',' as int, '}' as int, ']' as int}
  {
  }

  /** What the escapes of a JSON string stand for. */
  lemma EscapesAre(c: Unit)
    ensures ShortEscape(c) == match c
            case 34 => Some(34)
            case 92 => Some(92)
            case 47 => Some(47)
            case 98 => Some(8)
            case 102 => Some(12)
            case 110 => Some(10)
            case 114 => Some(13)
            case 116 => Some(9)
            case _ => None
  {
  }

  /** The digits of a hexadecimal escape, and the character four of them stand for. */
  lemma HexDigitsAre(c: Unit, k: nat)
    ensures IsHex(c) <==>
      '0' as int <= c <= '9' as int || 'A' as int <= c <= 'F' as int || 'a' as int <= c <= 'f' as int
    ensures k < 10 ==> HexValue('0' as int + k) == k
    ensures 10 <= k < 16 ==> HexValue('A' as int + k - 10) == k && HexValue('a' as int + k - 10) == k
  {
  }

  lemma FourDigitsAre(a: Unit, b: Unit, c: Unit, d: Unit)
    requires IsHex(a) && IsHex(b) && IsHex(c) && IsHex(d)
    ensures HexUnit(a, b, c, d) == ((HexValue(a) * 16 + HexValue(b)) * 16 + HexValue(c)) * 16 + HexValue(d)
  {
  }

  // ---- string tokens ----

  /** JSON.parse takes exactly the string tokens of JSON: between quotes, characters that are no control characters, no
      quotes and no backslashes, two-character escapes, and four hexadecimal digits. */
  lemma ParsedExactly(s: Text, name: Text)
    ensures ParseString(s) == Some(name) <==> exists cs :: OkChars(cs) && s == PrintString(cs) && Decoded(cs) == name
  {
    hide OkChars, Decoded, PrintChars, DecodeFrom;
    if ParseString(s) == Some(name) {
      var cs := ParsedChars(s, 1, name);
      assert s == [s[0]] + s[1..];
    }
    forall cs | OkChars(cs) && s == PrintString(cs) ensures ParseString(s) == Some(Decoded(cs)) {
      var body := PrintChars(cs) + [QUOTE];
      assert s[1..] == body && s == [QUOTE] + body;
      assert Has(s, 1, body);
      DecodesChars(s, 1, cs);
    }
  }

  lemma {:induction false} ParsedChars(s: Text, k: nat, name: Text) returns (cs: seq<StrChar>)
    requires k <= |s| && DecodeFrom(s, k) == Some(name)
    ensures OkChars(cs) && s[k..] == PrintChars(cs) + [QUOTE] && Decoded(cs) == name
    decreases |s| - k
  {
    hide HexUnit, IsHex, ShortEscape;
    if s[k] == QUOTE {
      cs := [];
    } else {
      var c := FirstChar(s, k, name);
      var n := |PrintChar(c)|;
      var rest := ParsedChars(s, k + n, name[1..]);
      cs := [c] + rest;
      CharsPush(c, rest);
      hide DecodeFrom, PrintChar, CharValue;
      assert s[k..] == s[k..k + n] + s[k + n..];
      assert name == [name[0]] + name[1..];
      assert PrintChar(c) + (PrintChars(rest) + [QUOTE]) == PrintChar(c) + PrintChars(rest) + [QUOTE];
    }
  }

  lemma FirstChar(s: Text, k: nat, name: Text) returns (c: StrChar)
    requires k < |s| && s[k] != QUOTE && DecodeFrom(s, k) == Some(name)
    ensures OkChar(c) && k + |PrintChar(c)| <= |s| && s[k..k + |PrintChar(c)|] == PrintChar(c) && |PrintChar(c)| > 0
    ensures name != [] && name[0] == CharValue(c) && DecodeFrom(s, k + |PrintChar(c)|) == Some(name[1..])
  {
    hide HexUnit, IsHex, ShortEscape;
    c := if s[k] != BACKSLASH then Plain(s[k])
         else if s[k + 1] == 117 then Hex(s[k + 2], s[k + 3], s[k + 4], s[k + 5]) else Short(s[k + 1]);
  }

  lemma CharsPush(c: StrChar, rest: seq<StrChar>)
    requires OkChar(c) && OkChars(rest)
    ensures OkChars([c] + rest) && PrintChars([c] + rest) == PrintChar(c) + PrintChars(rest)
    ensures Decoded([c] + rest) == [CharValue(c)] + Decoded(rest)
  {
    assert ([c] + rest)[1..] == rest;
  }

  // ---- readings ----

  /** A text as the scanner takes it: each part of a list or a record with the places where it starts and ends and where
      the comma or the bracket behind it stands. */
  datatype Tree = Bare | Quoted | List(items: Items) | Record(fields: Fields)

  datatype Items =
    | NoItems
    | LastItem(start: nat, end: nat, mark: nat, value: Tree)
    | Item(start: nat, end: nat, mark: nat, value: Tree, rest: Items)

  datatype Fields =
    | NoFields
    | LastField(name: Text, nameStart: nat, nameEnd: nat, colon: nat, start: nat, end: nat, mark: nat, value: Tree)
    | Field(name: Text, nameStart: nat, nameEnd: nat, colon: nat, start: nat, end: nat, mark: nat, value: Tree,
            rest: Fields)

  /** Whitespace from `i` to `j`, and none at `j`. */
  predicate Gap(t: Text, i: nat, j: nat) {
    i <= j <= |t| && (forall k :: i <= k < j ==> IsSpace(t[k])) && (j < |t| ==> !IsSpace(t[j]))
  }

  /** From `i` to `j` the text is one string token, and JSON.parse makes `name` of it. */
  predicate Token(t: Text, i: nat, j: nat, name: Text) {
    i <= j <= |t| && ParseString(t[i..j]) == Some(name)
  }

  /** From `i` to `j` there is nothing that ends an atom, and at `j` there is. */
  predicate Run(t: Text, i: nat, j: nat) {
    i <= j <= |t| && (forall k :: i <= k < j ==> !EndsAtom(t[k])) && (j < |t| ==> EndsAtom(t[j]))
  }

  ghost predicate Reads(t: Text, i: nat, j: nat, v: Tree)
    decreases v
  {
    match v
    case Bare => Run(t, i, j) && (i < |t| ==> t[i] !in {QUOTE, LBRACE, LBRACKET})
    case Quoted => exists name :: Token(t, i, j, name)
    case List(items) => At(t, i, LBRACKET) && exists k: nat :: Gap(t, i + 1, k) && ReadsItems(t, k, j, items)
    case Record(fields) => At(t, i, LBRACE) && exists k: nat :: Gap(t, i + 1, k) && ReadsFields(t, k, j, fields)
  }

  ghost predicate ReadsItems(t: Text, i: nat, j: nat, items: Items)
    decreases items
  {
    match items
    case NoItems => At(t, i, RBRACKET) && j == i + 1
    case LastItem(start, end, mark, value) =>
      && !At(t, i, RBRACKET) && Gap(t, i, start) && Reads(t, start, end, value) && Gap(t, end, mark)
      && At(t, mark, RBRACKET) && j == mark + 1
    case Item(start, end, mark, value, rest) =>
      && !At(t, i, RBRACKET) && Gap(t, i, start) && Reads(t, start, end, value) && Gap(t, end, mark)
      && At(t, mark, COMMA) && ReadsItems(t, mark + 1, j, rest)
  }

  ghost predicate ReadsFields(t: Text, i: nat, j: nat, fields: Fields)
    decreases fields
  {
    match fields
    case NoFields => At(t, i, RBRACE) && j == i + 1
    case LastField(name, nameStart, nameEnd, colon, start, end, mark, value) =>
      && !At(t, i, RBRACE) && Gap(t, i, nameStart) && Token(t, nameStart, nameEnd, name) && Gap(t, nameEnd, colon)
      && At(t, colon, COLON) && Gap(t, colon + 1, start) && Reads(t, start, end, value) && Gap(t, end, mark)
      && At(t, mark, RBRACE) && j == mark + 1
    case Field(name, nameStart, nameEnd, colon, start, end, mark, value, rest) =>
      && !At(t, i, RBRACE) && Gap(t, i, nameStart) && Token(t, nameStart, nameEnd, name) && Gap(t, nameEnd, colon)
      && At(t, colon, COLON) && Gap(t, colon + 1, start) && Reads(t, start, end, value) && Gap(t, end, mark)
      && At(t, mark, COMMA) && ReadsFields(t, mark + 1, j, rest)
  }

  function FieldNames(fields: Fields): seq<Text> {
    match fields
    case NoFields => []
    case LastField(name, _, _, _, _, _, _, _) => [name]
    case Field(name, _, _, _, _, _, _, _, rest) => [name] + FieldNames(rest)
  }

  /** No record at any depth repeats a name. */
  predicate NoRepeats(v: Tree) {
    match v
    case Bare => true
    case Quoted => true
    case List(items) => ItemsRepeatNothing(items)
    case Record(fields) => Distinct(FieldNames(fields)) && FieldsRepeatNothing(fields)
  }

  predicate ItemsRepeatNothing(items: Items) {
    match items
    case NoItems => true
    case LastItem(_, _, _, value) => NoRepeats(value)
    case Item(_, _, _, value, rest) => NoRepeats(value) && ItemsRepeatNothing(rest)
  }

  predicate FieldsRepeatNothing(fields: Fields) {
    match fields
    case NoFields => true
    case LastField(_, _, _, _, _, _, _, value) => NoRepeats(value)
    case Field(_, _, _, _, _, _, _, value, rest) => NoRepeats(value) && FieldsRepeatNothing(rest)
  }

  // ---- the parts ----

  lemma {:induction false} SkipIsGap(t: Text, i: nat)
    requires i <= |t|
    ensures Gap(t, i, SkipSpace(t, i))
    ensures forall j: nat :: Gap(t, i, j) ==> j == SkipSpace(t, i)
    decreases |t| - i
  {
    hide IsSpace;
    if i < |t| && IsSpace(t[i]) {
      SkipIsGap(t, i + 1);
      forall j: nat | Gap(t, i, j) ensures j == SkipSpace(t, i) { assert Gap(t, i + 1, j); }
    } else {
      forall j: nat | i < j <= |t| ensures !Gap(t, i, j) { assert !IsSpace(t[i]); }
    }
  }

  lemma {:induction false} SkipIsRun(t: Text, i: nat)
    requires i <= |t|
    ensures Run(t, i, SkipAtom(t, i))
    ensures forall j: nat :: Run(t, i, j) ==> j == SkipAtom(t, i)
    decreases |t| - i
  {
    hide EndsAtom;
    if i < |t| && !EndsAtom(t[i]) {
      SkipIsRun(t, i + 1);
      forall j: nat | Run(t, i, j) ensures j == SkipAtom(t, i) { assert Run(t, i + 1, j); }
    } else {
      forall j: nat | i < j <= |t| ensures !Run(t, i, j) { assert EndsAtom(t[i]); }
    }
  }

  /** A token that decodes ends at the quote that the scanner finds. */
  lemma {:induction false} DecodedEnds(t: Text, i: nat, j: nat, k: nat)
    requires i < k && k <= j <= |t| && DecodeFrom(t[i..j], k - i).Some?
    ensures StringEnd(t, k) == Some(j)
    decreases j - k
  {
    hide IsHex, HexUnit, ShortEscape;
    var s := t[i..j];
    assert k < j && s[k - i] == t[k];
    if t[k] == QUOTE {
    } else if t[k] != BACKSLASH {
      DecodedEnds(t, i, j, k + 1);
    } else {
      assert k + 1 < j && s[k + 1 - i] == t[k + 1];
      if t[k + 1] == 117 {
        HexSkips(t, i, j, k);
        DecodedEnds(t, i, j, k + 6);
      } else {
        DecodedEnds(t, i, j, k + 2);
      }
    }
  }

  lemma HexSkips(t: Text, i: nat, j: nat, k: nat)
    requires i < k && k + 1 < j <= |t| && t[k] == BACKSLASH && t[k + 1] == 117 && DecodeFrom(t[i..j], k - i).Some?
    ensures k + 6 <= j && DecodeFrom(t[i..j], k + 6 - i).Some? && StringEnd(t, k) == StringEnd(t, k + 6)
  {
    var s := t[i..j];
    assert s[k - i] == t[k] && s[k + 1 - i] == t[k + 1];
    assert k - i + 5 < |s|;
    assert IsHex(s[k - i + 2]) && IsHex(s[k - i + 3]) && IsHex(s[k - i + 4]) && IsHex(s[k - i + 5]);
    hide DecodeFrom, StringEnd;
    EscapeStep(t, k);
    PlainStep(t, k + 2);
    PlainStep(t, k + 3);
    PlainStep(t, k + 4);
    PlainStep(t, k + 5);
  }

  lemma ScanIsToken(t: Text, i: nat)
    requires i <= |t|
    ensures ScanString(t, i).Some? ==> Token(t, i, ScanString(t, i).value.0, ScanString(t, i).value.1)
    ensures forall j: nat, name :: Token(t, i, j, name) ==> ScanString(t, i) == Some((j, name))
  {
    forall j: nat, name | Token(t, i, j, name) ensures ScanString(t, i) == Some((j, name)) {
      assert t[i..j][0] == QUOTE && i < j;
      DecodedEnds(t, i, j, i + 1);
    }
  }

  /** The names are new, to the keys and to each other. */
  predicate NewNames(names: seq<Text>, keys: set<Text>) {
    names == [] || (names[0] !in keys && NewNames(names[1..], keys + {names[0]}))
  }

  lemma {:induction false} NewNamesExactly(names: seq<Text>, keys: set<Text>)
    ensures NewNames(names, keys) <==> Distinct(names) && forall i :: 0 <= i < |names| ==> names[i] !in keys
    decreases |names|
  {
    if names == [] {
    } else {
      var rest := names[1..];
      NewNamesExactly(rest, keys + {names[0]});
      assert forall i :: 0 <= i < |rest| ==> rest[i] == names[i + 1];
      if Distinct(names) {
        forall i, j | 0 <= i < j < |rest| ensures rest[i] != rest[j] { assert names[i + 1] != names[j + 1]; }
        forall i | 0 <= i < |rest| ensures rest[i] != names[0] { assert names[i + 1] != names[0]; }
      }
      if Distinct(rest) && forall i :: 0 <= i < |rest| ==> rest[i] !in keys + {names[0]} {
        forall i, j | 0 <= i < j < |names| ensures names[i] != names[j] { assert names[j] == rest[j - 1]; }
        forall i | 0 < i < |names| ensures names[i] !in keys { assert names[i] == rest[i - 1]; }
      }
    }
  }

  lemma OneName(name: Text, keys: set<Text>)
    ensures NewNames([name], keys) <==> name !in keys
  {
    var names: seq<Text> := [name];
    assert names[1..] == [];
  }

  // ---- a reading is what the scanner takes ----

  /** The scanner passes a reading exactly when no record in it repeats a name. */
  lemma {:induction false} ReadingIsScanned(t: Text, i: nat, j: nat, v: Tree)
    requires i <= |t| && (i < |t| ==> !IsSpace(t[i])) && Reads(t, i, j, v)
    ensures ScanValue(t, i) == if NoRepeats(v) then Some(j) else None
    decreases v, 1
  {
    hide ScanString, ScanMembers, ScanElements, SkipAtom, SkipSpace, Token, Run, Gap, IsSpace, EndsAtom;
    SkipNothing(t, i);
    match v
    case Bare => BareIsScanned(t, i, j);
    case Quoted => QuotedIsScanned(t, i, j);
    case List(items) =>
      var k: nat :| Gap(t, i + 1, k) && ReadsItems(t, k, j, items);
      SkipIsGap(t, i + 1);
      ItemsAreScanned(t, k, j, items);
    case Record(fields) =>
      var k: nat :| Gap(t, i + 1, k) && ReadsFields(t, k, j, fields);
      SkipIsGap(t, i + 1);
      FieldsAreScanned(t, k, j, fields, {});
      NewNamesExactly(FieldNames(fields), {});
  }

  lemma SkipNothing(t: Text, i: nat)
    requires i <= |t| && (i < |t| ==> !IsSpace(t[i]))
    ensures SkipSpace(t, i) == i
  {
  }

  lemma BareIsScanned(t: Text, i: nat, j: nat)
    requires i <= |t| && (i < |t| ==> !IsSpace(t[i])) && Reads(t, i, j, Bare)
    ensures ScanValue(t, i) == Some(j)
  {
    hide ScanString, ScanMembers, ScanElements, SkipAtom, SkipSpace, Run, IsSpace;
    SkipNothing(t, i);
    SkipIsRun(t, i) by { assert Run(t, i, j); }
  }

  lemma QuotedIsScanned(t: Text, i: nat, j: nat)
    requires i <= |t| && (i < |t| ==> !IsSpace(t[i])) && Reads(t, i, j, Quoted)
    ensures ScanValue(t, i) == Some(j)
  {
    hide ScanString, ScanMembers, ScanElements, SkipAtom, SkipSpace, IsSpace;
    SkipNothing(t, i);
    ScanIsToken(t, i);
    var name :| Token(t, i, j, name);
    assert t[i..j][0] == QUOTE == t[i];
  }

  lemma {:induction false} ItemsAreScanned(t: Text, i: nat, j: nat, items: Items)
    requires i <= |t| && ReadsItems(t, i, j, items)
    ensures ScanElements(t, i) == if ItemsRepeatNothing(items) then Some(j) else None
    decreases items, 0
  {
    hide ScanValue, ScanElements, SkipSpace, IsSpace, Reads;
    ElementsStep(t, i);
    match items
    case NoItems =>
    case LastItem(start, end, mark, value) => ItemIsScanned(t, i, start, end, mark, value);
    case Item(start, end, mark, value, rest) =>
      ItemIsScanned(t, i, start, end, mark, value);
      ItemsAreScanned(t, mark + 1, j, rest);
  }

  lemma {:induction false} ItemIsScanned(t: Text, i: nat, start: nat, end: nat, mark: nat, value: Tree)
    requires i <= |t| && Gap(t, i, start) && Reads(t, start, end, value) && Gap(t, end, mark)
    ensures ScanValue(t, i) == (if NoRepeats(value) then Some(end) else None) && SkipSpace(t, end) == mark
    decreases value, 2
  {
    hide ScanValue, SkipSpace, IsSpace, Reads;
    ReadingIsScanned(t, start, end, value);
    SkipIsGap(t, i);
    SkipIsGap(t, end);
    SkipTwice(t, i);
    ScanValueSkips(t, i, start);
  }

  lemma ElementsStep(t: Text, i: nat)
    requires i <= |t|
    ensures At(t, i, RBRACKET) ==> ScanElements(t, i) == Some(i + 1)
    ensures !At(t, i, RBRACKET) ==>
              ScanElements(t, i) ==
              match ScanValue(t, i)
              case None => None
              case Some(m) =>
                if At(t, SkipSpace(t, m), COMMA) then ScanElements(t, SkipSpace(t, m) + 1)
                else if At(t, SkipSpace(t, m), RBRACKET) then Some(SkipSpace(t, m) + 1) else None
  {
    hide ScanValue, SkipSpace;
  }

  lemma {:induction false} FieldsAreScanned(t: Text, i: nat, j: nat, fields: Fields, keys: set<Text>)
    requires i <= |t| && ReadsFields(t, i, j, fields)
    ensures ScanMembers(t, i, keys) ==
            if NewNames(FieldNames(fields), keys) && FieldsRepeatNothing(fields) then Some(j) else None
    decreases fields, 0
  {
    hide ScanValue, ScanMembers, ScanString, SkipSpace, IsSpace, Reads, Token, Gap, NewNames, NoRepeats;
    match fields
    case NoFields =>
      MembersEnd(t, i, keys);
      NoNames(keys);
    case LastField(name, nameStart, nameEnd, colon, start, end, mark, value) =>
      NameIsScanned(t, i, nameStart, nameEnd, colon, name);
      ItemIsScanned(t, colon + 1, start, end, mark, value);
      NextMember(t, i, keys, nameStart, nameEnd, name, colon);
      OneName(name, keys);
    case Field(name, nameStart, nameEnd, colon, start, end, mark, value, rest) =>
      NameIsScanned(t, i, nameStart, nameEnd, colon, name);
      ItemIsScanned(t, colon + 1, start, end, mark, value);
      NextMember(t, i, keys, nameStart, nameEnd, name, colon);
      FieldsAreScanned(t, mark + 1, j, rest, keys + {name});
      MoreNames(name, FieldNames(rest), keys);
  }

  lemma NoNames(keys: set<Text>)
    ensures NewNames([], keys)
  {
  }

  lemma MoreNames(name: Text, names: seq<Text>, keys: set<Text>)
    ensures NewNames([name] + names, keys) <==> name !in keys && NewNames(names, keys + {name})
  {
    assert ([name] + names)[1..] == names;
  }

  lemma MembersEnd(t: Text, i: nat, keys: set<Text>)
    requires At(t, i, RBRACE)
    ensures ScanMembers(t, i, keys) == Some(i + 1)
  {
  }

  lemma NameIsScanned(t: Text, i: nat, nameStart: nat, nameEnd: nat, colon: nat, name: Text)
    requires i <= |t| && Gap(t, i, nameStart) && Token(t, nameStart, nameEnd, name) && Gap(t, nameEnd, colon)
    ensures SkipSpace(t, i) == nameStart && ScanString(t, nameStart) == Some((nameEnd, name))
    ensures SkipSpace(t, nameEnd) == colon
  {
    hide ScanString, SkipSpace, IsSpace;
    SkipIsGap(t, i);
    SkipIsGap(t, nameEnd);
    ScanIsToken(t, nameStart);
  }

  // ---- what the scanner takes is a reading ----

  lemma {:induction false} ScannedIsReading(t: Text, i: nat) returns (v: Tree)
    requires i <= |t| && (i < |t| ==> !IsSpace(t[i])) && ScanValue(t, i).Some?
    ensures Reads(t, i, ScanValue(t, i).value, v) && NoRepeats(v)
    decreases |t| - i, 0
  {
    hide ScanString, ScanMembers, ScanElements, SkipAtom, SkipSpace, Token, Run, Gap, IsSpace, EndsAtom;
    SkipNothing(t, i);
    SkipIsGap(t, i);
    if At(t, i, LBRACE) {
      SkipIsGap(t, i + 1);
      var k := SkipSpace(t, i + 1);
      var fields := ScannedFields(t, k, {});
      NewNamesExactly(FieldNames(fields), {});
      v := Record(fields);
      assert Gap(t, i + 1, k) && ReadsFields(t, k, ScanValue(t, i).value, fields);
    } else if At(t, i, LBRACKET) {
      SkipIsGap(t, i + 1);
      var k := SkipSpace(t, i + 1);
      var items := ScannedItems(t, k);
      v := List(items);
      assert Gap(t, i + 1, k) && ReadsItems(t, k, ScanValue(t, i).value, items);
    } else if At(t, i, QUOTE) {
      ScanIsToken(t, i);
      v := Quoted;
    } else {
      SkipIsRun(t, i);
      v := Bare;
    }
  }

  /** One value after whitespace, and the mark behind it. */
  lemma {:induction false} ScannedItem(t: Text, i: nat) returns (start: nat, end: nat, mark: nat, value: Tree)
    requires i <= |t| && ScanValue(t, i).Some?
    ensures i <= start && Gap(t, i, start) && Reads(t, start, end, value) && Gap(t, end, mark) && NoRepeats(value)
    ensures end == ScanValue(t, i).value && mark == SkipSpace(t, end)
    decreases |t| - i, 1
  {
    hide ScanValue, SkipSpace, IsSpace, Reads;
    SkipIsGap(t, i);
    start := SkipSpace(t, i);
    SkipTwice(t, i);
    ScanValueSkips(t, i, start);
    end := ScanValue(t, i).value;
    SkipIsGap(t, end);
    mark := SkipSpace(t, end);
    value := ScannedIsReading(t, start);
  }

  lemma {:induction false} ScannedItems(t: Text, i: nat) returns (items: Items)
    requires i <= |t| && ScanElements(t, i).Some?
    ensures ReadsItems(t, i, ScanElements(t, i).value, items) && ItemsRepeatNothing(items)
    decreases |t| - i, 2
  {
    hide ScanValue, ScanElements, SkipSpace, IsSpace, Reads, Gap;
    ElementsStep(t, i);
    if At(t, i, RBRACKET) {
      items := NoItems;
    } else {
      var start, end, mark, value := ScannedItem(t, i);
      if At(t, mark, COMMA) {
        var rest := ScannedItems(t, mark + 1);
        items := Item(start, end, mark, value, rest);
      } else {
        items := LastItem(start, end, mark, value);
      }
    }
  }

  lemma {:induction false} ScannedFields(t: Text, i: nat, keys: set<Text>) returns (fields: Fields)
    requires i <= |t| && ScanMembers(t, i, keys).Some?
    ensures ReadsFields(t, i, ScanMembers(t, i, keys).value, fields)
    ensures NewNames(FieldNames(fields), keys) && FieldsRepeatNothing(fields)
    decreases |t| - i, 2
  {
    hide ScanValue, SkipSpace, IsSpace, Reads, ScanString, ScanMembers, Gap, Token;
    if At(t, i, RBRACE) {
      MembersEnd(t, i, keys);
      fields := NoFields;
    } else {
      var nameStart, nameEnd, name, colon := ScannedName(t, i, keys);
      var start, end, mark, value := ScannedItem(t, colon + 1);
      NextMember(t, i, keys, nameStart, nameEnd, name, colon);
      if At(t, mark, COMMA) {
        var rest := ScannedFields(t, mark + 1, keys + {name});
        fields := Field(name, nameStart, nameEnd, colon, start, end, mark, value, rest);
        assert ([name] + FieldNames(rest))[1..] == FieldNames(rest);
      } else {
        fields := LastField(name, nameStart, nameEnd, colon, start, end, mark, value);
        OneName(name, keys);
      }
    }
  }

  lemma ScannedName(t: Text, i: nat, keys: set<Text>) returns (nameStart: nat, nameEnd: nat, name: Text, colon: nat)
    requires i <= |t| && ScanMembers(t, i, keys).Some? && !At(t, i, RBRACE)
    ensures Gap(t, i, nameStart) && Token(t, nameStart, nameEnd, name) && Gap(t, nameEnd, colon) && At(t, colon, COLON)
    ensures i <= nameStart < nameEnd <= colon && SkipSpace(t, i) == nameStart && SkipSpace(t, nameEnd) == colon
    ensures ScanString(t, nameStart) == Some((nameEnd, name)) && name !in keys && ScanValue(t, colon + 1).Some?
  {
    hide ScanValue, SkipSpace, IsSpace, ScanString, Token, Gap;
    SkipIsGap(t, i);
    nameStart := SkipSpace(t, i);
    ScanIsToken(t, nameStart);
    nameEnd, name := ScanString(t, nameStart).value.0, ScanString(t, nameStart).value.1;
    SkipIsGap(t, nameEnd);
    colon := SkipSpace(t, nameEnd);
  }

  /** Of any text at all the scanner says that it repeats nothing exactly when the text is one value between whitespace,
      as the scanner reads values, in which no record repeats a name. */
  lemma AnswersOnEveryText(t: Text)
    ensures NoDuplicates(t) <==>
            exists i: nat, j: nat, v :: Gap(t, 0, i) && Reads(t, i, j, v) && Gap(t, j, |t|) && NoRepeats(v)
  {
    hide ScanValue, SkipSpace, IsSpace, Reads;
    var i := SkipSpace(t, 0);
    SkipIsGap(t, 0);
    SkipTwice(t, 0);
    ScanValueSkips(t, 0, i);
    if NoDuplicates(t) {
      var v := ScannedIsReading(t, i);
      SkipIsGap(t, ScanValue(t, i).value);
      assert Gap(t, 0, i) && Reads(t, i, ScanValue(t, i).value, v) && Gap(t, ScanValue(t, i).value, |t|);
    }
    if k: nat, j: nat, v :| Gap(t, 0, k) && Reads(t, k, j, v) && Gap(t, j, |t|) && NoRepeats(v) {
      ReadingIsScanned(t, k, j, v);
      SkipIsGap(t, j);
    }
  }
}
