/** The texts the parser accepts: exactly the JSON texts of RFC 8259 within its limits, each read as what it denotes. */
module JsonGrammar {
  import opened Basics
  import opened JsonText
  import opened JsonParser
  import Utf8

  // ----- the grammar: derivations, their text and what they denote -----

  /** One character of a string (section 7), with the bytes it stands for where it is escaped by number. */
  datatype Piece =
    | Raw(c: byte)
    | Short(letter: byte)
    | Unit(hex: bytes, u: bytes)
    | Halves(high: bytes, low: bytes, u: bytes)

  /** `ws value ws` (section 2). */
  datatype Doc = Doc(before: bytes, body: Body, after: bytes)

  /** A value; an empty container may hold white space. */
  datatype Body =
    | Word(value: Value)
    | Num(literal: bytes)
    | Str(pieces: seq<Piece>)
    | Arr(gap: bytes, items: seq<Doc>)
    | Obj(gap: bytes, fields: seq<Field>)

  /** `ws string ws : value` (section 4). */
  datatype Field = Field(before: bytes, key: seq<Piece>, after: bytes, value: Doc)

  predicate Hex(c: byte) {
    0x30 <= c <= 0x39 || 0x41 <= c <= 0x46 || 0x61 <= c <= 0x66
  }

  function Nibble(c: byte): (n: nat)
    requires Hex(c)
  {
    if c <= 0x39 then c - 0x30 else if c <= 0x46 then c - 0x41 + 10 else c - 0x61 + 10
  }

  predicate FourHex(s: bytes) {
    |s| == 4 && Hex(s[0]) && Hex(s[1]) && Hex(s[2]) && Hex(s[3])
  }

  function Code(s: bytes): (n: nat)
    requires FourHex(s)
  {
    Nibble(s[0]) * 0x1000 + Nibble(s[1]) * 0x100 + Nibble(s[2]) * 0x10 + Nibble(s[3])
  }

  /** The scalar value a UTF-8 character encodes (section 3 of RFC 3629). */
  function Scalar(u: bytes): (n: nat)
    requires Utf8.IsChar(u)
  {
    var a: int := u[0];
    var b: int := if |u| > 1 then u[1] - 0x80 else 0;
    var c: int := if |u| > 2 then u[2] - 0x80 else 0;
    var d: int := if |u| > 3 then u[3] - 0x80 else 0;
    if |u| == 1 then a
    else if |u| == 2 then (a - 0xC0) * 0x40 + b
    else if |u| == 3 then (a - 0xE0) * 0x1000 + b * 0x40 + c
    else (a - 0xF0) * 0x40000 + b * 0x1000 + c * 0x40 + d
  }

  /** The letters behind a backslash and the bytes they stand for. */
  const LETTERS: map<byte, byte> :=
    map['"' as int := 0x22, '\\' as int := 0x5C, '/' as int := 0x2F, 'b' as int := 0x08,
        'f' as int := 0x0C, 'n' as int := 0x0A, 'r' as int := 0x0D, 't' as int := 0x09]

  predicate PieceOk(p: Piece) {
    match p
    case Raw(c) => c >= 0x20 && c != '"' as int && c != '\\' as int
    case Short(letter) => letter in LETTERS
    case Unit(hex, u) =>
      FourHex(hex) && !(0xD800 <= Code(hex) <= 0xDFFF) && Utf8.IsChar(u) && Scalar(u) == Code(hex)
    case Halves(high, low, u) =>
      && FourHex(high) && 0xD800 <= Code(high) <= 0xDBFF
      && FourHex(low) && 0xDC00 <= Code(low) <= 0xDFFF
      && Utf8.IsChar(u) && Scalar(u) == 0x10000 + (Code(high) - 0xD800) * 0x400 + (Code(low) - 0xDC00)
  }

  function PieceText(p: Piece): (text: bytes) {
    match p
    case Raw(c) => [c]
    case Short(letter) => ['\\' as int, letter]
    case Unit(hex, _) => ['\\' as int, 'u' as int] + hex
    case Halves(high, low, _) => ['\\' as int, 'u' as int] + high + ['\\' as int, 'u' as int] + low
  }

  function PieceBytes(p: Piece): (text: bytes) {
    match p
    case Raw(c) => [c]
    case Short(letter) => if letter in LETTERS then [LETTERS[letter]] else []
    case Unit(_, u) => u
    case Halves(_, _, u) => u
  }

  predicate PiecesOk(ps: seq<Piece>) {
    forall i :: 0 <= i < |ps| ==> PieceOk(ps[i])
  }

  function PiecesText(ps: seq<Piece>): (text: bytes) {
    if ps == [] then [] else PieceText(ps[0]) + PiecesText(ps[1..])
  }

  function PiecesBytes(ps: seq<Piece>): (text: bytes) {
    if ps == [] then [] else PieceBytes(ps[0]) + PiecesBytes(ps[1..])
  }

  predicate Spaces(s: bytes) {
    forall i :: 0 <= i < |s| ==> s[i] == 0x20 || s[i] == 0x09 || s[i] == 0x0A || s[i] == 0x0D
  }

  function BodyText(b: Body): (text: bytes)
    decreases b, 1
  {
    match b
    case Word(v) => if v == Null then Ascii("null") else if v == Bool(true) then Ascii("true") else Ascii("false")
    case Num(literal) => literal
    case Str(pieces) => ['"' as int] + PiecesText(pieces) + ['"' as int]
    case Arr(gap, items) => ['[' as int] + (if items == [] then gap else ItemsOf(items)) + [']' as int]
    case Obj(gap, fields) => ['{' as int] + (if fields == [] then gap else FieldsOf(fields)) + ['}' as int]
  }

  function DocText(d: Doc): (text: bytes)
    decreases d, 2
  {
    d.before + BodyText(d.body) + d.after
  }

  function ItemsOf(items: seq<Doc>): (text: bytes)
    requires items != []
    decreases items, 0
  {
    DocText(items[0]) + if |items| == 1 then [] else [',' as int] + ItemsOf(items[1..])
  }

  function FieldText(f: Field): (text: bytes)
    decreases f, 3
  {
    f.before + (['"' as int] + PiecesText(f.key) + ['"' as int]) + f.after + [':' as int] + DocText(f.value)
  }

  function FieldsOf(fields: seq<Field>): (text: bytes)
    requires fields != []
    decreases fields, 0
  {
    FieldText(fields[0]) + if |fields| == 1 then [] else [',' as int] + FieldsOf(fields[1..])
  }

  /** The tree a derivation denotes. */
  function Denoted(d: Doc): (v: Value)
    decreases d, 2
  {
    BodyValue(d.body)
  }

  function BodyValue(b: Body): (v: Value)
    decreases b, 1
  {
    match b
    case Word(v) => v
    case Num(literal) => Number(literal)
    case Str(pieces) => String(PiecesBytes(pieces))
    case Arr(_, items) => Array(ItemValues(items))
    case Obj(_, fields) => Object(FieldValues(fields))
  }

  function ItemValues(items: seq<Doc>): (values: seq<Value>)
    decreases items, 0
  {
    if items == [] then [] else [Denoted(items[0])] + ItemValues(items[1..])
  }

  function FieldValues(fields: seq<Field>): (members: seq<Member>)
    decreases fields, 0
  {
    if fields == [] then []
    else [Member(PiecesBytes(fields[0].key), Denoted(fields[0].value))] + FieldValues(fields[1..])
  }

  /** A derivation of the grammar, its numbers short enough for the parser's buffer. */
  predicate DocOk(d: Doc)
    decreases d, 2
  {
    Spaces(d.before) && BodyOk(d.body) && Spaces(d.after)
  }

  predicate BodyOk(b: Body)
    decreases b, 1
  {
    match b
    case Word(v) => v.Null? || v.Bool?
    case Num(literal) => IsNumberLiteral(literal) && |literal| < MAX_NUMBER_LEN
    case Str(pieces) => PiecesOk(pieces)
    case Arr(gap, items) => Spaces(gap) && ItemsOk(items)
    case Obj(gap, fields) => Spaces(gap) && FieldsOk(fields)
  }

  predicate ItemsOk(items: seq<Doc>)
    decreases items, 0
  {
    items == [] || (DocOk(items[0]) && ItemsOk(items[1..]))
  }

  predicate FieldsOk(fields: seq<Field>)
    decreases fields, 0
  {
    fields == []
    || (&& Spaces(fields[0].before) && PiecesOk(fields[0].key) && Spaces(fields[0].after)
        && DocOk(fields[0].value) && FieldsOk(fields[1..]))
  }

  // ----- one character -----

  lemma DivideBySextet(q: nat, r: nat)
    requires r < 0x40
    ensures (q * 0x40 + r) / 0x40 == q && (q * 0x40 + r) % 0x40 == r
  {
  }

  lemma DivideByTwo(q: nat, r: nat)
    requires r < 0x1000
    ensures (q * 0x1000 + r) / 0x1000 == q
  {
  }

  lemma DivideByThree(q: nat, r: nat)
    requires r < 0x40000
    ensures (q * 0x40000 + r) / 0x40000 == q
  {
  }

  lemma Sextets(a: nat, b: nat, c: nat, d: nat)
    requires b < 0x40 && c < 0x40 && d < 0x40
    ensures
      var n := a * 0x40000 + b * 0x1000 + c * 0x40 + d;
      && n / 0x40000 == a && n / 0x1000 % 0x40 == b && n / 0x40 % 0x40 == c && n % 0x40 == d
      && n / 0x1000 == a * 0x40 + b && n / 0x40 == a * 0x1000 + b * 0x40 + c
  {
    var n := a * 0x40000 + b * 0x1000 + c * 0x40 + d;
    var high, middle := a * 0x40 + b, a * 0x1000 + b * 0x40 + c;
    assert n == middle * 0x40 + d && n == high * 0x1000 + (c * 0x40 + d) && middle == high * 0x40 + c;
    DivideBySextet(middle, d);
    DivideBySextet(high, c);
    DivideBySextet(a, b);
    DivideByTwo(high, c * 0x40 + d);
    DivideByThree(a, b * 0x1000 + c * 0x40 + d);
  }

  lemma CutSextets(cp: nat)
    ensures cp == cp / 0x40000 * 0x40000 + cp / 0x1000 % 0x40 * 0x1000 + cp / 0x40 % 0x40 * 0x40 + cp % 0x40
  {
    var p, q := cp / 0x40, cp / 0x1000;
    assert cp == p * 0x40 + cp % 0x40;
    assert p / 0x40 == q && p == q * 0x40 + p % 0x40;
    assert q / 0x40 == cp / 0x40000 && q == q / 0x40 * 0x40 + q % 0x40;
  }

  lemma TwoBytes(c: nat, d: nat)
    requires c < 0x20 && d < 0x40
    ensures
      var n, u := c * 0x40 + d, [0xC0 + c, 0x80 + d];
      && (Utf8.IsChar(u) <==> n > 0x7F) && (Utf8.IsChar(u) ==> Scalar(u) == n)
      && (n > 0x7F ==> Utf8Bytes(n) == u)
  {
    Sextets(0, 0, c, d);
  }

  lemma ThreeBytes(b: nat, c: nat, d: nat)
    requires b < 0x10 && c < 0x40 && d < 0x40
    ensures
      var n, u := b * 0x1000 + c * 0x40 + d, [0xE0 + b, 0x80 + c, 0x80 + d];
      && (Utf8.IsChar(u) <==> n > 0x7FF && !(0xD800 <= n <= 0xDFFF)) && (Utf8.IsChar(u) ==> Scalar(u) == n)
      && (n > 0x7FF ==> Utf8Bytes(n) == u)
  {
    Sextets(0, b, c, d);
  }

  lemma FourBytes(a: nat, b: nat, c: nat, d: nat)
    requires a < 8 && b < 0x40 && c < 0x40 && d < 0x40
    ensures
      var n, u := a * 0x40000 + b * 0x1000 + c * 0x40 + d, [0xF0 + a, 0x80 + b, 0x80 + c, 0x80 + d];
      && (Utf8.IsChar(u) <==> 0xFFFF < n <= 0x10FFFF) && (Utf8.IsChar(u) ==> Scalar(u) == n)
      && (n > 0xFFFF ==> Utf8Bytes(n) == u)
  {
    Sextets(a, b, c, d);
  }

  /** The bytes the parser writes for a scalar value are the UTF-8 character that encodes it. */
  lemma ScalarEncoded(cp: nat)
    requires cp <= 0x10FFFF && !(0xD800 <= cp <= 0xDFFF)
    ensures Utf8.IsChar(Utf8Bytes(cp)) && Scalar(Utf8Bytes(cp)) == cp
  {
    CutSextets(cp);
    hide Utf8.IsChar, Scalar, Utf8Bytes;
    if cp <= 0x7F {
      OneByte(cp);
    } else if cp <= 0x7FF {
      TwoBytes(cp / 0x40, cp % 0x40);
    } else if cp <= 0xFFFF {
      ThreeBytes(cp / 0x1000, cp / 0x40 % 0x40, cp % 0x40);
    } else {
      FourBytes(cp / 0x40000, cp / 0x1000 % 0x40, cp / 0x40 % 0x40, cp % 0x40);
    }
  }

  lemma OneByte(c: byte)
    ensures Utf8.IsChar([c]) <==> c <= 0x7F
    ensures c <= 0x7F ==> Scalar([c]) == c && Utf8Bytes(c) == [c]
  {
  }

  /** No other character encodes it. */
  lemma ScalarUnique(u: bytes)
    requires Utf8.IsChar(u)
    ensures Scalar(u) <= 0x10FFFF && !(0xD800 <= Scalar(u) <= 0xDFFF)
    ensures u == Utf8Bytes(Scalar(u))
  {
    LeadBits(u);
    hide Utf8.IsChar, Scalar, Utf8Bytes;
    if |u| == 1 {
      OneByte(u[0]);
      assert u == [u[0]];
    } else if |u| == 2 {
      TwoBytes(u[0] - 0xC0, u[1] - 0x80);
      assert u == [u[0], u[1]];
    } else if |u| == 3 {
      ThreeBytes(u[0] - 0xE0, u[1] - 0x80, u[2] - 0x80);
      assert u == [u[0], u[1], u[2]];
    } else {
      FourBytes(u[0] - 0xF0, u[1] - 0x80, u[2] - 0x80, u[3] - 0x80);
      assert u == [u[0], u[1], u[2], u[3]];
    }
  }

  lemma LeadBits(u: bytes)
    requires Utf8.IsChar(u)
    ensures 1 <= |u| <= 4 && forall i :: 1 <= i < |u| ==> 0x80 <= u[i] < 0xC0
    ensures |u| == 2 ==> 0xC0 <= u[0] < 0xE0
    ensures |u| == 3 ==> 0xE0 <= u[0] < 0xF0
    ensures |u| == 4 ==> 0xF0 <= u[0] < 0xF8
  {
  }

  lemma NibbleRead(c: byte)
    ensures HexValue(c) == if Hex(c) then Some(Nibble(c)) else None
    ensures Hex(c) ==> Nibble(c) < 16
  {
  }

  /** Four hex digits in either case are read as their number; anything else fails. */
  lemma FourDigits(m: Machine, isKey: bool, text: bytes, high: Option<surrogate>, s: bytes)
    requires m.lex == InUnicode(isKey, text, high, 0, 0) && |s| == 4
    ensures Feed(m, s) == if FourHex(s) then UnicodeEscape(m, isKey, text, high, Code(s)) else FAILED
  {
    hide *;
    CodeSays(s);
    TwoAndTwo(s);
    DigitsRead(m, isKey, text, high, s[0], s[1], s[2], s[3]);
  }

  lemma TwoAndTwo(s: bytes)
    requires |s| == 4
    ensures s == [s[0], s[1]] + [s[2], s[3]]
  {
  }

  lemma DigitsRead(
    m: Machine, isKey: bool, text: bytes, high: Option<surrogate>, a: byte, b: byte, c: byte, d: byte)
    requires m.lex == InUnicode(isKey, text, high, 0, 0)
    ensures
      Feed(m, [a, b] + [c, d])
      == if Hex(a) && Hex(b) && Hex(c) && Hex(d) then
           UnicodeEscape(m, isKey, text, high, ((Nibble(a) * 16 + Nibble(b)) * 16 + Nibble(c)) * 16 + Nibble(d))
         else FAILED
  {
    hide *;
    FeedConcat(m, [a, b], [c, d]);
    TwoDigits(m, isKey, text, high, 0, 0, a, b);
    if Hex(a) && Hex(b) {
      var code := Nibble(a) * 16 + Nibble(b);
      var next := m.(lex := InUnicode(isKey, text, high, code, 2));
      assert next.(lex := InUnicode(isKey, text, high, 0, 0)) == m;
      TwoDigits(next, isKey, text, high, code, 2, c, d);
    } else {
      FailedStays([c, d]);
    }
  }

  lemma CodeSays(s: bytes)
    requires |s| == 4
    ensures FourHex(s) <==> Hex(s[0]) && Hex(s[1]) && Hex(s[2]) && Hex(s[3])
    ensures
      FourHex(s) ==> Code(s) == ((Nibble(s[0]) * 16 + Nibble(s[1])) * 16 + Nibble(s[2])) * 16 + Nibble(s[3])
  {
    hide Nibble, Hex;
  }

  lemma TwoDigits(
    m: Machine, isKey: bool, text: bytes, high: Option<surrogate>, code: nat, digits: nat, a: byte, b: byte)
    requires m.lex == InUnicode(isKey, text, high, code, digits) && (digits == 0 || digits == 2)
    ensures
      Feed(m, [a, b])
      == if !Hex(a) || !Hex(b) then FAILED
         else if digits == 0 then
           m.(lex := InUnicode(isKey, text, high, (code * 16 + Nibble(a)) * 16 + Nibble(b), 2))
         else
           UnicodeEscape(m.(lex := InUnicode(isKey, text, high, 0, 0)), isKey, text, high,
                         (code * 16 + Nibble(a)) * 16 + Nibble(b))
  {
    FeedTwo(m, a, b);
    OneDigit(m, isKey, text, high, code, digits, a);
    FailedByte(b);
    hide Feed, FeedByte, Nibble, UnicodeEscape, Hex;
    if Hex(a) {
      var next := m.(lex := InUnicode(isKey, text, high, code * 16 + Nibble(a), digits + 1));
      OneDigit(next, isKey, text, high, code * 16 + Nibble(a), digits + 1, b);
      assert next.(lex := InUnicode(isKey, text, high, 0, 0)) == m.(lex := InUnicode(isKey, text, high, 0, 0));
    }
  }

  lemma OneDigit(m: Machine, isKey: bool, text: bytes, high: Option<surrogate>, code: nat, digits: nat, c: byte)
    requires m.lex == InUnicode(isKey, text, high, code, digits) && digits < 4
    ensures
      FeedByte(m, c)
      == if !Hex(c) then FAILED
         else if digits < 3 then m.(lex := InUnicode(isKey, text, high, code * 16 + Nibble(c), digits + 1))
         else UnicodeEscape(m.(lex := InUnicode(isKey, text, high, 0, 0)), isKey, text, high, code * 16 + Nibble(c))
  {
    NibbleRead(c);
    hide HexValue, Nibble, UnicodeEscape, Hex;
    if Hex(c) {
      EscapeAlike(m, m.(lex := InUnicode(isKey, text, high, 0, 0)), isKey, text, high, code * 16 + Nibble(c));
    }
  }

  lemma FailedByte(c: byte)
    ensures FeedByte(FAILED, c) == FAILED
  {
  }

  lemma EscapeAlike(a: Machine, b: Machine, isKey: bool, text: bytes, high: Option<surrogate>, cp: nat)
    requires a.frames == b.frames && a.root == b.root
    ensures UnicodeEscape(a, isKey, text, high, cp) == UnicodeEscape(b, isKey, text, high, cp)
  {
  }

  // ----- one character of a string -----

  /** Inside a string with nothing pending. */
  function Inside(m: Machine, isKey: bool, text: bytes): (next: Machine) {
    m.(lex := InString(isKey, text, None))
  }

  lemma ShortRead(letter: byte)
    ensures SimpleEscape(letter) == if letter in LETTERS then Some(LETTERS[letter]) else None
    ensures letter in LETTERS ==> letter != 0x75
  {
  }

  lemma FeedThree(m: Machine, a: byte, b: byte, rest: bytes)
    ensures Feed(m, [a, b] + rest) == Feed(FeedByte(FeedByte(m, a), b), rest)
  {
    hide FeedByte;
    FeedConcat(m, [a, b], rest);
    FeedTwo(m, a, b);
  }

  /** A backslash, `u` and four bytes, with or without a high half before them. */
  lemma FeedUnit(m: Machine, isKey: bool, text: bytes, high: Option<surrogate>, s: bytes)
    requires m.lex == InString(isKey, text, high) && |s| == 4
    ensures
      Feed(m, ['\\' as int, 'u' as int] + s)
      == if FourHex(s) then UnicodeEscape(Inside(m, isKey, text), isKey, text, high, Code(s)) else FAILED
  {
    var start := m.(lex := InUnicode(isKey, text, high, 0, 0));
    assert FeedByte(FeedByte(m, '\\' as int), 'u' as int) == start;
    FeedThree(m, '\\' as int, 'u' as int, s);
    hide Feed, FeedByte, FourHex, Code, UnicodeEscape;
    FourDigits(start, isKey, text, high, s);
    if FourHex(s) { EscapeAlike(start, Inside(m, isKey, text), isKey, text, high, Code(s)); }
  }

  lemma UnitRead(m: Machine, isKey: bool, text: bytes, p: Piece)
    requires m.lex == InString(isKey, text, None) && p.Unit? && PieceOk(p)
    ensures Feed(m, PieceText(p)) == Inside(m, isKey, text + PieceBytes(p))
  {
    hide Feed, Utf8.IsChar, Scalar, Utf8Bytes, Code, Hex;
    FeedUnit(m, isKey, text, None, p.hex);
    ScalarUnique(p.u);
  }

  lemma HighRead(m: Machine, isKey: bool, text: bytes, high: bytes)
    requires m.lex == InString(isKey, text, None) && FourHex(high) && 0xD800 <= Code(high) <= 0xDBFF
    ensures
      Feed(m, ['\\' as int, 'u' as int] + high) == m.(lex := InString(isKey, text, Some(Code(high))))
  {
    hide Feed, Code, Hex;
    FeedUnit(m, isKey, text, None, high);
  }

  lemma LowRead(m: Machine, isKey: bool, text: bytes, p: Piece)
    requires p.Halves? && PieceOk(p) && m.lex == InString(isKey, text, Some(Code(p.high)))
    ensures Feed(m, ['\\' as int, 'u' as int] + p.low) == Inside(m, isKey, text + PieceBytes(p))
  {
    hide Feed, Utf8.IsChar, Scalar, Utf8Bytes, Code, Hex;
    FeedUnit(m, isKey, text, Some(Code(p.high)), p.low);
    ScalarUnique(p.u);
  }

  /** Every well-formed character of a string is read as the bytes it stands for. */
  lemma FeedPiece(m: Machine, isKey: bool, text: bytes, p: Piece)
    requires m.lex == InString(isKey, text, None) && PieceOk(p)
    ensures Feed(m, PieceText(p)) == Inside(m, isKey, text + PieceBytes(p))
  {
    match p
    case Raw(c) => FeedOne(m, c);
    case Short(letter) =>
      ShortRead(letter);
      FeedTwo(m, '\\' as int, letter);
      hide Feed;
    case Unit(_, _) => UnitRead(m, isKey, text, p);
    case Halves(high, low, _) => HalvesRead(m, isKey, text, p);
  }

  lemma HalvesRead(m: Machine, isKey: bool, text: bytes, p: Piece)
    requires m.lex == InString(isKey, text, None) && p.Halves? && PieceOk(p)
    ensures Feed(m, PieceText(p)) == Inside(m, isKey, text + PieceBytes(p))
  {
    hide Feed, Utf8.IsChar, Scalar, Code, FourHex;
    var lead := ['\\' as int, 'u' as int];
    HighRead(m, isKey, text, p.high);
    LowRead(m.(lex := InString(isKey, text, Some(Code(p.high)))), isKey, text, p);
    FeedConcat(m, lead + p.high, lead + p.low);
    assert PieceText(p) == (lead + p.high) + (lead + p.low);
  }

  /** The numbered escape of any scalar value, in either hex case, is read as the character that encodes it. */
  lemma ScalarRead(m: Machine, isKey: bool, text: bytes, hex: bytes) returns (u: bytes)
    requires m.lex == InString(isKey, text, None) && FourHex(hex) && !(0xD800 <= Code(hex) <= 0xDFFF)
    ensures Utf8.IsChar(u) && Scalar(u) == Code(hex)
    ensures Feed(m, ['\\' as int, 'u' as int] + hex) == Inside(m, isKey, text + u)
  {
    ScalarEncoded(Code(hex));
    u := Utf8Bytes(Code(hex));
    FeedPiece(m, isKey, text, Unit(hex, u));
    hide Feed, Utf8.IsChar, Scalar, Utf8Bytes, Hex;
  }

  /** So are the two halves of one beyond 16 bits. */
  lemma PairRead(m: Machine, isKey: bool, text: bytes, high: bytes, low: bytes) returns (u: bytes)
    requires m.lex == InString(isKey, text, None) && FourHex(high) && FourHex(low)
    requires 0xD800 <= Code(high) <= 0xDBFF && 0xDC00 <= Code(low) <= 0xDFFF
    ensures Utf8.IsChar(u) && Scalar(u) == 0x10000 + (Code(high) - 0xD800) * 0x400 + (Code(low) - 0xDC00)
    ensures
      Feed(m, ['\\' as int, 'u' as int] + high + ['\\' as int, 'u' as int] + low) == Inside(m, isKey, text + u)
  {
    var cp := 0x10000 + (Code(high) - 0xD800) * 0x400 + (Code(low) - 0xDC00);
    ScalarEncoded(cp);
    u := Utf8Bytes(cp);
    FeedPiece(m, isKey, text, Halves(high, low, u));
    hide Feed, Utf8.IsChar, Scalar, Utf8Bytes, Hex, Code;
  }

  /** A low half alone fails, and so does a high half with anything but a low one behind it. */
  lemma LoneHalfFails(m: Machine, isKey: bool, text: bytes, half: bytes, next: bytes, c: byte)
    requires m.lex == InString(isKey, text, None) && FourHex(half) && FourHex(next)
    ensures 0xDC00 <= Code(half) <= 0xDFFF ==> Feed(m, ['\\' as int, 'u' as int] + half) == FAILED
    ensures
      0xD800 <= Code(half) <= 0xDBFF ==>
        var waiting := Feed(m, ['\\' as int, 'u' as int] + half);
        && (c != '\\' as int ==> FeedByte(waiting, c) == FAILED)
        && (c != 'u' as int ==> FeedByte(FeedByte(waiting, '\\' as int), c) == FAILED)
        && (!(0xDC00 <= Code(next) <= 0xDFFF) ==> Feed(waiting, ['\\' as int, 'u' as int] + next) == FAILED)
  {
    FeedUnit(m, isKey, text, None, half);
    if 0xD800 <= Code(half) <= 0xDBFF {
      FeedUnit(m.(lex := InString(isKey, text, Some(Code(half)))), isKey, text, Some(Code(half)), next);
    }
    hide Feed, Code, FourHex, Utf8Bytes;
  }

  lemma {:induction false} FeedPieces(m: Machine, isKey: bool, text: bytes, ps: seq<Piece>)
    requires m.lex == InString(isKey, text, None) && PiecesOk(ps)
    ensures Feed(m, PiecesText(ps)) == Inside(m, isKey, text + PiecesBytes(ps))
    decreases ps
  {
    hide PieceOk, PieceText, PieceBytes, FeedByte;
    if ps == [] {
      assert text + [] == text;
    } else {
      FeedPiece(m, isKey, text, ps[0]);
      FeedConcat(m, PieceText(ps[0]), PiecesText(ps[1..]));
      FeedPieces(Inside(m, isKey, text + PieceBytes(ps[0])), isKey, text + PieceBytes(ps[0]), ps[1..]);
      assert text + PieceBytes(ps[0]) + PiecesBytes(ps[1..]) == text + PiecesBytes(ps);
    }
  }

  /** A string, fed behind its opening quote, arrives whole. */
  lemma FeedString(m: Machine, isKey: bool, ps: seq<Piece>, rest: bytes)
    requires m.lex == InString(isKey, [], None) && PiecesOk(ps)
    ensures Feed(m, PiecesText(ps) + [QUOTE] + rest) == Feed(FinishString(m, isKey, PiecesBytes(ps)), rest)
  {
    FeedPieces(m, isKey, [], ps);
    assert [] + PiecesBytes(ps) == PiecesBytes(ps);
    FeedConcat(m, PiecesText(ps), [QUOTE] + rest);
    assert PiecesText(ps) + [QUOTE] + rest == PiecesText(ps) + ([QUOTE] + rest);
    FeedHead(Inside(m, isKey, PiecesBytes(ps)), QUOTE, rest);
    hide Feed;
  }

  // ----- what is accepted is a string of such characters -----

  /** The rest of the text completes the document. */
  predicate Accepts(m: Machine, s: bytes) {
    Finish(Feed(m, s)).lex.Done?
  }

  lemma NeverAccepts(s: bytes)
    ensures !Accepts(FAILED, s)
  {
    FailedStays(s);
  }

  lemma {:induction false} Unfinished(
    m: Machine, isKey: bool, text: bytes, high: Option<surrogate>, code: nat, digits: nat, s: bytes)
    requires m.lex == InUnicode(isKey, text, high, code, digits) && digits + |s| < 4
    ensures !Accepts(m, s)
    decreases s
  {
    if s != [] {
      OneDigit(m, isKey, text, high, code, digits, s[0]);
      if Hex(s[0]) {
        Unfinished(FeedByte(m, s[0]), isKey, text, high, code * 16 + Nibble(s[0]), digits + 1, s[1..]);
      } else {
        NeverAccepts(s[1..]);
      }
    }
  }

  /** Behind a backslash and `u` there are four hex digits. */
  lemma UnitCut(m: Machine, isKey: bool, text: bytes, high: Option<surrogate>, s: bytes)
    returns (hex: bytes, rest: bytes)
    requires m.lex == InString(isKey, text, high) && |s| >= 2 && s[0] == '\\' as int && s[1] == 'u' as int
    requires Accepts(m, s)
    ensures s == ['\\' as int, 'u' as int] + hex + rest && FourHex(hex)
    ensures Accepts(UnicodeEscape(Inside(m, isKey, text), isKey, text, high, Code(hex)), rest)
  {
    var lead := ['\\' as int, 'u' as int];
    var start := m.(lex := InUnicode(isKey, text, high, 0, 0));
    assert s == lead + s[2..];
    assert FeedByte(FeedByte(m, '\\' as int), 'u' as int) == start;
    hide FeedByte, UnicodeEscape, Hex, Code;
    FeedThree(m, '\\' as int, 'u' as int, s[2..]);
    if |s| < 6 { Unfinished(start, isKey, text, high, 0, 0, s[2..]); }
    hex, rest := s[2..6], s[6..];
    assert s == (lead + hex) + rest;
    FeedUnit(m, isKey, text, high, hex);
    FeedConcat(m, lead + hex, rest);
    NeverAccepts(rest);
  }

  /** A numbered escape, or the two halves of one. */
  lemma EscapeCut(m: Machine, isKey: bool, text: bytes, s: bytes) returns (p: Piece, rest: bytes)
    requires m.lex == InString(isKey, text, None) && |s| >= 2 && s[0] == '\\' as int && s[1] == 'u' as int
    requires Accepts(m, s)
    ensures PieceOk(p) && s == PieceText(p) + rest
  {
    var hex, tail := UnitCut(m, isKey, text, None, s);
    NeverAccepts(tail);
    hide Feed, FeedByte, Utf8.IsChar, Scalar, Utf8Bytes, Hex, Code;
    if 0xD800 <= Code(hex) <= 0xDBFF {
      var low;
      low, rest := LowCut(m.(lex := InString(isKey, text, Some(Code(hex)))), isKey, text, Code(hex), tail);
      var cp := 0x10000 + (Code(hex) - 0xD800) * 0x400 + (Code(low) - 0xDC00);
      ScalarEncoded(cp);
      p := Halves(hex, low, Utf8Bytes(cp));
    } else {
      ScalarEncoded(Code(hex));
      p, rest := Unit(hex, Utf8Bytes(Code(hex))), tail;
    }
  }

  lemma FeedSingle(m: Machine, s: bytes)
    requires s != []
    ensures |s| == 1 ==> Feed(m, s) == FeedByte(m, s[0])
  {
    if |s| == 1 {
      assert s == [s[0]];
      FeedOne(m, s[0]);
    }
  }

  /** Behind a high half there is a low one. */
  lemma LowCut(m: Machine, isKey: bool, text: bytes, high: surrogate, s: bytes) returns (low: bytes, rest: bytes)
    requires m.lex == InString(isKey, text, Some(high)) && Accepts(m, s)
    ensures s == ['\\' as int, 'u' as int] + low + rest && FourHex(low) && 0xDC00 <= Code(low) <= 0xDFFF
  {
    assert s != [];
    if s[0] != '\\' as int { NeverAccepts(s[1..]); }
    FeedSingle(m, s);
    if |s| > 1 && s[1] != 'u' as int {
      FeedThree(m, s[0], s[1], s[2..]);
      assert s == [s[0], s[1]] + s[2..];
      NeverAccepts(s[2..]);
    }
    low, rest := UnitCut(m, isKey, text, Some(high), s);
    NeverAccepts(rest);
  }

  /** The next character of a string that is not its end. */
  lemma PieceCut(m: Machine, isKey: bool, text: bytes, s: bytes) returns (p: Piece, rest: bytes)
    requires m.lex == InString(isKey, text, None) && s != [] && s[0] != QUOTE && Accepts(m, s)
    ensures PieceOk(p) && s == PieceText(p) + rest
  {
    FeedSingle(m, s);
    if s[0] == BACKSLASH {
      if |s| > 1 && s[1] == 'u' as int {
        p, rest := EscapeCut(m, isKey, text, s);
      } else {
        ShortRead(if |s| > 1 then s[1] else 0);
        if |s| > 1 {
          FeedThree(m, s[0], s[1], s[2..]);
          assert s == [s[0], s[1]] + s[2..];
          NeverAccepts(s[2..]);
        }
        p, rest := Short(s[1]), s[2..];
      }
    } else {
      if s[0] < 0x20 { NeverAccepts(s[1..]); }
      p, rest := Raw(s[0]), s[1..];
    }
  }

  /** A string: characters up to the closing quote. */
  lemma {:induction false} StringCut(m: Machine, isKey: bool, text: bytes, s: bytes)
    returns (ps: seq<Piece>, rest: bytes)
    requires m.lex == InString(isKey, text, None) && Accepts(m, s)
    ensures PiecesOk(ps) && s == PiecesText(ps) + [QUOTE] + rest
    decreases |s|
  {
    assert s != [];
    if s[0] == QUOTE {
      ps, rest := [], s[1..];
    } else {
      var p, tail := PieceCut(m, isKey, text, s);
      PieceTakes(p);
      FeedPiece(m, isKey, text, p);
      FeedConcat(m, PieceText(p), tail);
      hide Feed, PieceOk, PieceText, PieceBytes;
      var more;
      more, rest := StringCut(Inside(m, isKey, text + PieceBytes(p)), isKey, text + PieceBytes(p), tail);
      ps := [p] + more;
      assert PieceText(p) + (PiecesText(more) + [QUOTE] + rest) == PieceText(p) + PiecesText(more) + [QUOTE] + rest;
    }
  }

  lemma PieceTakes(p: Piece)
    ensures PieceText(p) != []
  {
  }

  // ----- white space -----

  /** Between tokens, or behind the whole document. */
  predicate Resting(m: Machine) {
    m.lex.Between? || m.lex.Done?
  }

  lemma {:induction false} SpacesSkipped(m: Machine, ws: bytes)
    requires Resting(m) && Spaces(ws)
    ensures Feed(m, ws) == m
    decreases ws
  {
    if ws != [] {
      assert ws[0] == 0x20 || ws[0] == 0x09 || ws[0] == 0x0A || ws[0] == 0x0D;
      assert FeedByte(m, ws[0]) == m;
      SpacesSkipped(m, ws[1..]);
    }
  }

  /** White space finishes a number and changes nothing else. */
  lemma SpacesSettle(m: Machine, ws: bytes)
    requires Resting(Settle(m)) && Spaces(ws)
    ensures Settle(Feed(m, ws)) == Settle(m)
  {
    if ws == [] {
    } else {
      SettledFeed(m, ws[0]);
      SpacesSkipped(Settle(m), ws);
    }
  }

  lemma AttachRests(frames: seq<Frame>, v: Value)
    ensures Resting(Attach(frames, v)) && Settle(Attach(frames, v)) == Attach(frames, v)
  {
  }
}
