/** JSON trees and the text RFC 8259 gives them: what writer and parser must agree on. */
module JsonText {
  import opened Basics

  /** A tree. Numbers stay the literal they were written with; duplicate keys are kept, in order. */
  datatype Value =
    | Null
    | Bool(b: bool)
    | Number(literal: bytes)
    | String(text: bytes)
    | Array(items: seq<Value>)
    | Object(members: seq<Member>)

  datatype Member = Member(key: bytes, value: Value)

  const QUOTE: byte := 0x22
  const BACKSLASH: byte := 0x5C
  const COMMA: byte := 0x2C
  const COLON: byte := 0x3A
  const MINUS: byte := 0x2D
  const OPEN_BRACKET: byte := 0x5B
  const CLOSE_BRACKET: byte := 0x5D
  const OPEN_BRACE: byte := 0x7B
  const CLOSE_BRACE: byte := 0x7D

  const NULL_WORD: bytes := [0x6E, 0x75, 0x6C, 0x6C]
  const TRUE_WORD: bytes := [0x74, 0x72, 0x75, 0x65]
  const FALSE_WORD: bytes := [0x66, 0x61, 0x6C, 0x73, 0x65]

  const MAX_DEPTH: nat := 1000
  const MAX_NUMBER_LEN: nat := 512

  predicate IsSpace(c: byte) {
    c == 0x20 || c == 0x09 || c == 0x0A || c == 0x0D
  }

  predicate IsDigit(c: byte) {
    0x30 <= c <= 0x39
  }

  /** The bytes that keep a number token going: digits and `.eE+-`. */
  predicate IsNumberByte(c: byte) {
    IsDigit(c) || c == 0x2E || c == 0x65 || c == 0x45 || c == 0x2B || c == MINUS
  }

  predicate AllNumberBytes(s: bytes) {
    forall i :: 0 <= i < |s| ==> IsNumberByte(s[i])
  }

  /** What follows the leading digits of `s`. */
  function SkipDigits(s: bytes): (text: bytes) {
    if s != [] && IsDigit(s[0]) then SkipDigits(s[1..]) else s
  }

  predicate AfterExponentSign(s: bytes) {
    s != [] && IsDigit(s[0]) && SkipDigits(s) == []
  }

  predicate ExponentPart(s: bytes) {
    if s != [] && (s[0] == 0x65 || s[0] == 0x45) then
      if |s| > 1 && (s[1] == 0x2B || s[1] == MINUS) then AfterExponentSign(s[2..])
      else AfterExponentSign(s[1..])
    else s == []
  }

  predicate FractionPart(s: bytes) {
    if s != [] && s[0] == 0x2E then
      |s| > 1 && IsDigit(s[1]) && ExponentPart(SkipDigits(s[1..]))
    else ExponentPart(s)
  }

  predicate IntegerPart(s: bytes) {
    if s == [] then false
    else if s[0] == 0x30 then FractionPart(s[1..])
    else IsDigit(s[0]) && FractionPart(SkipDigits(s))
  }

  /** The number grammar, read left to right as `validate_json_number` reads it. */
  predicate IsNumberLiteral(s: bytes) {
    IntegerPart(if s != [] && s[0] == MINUS then s[1..] else s)
  }

  function HexDigit(n: nat): (b: byte)
    requires n < 16
  {
    if n < 10 then 0x30 + n else 0x61 + (n - 10)
  }

  /** The escape of one string byte. */
  function EscapeByte(c: byte): (text: bytes) {
    if c == QUOTE then [BACKSLASH, QUOTE]
    else if c == BACKSLASH then [BACKSLASH, BACKSLASH]
    else if c == 0x08 then [BACKSLASH, 0x62]
    else if c == 0x0C then [BACKSLASH, 0x66]
    else if c == 0x0A then [BACKSLASH, 0x6E]
    else if c == 0x0D then [BACKSLASH, 0x72]
    else if c == 0x09 then [BACKSLASH, 0x74]
    else if c < 0x20 then [BACKSLASH, 0x75, 0x30, 0x30, HexDigit(c / 16), HexDigit(c % 16)]
    else [c]
  }

  function Escape(s: bytes): (text: bytes) {
    if s == [] then [] else EscapeByte(s[0]) + Escape(s[1..])
  }

  function Quote(s: bytes): (text: bytes) {
    [QUOTE] + Escape(s) + [QUOTE]
  }

  /** The compact text of a tree. */
  function Text(v: Value): (result: bytes)
    decreases v, 1
  {
    match v
    case Null => NULL_WORD
    case Bool(b) => if b then TRUE_WORD else FALSE_WORD
    case Number(literal) => literal
    case String(text) => Quote(text)
    case Array(items) => [OPEN_BRACKET] + ItemsText(items, true) + [CLOSE_BRACKET]
    case Object(members) => [OPEN_BRACE] + MembersText(members, true) + [CLOSE_BRACE]
  }

  function ItemsText(items: seq<Value>, first: bool): (text: bytes)
    decreases items, 0
  {
    if items == [] then []
    else (if first then [] else [COMMA]) + Text(items[0]) + ItemsText(items[1..], false)
  }

  function MembersText(members: seq<Member>, first: bool): (text: bytes)
    decreases members, 0
  {
    if members == [] then []
    else
      (if first then [] else [COMMA]) + Quote(members[0].key) + [COLON] + Text(members[0].value)
      + MembersText(members[1..], false)
  }

  function Max(a: nat, b: nat): (n: nat) {
    if a < b then b else a
  }

  /** How many containers are open at the deepest point. */
  function Depth(v: Value): (n: nat)
    decreases v, 1
  {
    match v
    case Array(items) => 1 + ItemsDepth(items)
    case Object(members) => 1 + MembersDepth(members)
    case _ => 0
  }

  function ItemsDepth(items: seq<Value>): (n: nat)
    decreases items, 0
  {
    if items == [] then 0 else Max(Depth(items[0]), ItemsDepth(items[1..]))
  }

  function MembersDepth(members: seq<Member>): (n: nat)
    decreases members, 0
  {
    if members == [] then 0 else Max(Depth(members[0].value), MembersDepth(members[1..]))
  }

  /** Every number in the tree is a literal the parser's 512-byte buffer can hold. */
  predicate NumbersFit(v: Value)
    decreases v, 1
  {
    match v
    case Number(literal) => IsNumberLiteral(literal) && |literal| < MAX_NUMBER_LEN
    case Array(items) => ItemsFit(items)
    case Object(members) => MembersFit(members)
    case _ => true
  }

  predicate ItemsFit(items: seq<Value>)
    decreases items, 0
  {
    items == [] || (NumbersFit(items[0]) && ItemsFit(items[1..]))
  }

  predicate MembersFit(members: seq<Member>)
    decreases members, 0
  {
    members == [] || (NumbersFit(members[0].value) && MembersFit(members[1..]))
  }

  /** The first member with this key, as `oi_json_object_get` finds it. */
  function Lookup(members: seq<Member>, key: bytes): (found: Option<Value>) {
    if members == [] then None
    else if members[0].key == key then Some(members[0].value)
    else Lookup(members[1..], key)
  }

  lemma {:induction false} SkipDigitsBytes(s: bytes)
    requires AllNumberBytes(SkipDigits(s))
    ensures AllNumberBytes(s)
  {
    if s != [] && IsDigit(s[0]) {
      SkipDigitsBytes(s[1..]);
      assert s == [s[0]] + s[1..];
    }
  }

  lemma ExponentBytes(s: bytes)
    requires ExponentPart(s)
    ensures AllNumberBytes(s)
  {
    if s != [] {
      if |s| > 1 && (s[1] == 0x2B || s[1] == MINUS) {
        SkipDigitsBytes(s[2..]);
        assert s == s[..2] + s[2..];
      } else {
        SkipDigitsBytes(s[1..]);
        assert s == [s[0]] + s[1..];
      }
    }
  }

  lemma FractionBytes(s: bytes)
    requires FractionPart(s)
    ensures AllNumberBytes(s)
  {
    if s != [] && s[0] == 0x2E {
      ExponentBytes(SkipDigits(s[1..]));
      SkipDigitsBytes(s[1..]);
      assert s == [s[0]] + s[1..];
    } else {
      ExponentBytes(s);
    }
  }

  /** A literal is made of number bytes only and starts with a minus sign or a digit. */
  lemma LiteralBytes(s: bytes)
    requires IsNumberLiteral(s)
    ensures s != [] && (s[0] == MINUS || IsDigit(s[0]))
    ensures AllNumberBytes(s)
  {
    var a := if s[0] == MINUS then s[1..] else s;
    if a[0] == 0x30 {
      FractionBytes(a[1..]);
      assert a == [a[0]] + a[1..];
    } else {
      FractionBytes(SkipDigits(a));
      SkipDigitsBytes(a);
    }
    assert s[0] == MINUS ==> s == [s[0]] + a;
  }
}
