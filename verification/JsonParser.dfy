/** The byte-step parser of src/json_parse.c as a machine on values. */
module JsonParser {
  import opened Basics
  import opened JsonText

  /** What the innermost open container accepts next. */
  datatype Expect = ElementOrClose | Element | CommaOrClose | ColonDue | ValueDue

  datatype Frame =
    | ArrayFrame(items: seq<Value>, due: Expect)
    | ObjectFrame(members: seq<Member>, key: bytes, due: Expect)

  /** The high half of a UTF-16 pair. */
  type surrogate = n: nat | 0xD800 <= n <= 0xDBFF witness 0xD800

  /** The token under way; a high surrogate waits in `high` for its low half. */
  datatype Lex =
    | Between
    | InString(isKey: bool, text: bytes, high: Option<surrogate>)
    | InEscape(isKey: bool, text: bytes, high: Option<surrogate>)
    | InUnicode(isKey: bool, text: bytes, high: Option<surrogate>, code: nat, digits: nat)
    | InNumber(literal: bytes)
    | InLiteral(word: bytes, index: nat)
    | Done
    | Error

  datatype Machine = Machine(lex: Lex, frames: seq<Frame>, root: Option<Value>)

  const START: Machine := Machine(Between, [], None)
  const FAILED: Machine := Machine(Error, [], None)

  function Top(frames: seq<Frame>): (f: Frame)
    requires frames != []
  {
    frames[|frames| - 1]
  }

  function Pop(frames: seq<Frame>): (result: seq<Frame>)
    requires frames != []
  {
    frames[..|frames| - 1]
  }

  function SetTop(frames: seq<Frame>, f: Frame): (result: seq<Frame>)
    requires frames != []
  {
    frames[|frames| - 1 := f]
  }

  function Expecting(frames: seq<Frame>, e: Expect): (result: seq<Frame>)
    requires frames != []
  {
    SetTop(frames, Top(frames).(due := e))
  }

  /** The frame after a finished child joins its container. */
  function Joined(f: Frame, v: Value): (result: Frame) {
    match f
    case ArrayFrame(items, _) => ArrayFrame(items + [v], CommaOrClose)
    case ObjectFrame(members, key, _) => ObjectFrame(members + [Member(key, v)], [], CommaOrClose)
  }

  function Attach(frames: seq<Frame>, v: Value): (next: Machine) {
    if frames == [] then Machine(Done, [], Some(v))
    else Machine(Between, SetTop(frames, Joined(Top(frames), v)), None)
  }

  function AttachKey(frames: seq<Frame>, key: bytes): (next: Machine) {
    if frames != [] && Top(frames).ObjectFrame? then
      Machine(Between, SetTop(frames, Top(frames).(key := key, due := ColonDue)), None)
    else FAILED
  }

  function Closed(f: Frame): (value: Value) {
    match f
    case ArrayFrame(items, _) => Array(items)
    case ObjectFrame(members, _, _) => Object(members)
  }

  function PushFrame(m: Machine, f: Frame): (next: Machine) {
    if |m.frames| >= MAX_DEPTH then FAILED else Machine(Between, m.frames + [f], None)
  }

  /** An object slot that needs a key, not a value. */
  predicate KeyDue(frames: seq<Frame>) {
    && frames != []
    && Top(frames).ObjectFrame?
    && (Top(frames).due.ElementOrClose? || Top(frames).due.Element?)
  }

  function StartValue(m: Machine, c: byte): (next: Machine) {
    if KeyDue(m.frames) && c != QUOTE then FAILED
    else if c == OPEN_BRACE then PushFrame(m, ObjectFrame([], [], ElementOrClose))
    else if c == OPEN_BRACKET then PushFrame(m, ArrayFrame([], ElementOrClose))
    else if c == QUOTE then m.(lex := InString(KeyDue(m.frames), [], None))
    else if c == 0x74 then m.(lex := InLiteral(TRUE_WORD, 1))
    else if c == 0x66 then m.(lex := InLiteral(FALSE_WORD, 1))
    else if c == 0x6E then m.(lex := InLiteral(NULL_WORD, 1))
    else if c == MINUS || IsDigit(c) then m.(lex := InNumber([c]))
    else FAILED
  }

  function CloseByte(f: Frame): (b: byte) {
    if f.ArrayFrame? then CLOSE_BRACKET else CLOSE_BRACE
  }

  function PopContainer(frames: seq<Frame>): (next: Machine)
    requires frames != []
  {
    Attach(Pop(frames), Closed(Top(frames)))
  }

  function BetweenTokens(m: Machine, c: byte): (next: Machine) {
    if IsSpace(c) then m
    else if m.frames == [] then StartValue(m, c)
    else
      var top := Top(m.frames);
      match top.due
      case ElementOrClose => if c == CloseByte(top) then PopContainer(m.frames) else StartValue(m, c)
      case Element => StartValue(m, c)
      case CommaOrClose =>
        if c == CloseByte(top) then PopContainer(m.frames)
        else if c == COMMA then m.(frames := Expecting(m.frames, Element))
        else FAILED
      case ColonDue => if c == COLON then m.(frames := Expecting(m.frames, ValueDue)) else FAILED
      case ValueDue => StartValue(m, c)
  }

  function FinishString(m: Machine, isKey: bool, text: bytes): (next: Machine) {
    if isKey then AttachKey(m.frames, text) else Attach(m.frames, String(text))
  }

  function StringByte(m: Machine, c: byte): (next: Machine)
    requires m.lex.InString?
  {
    var InString(isKey, text, high) := m.lex;
    if c == QUOTE then (if high.Some? then FAILED else FinishString(m, isKey, text))
    else if c == BACKSLASH then m.(lex := InEscape(isKey, text, high))
    else if high.Some? || c < 0x20 then FAILED
    else m.(lex := InString(isKey, text + [c], None))
  }

  function SimpleEscape(c: byte): (result: Option<byte>) {
    if c == QUOTE || c == BACKSLASH || c == 0x2F then Some(c)
    else if c == 0x62 then Some(0x08)
    else if c == 0x66 then Some(0x0C)
    else if c == 0x6E then Some(0x0A)
    else if c == 0x72 then Some(0x0D)
    else if c == 0x74 then Some(0x09)
    else None
  }

  function EscapeStep(m: Machine, c: byte): (next: Machine)
    requires m.lex.InEscape?
  {
    var InEscape(isKey, text, high) := m.lex;
    if high.Some? && c != 0x75 then FAILED
    else if c == 0x75 then m.(lex := InUnicode(isKey, text, high, 0, 0))
    else
      match SimpleEscape(c)
      case None => FAILED
      case Some(mapped) => m.(lex := InString(isKey, text + [mapped], high))
  }

  function HexValue(c: byte): (found: Option<nat>) {
    if 0x30 <= c <= 0x39 then Some(c - 0x30)
    else if 0x61 <= c <= 0x66 then Some(10 + (c - 0x61))
    else if 0x41 <= c <= 0x46 then Some(10 + (c - 0x41))
    else None
  }

  /** The UTF-8 bytes of a code point below 0x200000. */
  function Utf8Bytes(cp: nat): (text: bytes) {
    if cp <= 0x7F then [cp]
    else if cp <= 0x7FF then [0xC0 + cp / 0x40, 0x80 + cp % 0x40]
    else if cp <= 0xFFFF then [0xE0 + cp / 0x1000, 0x80 + cp / 0x40 % 0x40, 0x80 + cp % 0x40]
    else [0xF0 + cp / 0x40000 % 8, 0x80 + cp / 0x1000 % 0x40, 0x80 + cp / 0x40 % 0x40, 0x80 + cp % 0x40]
  }

  /** Four hex digits are in: pair surrogates, refuse lone ones, and append the rest as UTF-8. */
  function UnicodeEscape(m: Machine, isKey: bool, text: bytes, high: Option<surrogate>, cp: nat): (next: Machine) {
    if high.Some? then
      if cp < 0xDC00 || cp > 0xDFFF then FAILED
      else
        var combined := 0x10000 + (high.value - 0xD800) * 0x400 + (cp - 0xDC00);
        m.(lex := InString(isKey, text + Utf8Bytes(combined), None))
    else if 0xD800 <= cp <= 0xDBFF then m.(lex := InString(isKey, text, Some(cp)))
    else if 0xDC00 <= cp <= 0xDFFF then FAILED
    else m.(lex := InString(isKey, text + Utf8Bytes(cp), None))
  }

  function UnicodeStep(m: Machine, c: byte): (next: Machine)
    requires m.lex.InUnicode?
  {
    var InUnicode(isKey, text, high, code, digits) := m.lex;
    match HexValue(c)
    case None => FAILED
    case Some(d) =>
      if digits + 1 < 4 then m.(lex := InUnicode(isKey, text, high, code * 16 + d, digits + 1))
      else UnicodeEscape(m, isKey, text, high, code * 16 + d)
  }

  function FinishNumber(m: Machine): (next: Machine)
    requires m.lex.InNumber?
  {
    if IsNumberLiteral(m.lex.literal) then Attach(m.frames, Number(m.lex.literal)) else FAILED
  }

  function LiteralValue(word: bytes): (value: Value) {
    if word == NULL_WORD then Null else Bool(word == TRUE_WORD)
  }

  function LiteralStep(m: Machine, c: byte): (next: Machine)
    requires m.lex.InLiteral?
  {
    var InLiteral(word, index) := m.lex;
    if index >= |word| || c != word[index] then FAILED
    else if index + 1 < |word| then m.(lex := InLiteral(word, index + 1))
    else Attach(m.frames, LiteralValue(word))
  }

  /** One step; the flag says whether the byte was consumed. Only the end of a number gives it back. */
  function Step(m: Machine, c: byte): (result: (Machine, bool)) {
    match m.lex
    case Between => (BetweenTokens(m, c), true)
    case InString(_, _, _) => (StringByte(m, c), true)
    case InEscape(_, _, _) => (EscapeStep(m, c), true)
    case InUnicode(_, _, _, _, _) => (UnicodeStep(m, c), true)
    case InNumber(literal) =>
      if IsNumberByte(c) then
        (if |literal| >= MAX_NUMBER_LEN - 1 then FAILED else m.(lex := InNumber(literal + [c])), true)
      else (FinishNumber(m), false)
    case InLiteral(_, _) => (LiteralStep(m, c), true)
    case Done => (if IsSpace(c) then m else FAILED, true)
    case Error => (FAILED, true)
  }

  function FeedByte(m: Machine, c: byte): (result: Machine) {
    var (next, consumed) := Step(m, c);
    if consumed then next else Step(next, c).0
  }

  function Feed(m: Machine, s: bytes): (next: Machine)
    decreases s
  {
    if s == [] then m else Feed(FeedByte(m, s[0]), s[1..])
  }

  function Finish(m: Machine): (next: Machine) {
    match m.lex
    case Done => m
    case InNumber(_) => if FinishNumber(m).lex.Done? then FinishNumber(m) else FAILED
    case _ => FAILED
  }

  /** The root of a whole document, if it is one. */
  function Parse(s: bytes): (found: Option<Value>) {
    Finish(Feed(START, s)).root
  }

  /** Feeding chunk after chunk. */
  function FeedChunks(m: Machine, chunks: seq<bytes>): (next: Machine)
    decreases chunks
  {
    if chunks == [] then m else FeedChunks(Feed(m, chunks[0]), chunks[1..])
  }

  lemma {:induction false} FeedConcat(m: Machine, a: bytes, b: bytes)
    ensures Feed(m, a + b) == Feed(Feed(m, a), b)
    decreases a
  {
    if a == [] {
      assert a + b == b;
    } else {
      FeedConcat(FeedByte(m, a[0]), a[1..], b);
      assert (a + b)[1..] == a[1..] + b;
    }
  }

  /** However the bytes are cut into feeds, the machine ends in the same state. */
  lemma {:induction false} ChunksDoNotMatter(m: Machine, chunks: seq<bytes>)
    ensures FeedChunks(m, chunks) == Feed(m, Concat(chunks))
    decreases chunks
  {
    if chunks != [] {
      ChunksDoNotMatter(Feed(m, chunks[0]), chunks[1..]);
      FeedConcat(m, chunks[0], Concat(chunks[1..]));
    }
  }

  /** The machine once a number under way is taken as finished. */
  function Settle(m: Machine): (next: Machine) {
    if m.lex.InNumber? then FinishNumber(m) else m
  }

  lemma SettledFeed(m: Machine, c: byte)
    requires !IsNumberByte(c)
    ensures FeedByte(m, c) == FeedByte(Settle(m), c)
  {
  }

  lemma FeedOne(m: Machine, c: byte)
    ensures Feed(m, [c]) == FeedByte(m, c)
  {
    assert [c][1..] == [];
    assert Feed(FeedByte(m, c), []) == FeedByte(m, c);
  }

  lemma FeedHead(m: Machine, c: byte, rest: bytes)
    ensures Feed(m, [c] + rest) == Feed(FeedByte(m, c), rest)
  {
    assert ([c] + rest)[1..] == rest;
  }

  lemma NothingFed(m: Machine)
    ensures Feed(m, []) == m
  {
  }

  /** A byte is given back only by a number it ends, and then the machine takes it. */
  lemma StepConsumes(m: Machine, c: byte)
    ensures
      var (next, consumed) := Step(m, c);
      && FeedByte(m, c) == (if consumed then next else FeedByte(next, c))
      && (!consumed ==> m.lex.InNumber? && !next.lex.InNumber?)
      && (next == FAILED ==> FeedByte(m, c) == FAILED)
  {
  }

  /** Failure is final. */
  lemma {:induction false} FailedStays(s: bytes)
    ensures Feed(FAILED, s) == FAILED
  {
    if s != [] {
      FailedStays(s[1..]);
    }
  }

  lemma {:induction false} FeedWord(m: Machine, word: bytes, index: nat)
    requires m.lex == InLiteral(word, index) && index < |word|
    ensures Feed(m, word[index..]) == Attach(m.frames, LiteralValue(word))
    decreases |word| - index
  {
    assert word[index..][1..] == word[index + 1..];
    if index + 1 < |word| {
      FeedWord(m.(lex := InLiteral(word, index + 1)), word, index + 1);
      assert m.(lex := InLiteral(word, index + 1)).frames == m.frames;
    } else {
      assert word[index + 1..] == [];
    }
  }

  lemma {:induction false} FeedNumber(m: Machine, digits: bytes)
    requires m.lex.InNumber? && AllNumberBytes(digits)
    requires |m.lex.literal| + |digits| < MAX_NUMBER_LEN
    ensures Feed(m, digits) == m.(lex := InNumber(m.lex.literal + digits))
    decreases digits
  {
    if digits == [] {
      assert m.lex.literal + [] == m.lex.literal;
    } else {
      var next := m.(lex := InNumber(m.lex.literal + [digits[0]]));
      FeedNumber(next, digits[1..]);
      assert m.lex.literal + [digits[0]] + digits[1..] == m.lex.literal + digits;
    }
  }

  lemma FeedTwo(m: Machine, a: byte, b: byte)
    ensures Feed(m, [a, b]) == FeedByte(FeedByte(m, a), b)
  {
    FeedOne(FeedByte(m, a), b);
    assert [a, b][1..] == [b];
  }

  /** A `\u00XX` escape of a control byte comes back as that byte. */
  lemma FeedControl(m: Machine, isKey: bool, text: bytes, c: byte)
    requires m.lex == InString(isKey, text, None) && c < 0x20
    ensures
      Feed(m, [BACKSLASH, 0x75, 0x30, 0x30, HexDigit(c / 16), HexDigit(c % 16)])
      == m.(lex := InString(isKey, text + [c], None))
  {
    var hi, lo := HexDigit(c / 16), HexDigit(c % 16);
    var m1 := m.(lex := InUnicode(isKey, text, None, 0, 0));
    var m2 := m.(lex := InUnicode(isKey, text, None, 0, 2));
    EscapeOpens(m, isKey, text);
    LowDigits(m2, isKey, text, c);
    hide FeedByte, HexDigit;
    FeedConcat(m, [BACKSLASH, 0x75], [0x30, 0x30]);
    FeedConcat(m, [BACKSLASH, 0x75] + [0x30, 0x30], [hi, lo]);
    assert [BACKSLASH, 0x75, 0x30, 0x30, hi, lo] == [BACKSLASH, 0x75] + [0x30, 0x30] + [hi, lo];
  }

  lemma EscapeOpens(m: Machine, isKey: bool, text: bytes)
    requires m.lex == InString(isKey, text, None)
    ensures Feed(m, [BACKSLASH, 0x75]) == m.(lex := InUnicode(isKey, text, None, 0, 0))
    ensures
      Feed(m.(lex := InUnicode(isKey, text, None, 0, 0)), [0x30, 0x30]) == m.(lex := InUnicode(isKey, text, None, 0, 2))
  {
    FeedTwo(m, BACKSLASH, 0x75);
    FeedTwo(m.(lex := InUnicode(isKey, text, None, 0, 0)), 0x30, 0x30);
    hide Feed;
  }

  lemma LowDigits(m: Machine, isKey: bool, text: bytes, c: byte)
    requires m.lex == InUnicode(isKey, text, None, 0, 2) && c < 0x20
    ensures Feed(m, [HexDigit(c / 16), HexDigit(c % 16)]) == m.(lex := InString(isKey, text + [c], None))
  {
    var hi, lo := HexDigit(c / 16), HexDigit(c % 16);
    FeedTwo(m, hi, lo);
    hide Feed;
    assert HexValue(hi) == Some(c / 16) && HexValue(lo) == Some(c % 16);
    assert c / 16 * 16 + c % 16 == c;
  }

  lemma FeedEscapeByte(m: Machine, isKey: bool, text: bytes, c: byte)
    requires m.lex == InString(isKey, text, None)
    ensures Feed(m, EscapeByte(c)) == m.(lex := InString(isKey, text + [c], None))
  {
    var e := EscapeByte(c);
    if |e| == 1 {
      FeedOne(m, c);
    } else if |e| == 2 {
      FeedTwo(m, BACKSLASH, e[1]);
    } else {
      FeedControl(m, isKey, text, c);
    }
  }

  lemma {:induction false} FeedEscape(m: Machine, isKey: bool, text: bytes, s: bytes)
    requires m.lex == InString(isKey, text, None)
    ensures Feed(m, Escape(s)) == m.(lex := InString(isKey, text + s, None))
    decreases s
  {
    hide EscapeByte, FeedByte;
    if s == [] {
      assert text + s == text;
    } else {
      FeedEscapeByte(m, isKey, text, s[0]);
      var next := m.(lex := InString(isKey, text + [s[0]], None));
      FeedConcat(m, EscapeByte(s[0]), Escape(s[1..]));
      FeedEscape(next, isKey, text + [s[0]], s[1..]);
      assert text + [s[0]] + s[1..] == text + s;
    }
  }

  lemma FeedStringEnd(m: Machine, isKey: bool, s: bytes)
    requires m.lex == InString(isKey, [], None)
    ensures Feed(m, Escape(s) + [QUOTE]) == FinishString(m, isKey, s)
  {
    FeedConcat(m, Escape(s), [QUOTE]);
    FeedEscape(m, isKey, [], s);
    assert [] + s == s;
    FeedOne(m.(lex := InString(isKey, s, None)), QUOTE);
  }

  /** A quoted string, fed where a string may start, arrives whole. */
  lemma FeedQuote(m: Machine, open: Machine, isKey: bool, s: bytes)
    requires FeedByte(m, QUOTE) == open && open.lex == InString(isKey, [], None)
    ensures Feed(m, Quote(s)) == FinishString(open, isKey, s)
  {
    FeedStringEnd(open, isKey, s);
    var body := Escape(s) + [QUOTE];
    FeedHead(m, QUOTE, body);
    assert Quote(s) == [QUOTE] + body;
  }

  datatype State =
    ValueState | StringState | EscapeState | UnicodeState | NumberState | LiteralState | DoneState | ErrorState

  /** `validate_json_number`, in three parts: index loops over the literal. */
  method ValidateNumber(s: bytes) returns (ok: bool)
    ensures ok == IsNumberLiteral(s)
  {
    var i := if |s| > 0 && s[0] == MINUS then 1 else 0;
    assert i == 0 ==> s[i..] == s;
    if i >= |s| { return false; }
    if s[i] == 0x30 {
      assert s[i..][1..] == s[i + 1..];
      ok := ValidateFraction(s, i + 1);
    } else if IsDigit(s[i]) {
      var j := SkipDigitsFrom(s, i);
      ok := ValidateFraction(s, j);
    } else {
      ok := false;
    }
  }

  method ValidateFraction(s: bytes, start: nat) returns (ok: bool)
    requires start <= |s|
    ensures ok == FractionPart(s[start..])
  {
    if start < |s| && s[start] == 0x2E {
      assert s[start..][1..] == s[start + 1..];
      if !(start + 1 < |s| && IsDigit(s[start + 1])) { return false; }
      var i := SkipDigitsFrom(s, start + 1);
      ok := ValidateExponent(s, i);
    } else {
      ok := ValidateExponent(s, start);
    }
  }

  method ValidateExponent(s: bytes, start: nat) returns (ok: bool)
    requires start <= |s|
    ensures ok == ExponentPart(s[start..])
  {
    var i := start;
    if i < |s| && (s[i] == 0x65 || s[i] == 0x45) {
      i := i + 1;
      if i < |s| && (s[i] == 0x2B || s[i] == MINUS) { i := i + 1; }
      assert s[start..][i - start..] == s[i..];
      if !(i < |s| && IsDigit(s[i])) { return false; }
      i := SkipDigitsFrom(s, i);
    }
    return i == |s|;
  }

  method SkipDigitsFrom(s: bytes, start: nat) returns (i: nat)
    requires start <= |s|
    ensures start <= i <= |s| && s[i..] == SkipDigits(s[start..])
  {
    i := start;
    while i < |s| && IsDigit(s[i])
      invariant start <= i <= |s|
      invariant SkipDigits(s[i..]) == SkipDigits(s[start..])
    {
      assert s[i..][1..] == s[i + 1..];
      i := i + 1;
    }
  }

  /** The parser object. Scratch fields are meaningful only in the states that use them. */
  class Parser {
    var state: State
    var root: Option<Value>
    var frames: seq<Frame>
    var text: bytes
    var parsingKey: bool
    var high: Option<surrogate>
    var code: nat
    var digits: nat
    var number: bytes
    var word: bytes
    var index: nat

    /** The machine this object stands for. */
    ghost function View(): (next: Machine)
      reads this
    {
      match state
      case ValueState => Machine(Between, frames, None)
      case StringState => Machine(InString(parsingKey, text, high), frames, None)
      case EscapeState => Machine(InEscape(parsingKey, text, high), frames, None)
      case UnicodeState => Machine(InUnicode(parsingKey, text, high, code, digits), frames, None)
      case NumberState => Machine(InNumber(number), frames, None)
      case LiteralState => Machine(InLiteral(word, index), frames, None)
      case DoneState => Machine(Done, [], root)
      case ErrorState => FAILED
    }

    constructor ()
      ensures View() == START
    {
      state, root, frames := ValueState, None, [];
      text, parsingKey, high, code, digits := [], false, None, 0, 0;
      number, word, index := [], [], 0;
    }

    method AttachCompleted(v: Value)
      modifies this
      ensures View() == Attach(old(frames), v)
    {
      if |frames| == 0 {
        root := Some(v);
        state := DoneState;
      } else {
        frames := frames[|frames| - 1 := Joined(frames[|frames| - 1], v)];
        state := ValueState;
      }
    }

    method Push(f: Frame)
      requires state == ValueState
      modifies this
      ensures View() == PushFrame(old(View()), f)
    {
      if |frames| >= MAX_DEPTH {
        state := ErrorState;
      } else {
        frames := frames + [f];
      }
    }

    method DispatchValueStart(c: byte)
      requires state == ValueState
      modifies this
      ensures View() == StartValue(old(View()), c)
    {
      parsingKey := false;
      if |frames| > 0 {
        var top := frames[|frames| - 1];
        if top.ObjectFrame? && (top.due.ElementOrClose? || top.due.Element?) {
          if c != QUOTE {
            state := ErrorState;
            return;
          }
          parsingKey := true;
        }
      }
      if c == OPEN_BRACE {
        Push(ObjectFrame([], [], ElementOrClose));
      } else if c == OPEN_BRACKET {
        Push(ArrayFrame([], ElementOrClose));
      } else if c == QUOTE {
        state, text, high := StringState, [], None;
      } else if c == 0x74 {
        state, word, index := LiteralState, TRUE_WORD, 1;
      } else if c == 0x66 {
        state, word, index := LiteralState, FALSE_WORD, 1;
      } else if c == 0x6E {
        state, word, index := LiteralState, NULL_WORD, 1;
      } else if c == MINUS || IsDigit(c) {
        state, number := NumberState, [c];
      } else {
        state := ErrorState;
      }
    }

    method Close()
      requires state == ValueState && frames != []
      modifies this
      ensures View() == PopContainer(old(frames))
    {
      var closed := Closed(frames[|frames| - 1]);
      frames := frames[..|frames| - 1];
      AttachCompleted(closed);
    }

    method ProcessBetweenTokens(c: byte)
      requires state == ValueState
      modifies this
      ensures View() == BetweenTokens(old(View()), c)
    {
      if IsSpace(c) { return; }
      if |frames| == 0 {
        DispatchValueStart(c);
        return;
      }
      var top := frames[|frames| - 1];
      var close := if top.ArrayFrame? then CLOSE_BRACKET else CLOSE_BRACE;
      match top.due
      case ElementOrClose => if c == close { Close(); } else { DispatchValueStart(c); }
      case Element => DispatchValueStart(c);
      case CommaOrClose =>
        if c == close {
          Close();
        } else if c == COMMA {
          frames := frames[|frames| - 1 := top.(due := Element)];
        } else {
          state := ErrorState;
        }
      case ColonDue =>
        if c == COLON {
          frames := frames[|frames| - 1 := top.(due := ValueDue)];
        } else {
          state := ErrorState;
        }
      case ValueDue => DispatchValueStart(c);
    }

    method HandleStringByte(c: byte)
      requires state == StringState
      modifies this
      ensures View() == StringByte(old(View()), c)
    {
      if c == QUOTE {
        if high.Some? {
          state := ErrorState;
        } else if parsingKey {
          if |frames| == 0 || !frames[|frames| - 1].ObjectFrame? {
            state := ErrorState;
          } else {
            frames := frames[|frames| - 1 := frames[|frames| - 1].(key := text, due := ColonDue)];
            state := ValueState;
          }
        } else {
          AttachCompleted(String(text));
        }
      } else if c == BACKSLASH {
        state := EscapeState;
      } else if high.Some? || c < 0x20 {
        state := ErrorState;
      } else {
        text := text + [c];
      }
    }

    method HandleEscapeByte(c: byte)
      requires state == EscapeState
      modifies this
      ensures View() == EscapeStep(old(View()), c)
    {
      if high.Some? && c != 0x75 {
        state := ErrorState;
      } else if c == 0x75 {
        state, code, digits := UnicodeState, 0, 0;
      } else {
        match SimpleEscape(c)
        case None => state := ErrorState;
        case Some(mapped) =>
          state := StringState;
          text := text + [mapped];
      }
    }

    method HandleUnicodeByte(c: byte)
      requires state == UnicodeState
      modifies this
      ensures View() == UnicodeStep(old(View()), c)
    {
      var digit := HexValue(c);
      if digit.None? {
        state := ErrorState;
        return;
      }
      code := code * 16 + digit.value;
      digits := digits + 1;
      if digits < 4 { return; }
      state := StringState;
      if high.Some? {
        if code < 0xDC00 || code > 0xDFFF {
          state := ErrorState;
        } else {
          text := text + Utf8Bytes(0x10000 + (high.value - 0xD800) * 0x400 + (code - 0xDC00));
          high := None;
        }
      } else if 0xD800 <= code <= 0xDBFF {
        high := Some(code);
      } else if 0xDC00 <= code <= 0xDFFF {
        state := ErrorState;
      } else {
        text := text + Utf8Bytes(code);
      }
    }

    method FinalizeNumber()
      requires state == NumberState
      modifies this
      ensures View() == FinishNumber(old(View()))
    {
      var valid := ValidateNumber(number);
      if valid {
        AttachCompleted(Number(number));
      } else {
        state := ErrorState;
      }
    }

    method HandleLiteralByte(c: byte)
      requires state == LiteralState
      modifies this
      ensures View() == LiteralStep(old(View()), c)
    {
      if index >= |word| || c != word[index] {
        state := ErrorState;
      } else {
        index := index + 1;
        if index == |word| {
          AttachCompleted(if word == NULL_WORD then Null else Bool(word == TRUE_WORD));
        }
      }
    }

    method StepByte(c: byte) returns (consumed: bool)
      modifies this
      ensures (View(), consumed) == Step(old(View()), c)
    {
      consumed := true;
      match state
      case ValueState => ProcessBetweenTokens(c);
      case StringState => HandleStringByte(c);
      case EscapeState => HandleEscapeByte(c);
      case UnicodeState => HandleUnicodeByte(c);
      case NumberState =>
        if IsNumberByte(c) {
          if |number| >= MAX_NUMBER_LEN - 1 {
            state := ErrorState;
          } else {
            number := number + [c];
          }
        } else {
          consumed := false;
          FinalizeNumber();
        }
      case LiteralState => HandleLiteralByte(c);
      case DoneState => if !IsSpace(c) { state := ErrorState; }
      case ErrorState =>
    }

    /** Feeds a chunk; the rest of it is skipped once the machine has failed. An empty chunk reports no error. */
    method FeedChunk(s: bytes) returns (ok: bool)
      modifies this
      ensures View() == Feed(old(View()), s)
      ensures ok == (s == [] || View() != FAILED)
    {
      hide Feed, FeedByte, Step;
      var i := 0;
      assert s[0..] == s;
      while i < |s|
        invariant 0 <= i <= |s|
        invariant Feed(old(View()), s) == Feed(View(), s[i..])
        invariant 0 < i ==> state != ErrorState
        decreases |s| - i, if state == NumberState then 1 else 0
      {
        ghost var before := View();
        var consumed := StepByte(s[i]);
        assert s[i..] == [s[i]] + s[i + 1..];
        FeedHead(before, s[i], s[i + 1..]);
        StepConsumes(before, s[i]);
        if state == ErrorState {
          FailedStays(s[i + 1..]);
          return false;
        }
        if consumed {
          i := i + 1;
        } else {
          FeedHead(View(), s[i], s[i + 1..]);
        }
      }
      assert s[i..] == [];
      NothingFed(View());
      return true;
    }

    method FinishDocument() returns (ok: bool)
      modifies this
      ensures View() == Finish(old(View()))
      ensures ok == View().lex.Done?
    {
      if state == DoneState { return true; }
      if state == NumberState {
        FinalizeNumber();
        if state == DoneState { return true; }
      }
      state := ErrorState;
      return false;
    }

    /** The tree of a finished document; nothing before that or after a failure. */
    method Root() returns (r: Option<Value>)
      ensures r == View().root
    {
      return if state == DoneState then root else None;
    }
  }
}
