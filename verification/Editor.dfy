/** The line editor's buffer of src/cli_editor.c: UTF-8 text with a cursor between characters. */
module Editor {
  import opened Basics
  import opened Utf8

  const MAX_BYTES: nat := 1024 * 1024
  const NEWLINE: byte := 0x0A

  datatype Buffer = Buffer(text: bytes, cursor: nat)

  const EMPTY: Buffer := Buffer([], 0)

  /** `validate_editor_text`. */
  function TextStatus(text: bytes): (result: Status) {
    if |text| > MAX_BYTES then INVAL else if HasNul(text) || !WellFormed(text) then PARSE else OK
  }

  function Set(b: Buffer, text: bytes): (outcome: (Buffer, Status)) {
    if TextStatus(text) != OK then (b, TextStatus(text)) else (Buffer(text, |text|), OK)
  }

  function Insert(b: Buffer, text: bytes): (outcome: (Buffer, Status))
    requires b.cursor <= |b.text|
  {
    if TextStatus(text) != OK then (b, TextStatus(text))
    else if |b.text| + |text| > MAX_BYTES then (b, INVAL)
    else (Buffer(b.text[..b.cursor] + text + b.text[b.cursor..], b.cursor + |text|), OK)
  }

  function MoveLeft(b: Buffer): (outcome: (Buffer, Status))
    requires b.cursor <= |b.text|
  {
    if b.cursor == 0 then (b, OK)
    else
      match PreviousBoundary(b.text, b.cursor)
      case None => (b, PARSE)
      case Some(previous) => (b.(cursor := previous), OK)
  }

  function MoveRight(b: Buffer): (outcome: (Buffer, Status))
    requires b.cursor <= |b.text|
  {
    if b.cursor == |b.text| then (b, OK)
    else
      match NextBoundary(b.text, b.cursor)
      case None => (b, PARSE)
      case Some(next) => (b.(cursor := next), OK)
  }

  function LineStart(text: bytes, cursor: nat): (n: nat)
    requires cursor <= |text|
  {
    if cursor > 0 && text[cursor - 1] != NEWLINE then LineStart(text, cursor - 1) else cursor
  }

  function LineEnd(text: bytes, cursor: nat): (n: nat)
    requires cursor <= |text|
    decreases |text| - cursor
  {
    if cursor < |text| && text[cursor] != NEWLINE then LineEnd(text, cursor + 1) else cursor
  }

  function Backspace(b: Buffer): (outcome: (Buffer, Status))
    requires b.cursor <= |b.text|
  {
    if b.cursor == 0 then (b, OK)
    else
      match PreviousBoundary(b.text, b.cursor)
      case None => (b, PARSE)
      case Some(previous) =>
        (Buffer(b.text[..previous] + b.text[b.cursor..], previous), OK)
  }

  function Delete(b: Buffer): (outcome: (Buffer, Status))
    requires b.cursor <= |b.text|
  {
    if b.cursor == |b.text| then (b, OK)
    else
      match NextBoundary(b.text, b.cursor)
      case None => (b, PARSE)
      case Some(next) => (Buffer(b.text[..b.cursor] + b.text[next..], b.cursor), OK)
  }

  // ----- every run keeps the buffer good -----

  /** Well-formed on both sides of the cursor, so the cursor stands between characters; no NUL; at most 1 MiB. */
  predicate Good(b: Buffer) {
    && b.cursor <= |b.text| <= MAX_BYTES
    && !HasNul(b.text)
    && WellFormed(b.text[..b.cursor]) && WellFormed(b.text[b.cursor..])
  }

  datatype Operation =
    | ClearOp | SetOp(text: bytes) | InsertOp(text: bytes) | LeftOp | RightOp | StartOp | EndOp | BackspaceOp | DeleteOp

  function Apply(b: Buffer, op: Operation): (outcome: (Buffer, Status))
    requires b.cursor <= |b.text|
  {
    match op
    case ClearOp => (EMPTY, OK)
    case SetOp(text) => Set(b, text)
    case InsertOp(text) => Insert(b, text)
    case LeftOp => MoveLeft(b)
    case RightOp => MoveRight(b)
    case StartOp => (b.(cursor := LineStart(b.text, b.cursor)), OK)
    case EndOp => (b.(cursor := LineEnd(b.text, b.cursor)), OK)
    case BackspaceOp => Backspace(b)
    case DeleteOp => Delete(b)
  }

  lemma NoNulParts(a: bytes, b: bytes, c: bytes)
    requires !HasNul(a) && !HasNul(b) && !HasNul(c)
    ensures !HasNul(a + b + c)
  {
  }

  lemma Slices(text: bytes, cursor: nat)
    requires cursor <= |text|
    ensures !HasNul(text) ==> !HasNul(text[..cursor]) && !HasNul(text[cursor..])
  {
  }

  lemma InsertKeeps(b: Buffer, text: bytes)
    requires Good(b)
    ensures Good(Insert(b, text).0)
    ensures Insert(b, text).1 == OK <==> TextStatus(text) == OK && |b.text| + |text| <= MAX_BYTES
  {
    var (after, status) := Insert(b, text);
    if status == OK {
      var left, right := b.text[..b.cursor], b.text[b.cursor..];
      assert after.text[..after.cursor] == left + text && after.text[after.cursor..] == right;
      WellFormedConcat(left, text);
      Slices(b.text, b.cursor);
      NoNulParts(left, text, right);
    }
  }

  /** The character that starts at a good cursor. */
  lemma NextExists(b: Buffer)
    requires Good(b) && b.cursor < |b.text|
    ensures NextBoundary(b.text, b.cursor).Some?
    ensures
      var next := NextBoundary(b.text, b.cursor).value;
      && b.cursor < next <= |b.text|
      && IsChar(b.text[b.cursor..next]) && WellFormed(b.text[..next]) && WellFormed(b.text[next..])
  {
    hide IsChar, WellFormed, SequenceLength, HasNul;
    var rest := b.text[b.cursor..];
    var n := SequenceLength(rest);
    WellFormedStep(rest);
    SequenceIsChar(rest, n);
    StepSlices(b.text, b.cursor, n);
    CharWellFormed(rest[..n]);
    WellFormedConcat(b.text[..b.cursor], rest[..n]);
  }

  lemma StepSlices(text: bytes, from: nat, n: nat)
    requires from + n <= |text|
    ensures text[from..][..n] == text[from..from + n] && text[from..][n..] == text[from + n..]
    ensures text[..from] + text[from..][..n] == text[..from + n]
  {
  }

  /** The character that ends at a good cursor. */
  lemma PreviousIs(b: Buffer)
    requires Good(b) && b.cursor > 0
    ensures PreviousBoundary(b.text, b.cursor).Some?
    ensures
      var previous := PreviousBoundary(b.text, b.cursor).value;
      && previous < b.cursor
      && IsChar(b.text[previous..b.cursor]) && WellFormed(b.text[..previous]) && WellFormed(b.text[previous..])
  {
    PreviousExists(b.text, b.cursor);
    var previous := PreviousBoundary(b.text, b.cursor).value;
    CharWellFormed(b.text[previous..b.cursor]);
    WellFormedConcat(b.text[previous..b.cursor], b.text[b.cursor..]);
    SliceJoins(b.text, previous, b.cursor);
  }

  lemma CutKeeps(text: bytes, from: nat, end: nat)
    requires from <= end <= |text| <= MAX_BYTES && !HasNul(text)
    requires WellFormed(text[..from]) && WellFormed(text[end..])
    ensures Good(Buffer(text[..from] + text[end..], from))
  {
    var cut := text[..from] + text[end..];
    assert cut[..from] == text[..from] && cut[from..] == text[end..];
    Slices(text, from);
    Slices(text, end);
    NoNulParts(text[..from], [], text[end..]);
    assert text[..from] + [] + text[end..] == cut;
  }

  lemma AsciiChar(c: bytes, i: nat)
    requires IsChar(c) && i < |c| && c[i] <= 0x7F
    ensures |c| == 1
  {
  }

  lemma PrefixJoins(s: bytes, n: nat, k: nat)
    requires n <= k <= |s| && WellFormed(s[..n]) && WellFormed(s[n..][..k - n])
    ensures WellFormed(s[..k]) && s[n..][k - n..] == s[k..]
  {
    hide WellFormed;
    WellFormedConcat(s[..n], s[n..][..k - n]);
    assert s[..k] == s[..n] + s[n..][..k - n];
  }

  /** A well-formed text can be cut on either side of a byte below 0x80. */
  lemma {:induction false} AsciiSplits(s: bytes, i: nat)
    requires WellFormed(s) && i < |s| && s[i] <= 0x7F
    ensures WellFormed(s[..i]) && WellFormed(s[i..])
    ensures WellFormed(s[..i + 1]) && WellFormed(s[i + 1..])
    decreases |s|
  {
    var n := SequenceLength(s);
    WellFormedStep(s);
    SequenceIsChar(s, n);
    CharWellFormed(s[..n]);
    hide SequenceLength, IsChar;
    if i >= n {
      hide WellFormed;
      AsciiSplits(s[n..], i - n);
      PrefixJoins(s, n, i);
      PrefixJoins(s, n, i + 1);
    } else {
      assert s[..n][i] == s[i];
      AsciiChar(s[..n], i);
      assert s[..0] == [] && s[0..] == s;
    }
  }

  lemma {:induction false} LineStartAt(text: bytes, cursor: nat)
    requires cursor <= |text|
    ensures
      var start := LineStart(text, cursor);
      && start <= cursor && (start == 0 || text[start - 1] == NEWLINE)
      && forall k :: start <= k < cursor ==> text[k] != NEWLINE
    decreases cursor
  {
    if cursor > 0 && text[cursor - 1] != NEWLINE { LineStartAt(text, cursor - 1); }
  }

  lemma {:induction false} LineEndAt(text: bytes, cursor: nat)
    requires cursor <= |text|
    ensures
      var end := LineEnd(text, cursor);
      && cursor <= end <= |text| && (end == |text| || text[end] == NEWLINE)
      && forall k :: cursor <= k < end ==> text[k] != NEWLINE
    decreases |text| - cursor
  {
    if cursor < |text| && text[cursor] != NEWLINE { LineEndAt(text, cursor + 1); }
  }

  lemma WholeWellFormed(b: Buffer)
    requires Good(b)
    ensures WellFormed(b.text)
  {
    WellFormedConcat(b.text[..b.cursor], b.text[b.cursor..]);
    assert b.text == b.text[..b.cursor] + b.text[b.cursor..];
  }

  lemma LineMovesKeep(b: Buffer)
    requires Good(b)
    ensures Good(b.(cursor := LineStart(b.text, b.cursor))) && Good(b.(cursor := LineEnd(b.text, b.cursor)))
  {
    WholeWellFormed(b);
    var start, end := LineStart(b.text, b.cursor), LineEnd(b.text, b.cursor);
    LineStartAt(b.text, b.cursor);
    LineEndAt(b.text, b.cursor);
    assert b.text[..0] == [] && b.text[0..] == b.text;
    assert b.text[..|b.text|] == b.text && b.text[|b.text|..] == [];
    if start > 0 { AsciiSplits(b.text, start - 1); }
    if end < |b.text| { AsciiSplits(b.text, end); }
  }

  lemma MovesKeep(b: Buffer)
    requires Good(b)
    ensures Good(MoveLeft(b).0) && MoveLeft(b).1 == OK && Good(MoveRight(b).0) && MoveRight(b).1 == OK
    ensures Good(Backspace(b).0) && Backspace(b).1 == OK && Good(Delete(b).0) && Delete(b).1 == OK
  {
    hide WellFormed, NextBoundary, PreviousBoundary;
    if b.cursor > 0 {
      PreviousIs(b);
      CutKeeps(b.text, PreviousBoundary(b.text, b.cursor).value, b.cursor);
    }
    if b.cursor < |b.text| {
      NextExists(b);
      CutKeeps(b.text, b.cursor, NextBoundary(b.text, b.cursor).value);
    }
  }

  lemma SetKeeps(b: Buffer, text: bytes)
    requires Good(b)
    ensures Good(Set(b, text).0)
  {
    assert text[..|text|] == text && text[|text|..] == [];
  }

  /** Every operation, refused or not, keeps the buffer good; moves and deletions are never refused. */
  lemma ApplyKeeps(b: Buffer, op: Operation)
    requires Good(b)
    ensures Good(Apply(b, op).0)
    ensures !op.SetOp? && !op.InsertOp? ==> Apply(b, op).1 == OK
    ensures Apply(b, op).1 != OK ==> Apply(b, op).0 == b
  {
    hide Good, MoveLeft, MoveRight, Backspace, Delete;
    match op
    case ClearOp => EmptyGood();
    case SetOp(text) => SetKeeps(b, text);
    case InsertOp(text) => InsertKeeps(b, text);
    case StartOp => LineMovesKeep(b);
    case EndOp => LineMovesKeep(b);
    case _ => MovesKeep(b);
  }

  lemma EmptyGood()
    ensures Good(EMPTY)
  {
  }

  function Run(b: Buffer, ops: seq<Operation>): (after: Buffer)
    requires Good(b)
    decreases ops
  {
    if ops == [] then b
    else
      ApplyKeeps(b, ops[0]);
      Run(Apply(b, ops[0]).0, ops[1..])
  }

  /** Over every run of operations. */
  lemma {:induction false} RunKeepsGood(b: Buffer, ops: seq<Operation>)
    requires Good(b)
    ensures Good(Run(b, ops)) && WellFormed(Run(b, ops).text)
    decreases ops
  {
    if ops == [] {
      WholeWellFormed(b);
    } else {
      ApplyKeeps(b, ops[0]);
      RunKeepsGood(Apply(b, ops[0]).0, ops[1..]);
    }
  }

  // ----- what each operation does to the text -----

  /** An accepted insert leaves what was on either side of the cursor and puts its own text between. */
  lemma InsertSays(b: Buffer, text: bytes)
    requires Good(b) && Insert(b, text).1 == OK
    ensures
      var after := Insert(b, text).0;
      && b.cursor <= after.cursor <= |after.text|
      && after.text[..b.cursor] == b.text[..b.cursor]
      && after.text[b.cursor..after.cursor] == text
      && after.text[after.cursor..] == b.text[b.cursor..]
  {
  }

  /** Setting the text is inserting it into an empty buffer. */
  lemma SetIsInsert(b: Buffer, text: bytes)
    requires TextStatus(text) == OK
    ensures Set(b, text) == Insert(EMPTY, text)
  {
    assert EMPTY.text[..0] + text + EMPTY.text[0..] == text;
  }

  /** Moves step over one whole character and leave the text alone; at the ends they do nothing. */
  lemma MovesStep(b: Buffer)
    requires Good(b)
    ensures
      var right := MoveRight(b).0;
      && right.text == b.text
      && if b.cursor == |b.text| then right == b
         else b.cursor < right.cursor <= |b.text| && IsChar(b.text[b.cursor..right.cursor])
    ensures
      var left := MoveLeft(b).0;
      && left.text == b.text
      && if b.cursor == 0 then left == b else left.cursor < b.cursor && IsChar(b.text[left.cursor..b.cursor])
  {
    if b.cursor < |b.text| { NextExists(b); }
    if b.cursor > 0 { PreviousIs(b); }
  }

  /** Backspace takes the character before the cursor, delete the one behind it, and nothing else. */
  lemma CutsSay(b: Buffer)
    requires Good(b)
    ensures
      var left := MoveLeft(b).0.cursor;
      Backspace(b).0 == Buffer(b.text[..left] + b.text[b.cursor..], left)
    ensures
      var right := MoveRight(b).0.cursor;
      Delete(b).0 == Buffer(b.text[..b.cursor] + b.text[right..], b.cursor)
  {
    hide IsChar, WellFormed, NextBoundary, PreviousBoundary, HasNul;
    if b.cursor < |b.text| { NextExists(b); } else { assert b.text[..b.cursor] + b.text[b.cursor..] == b.text; }
    if b.cursor > 0 { PreviousIs(b); } else { assert b.text[..0] + b.text[0..] == b.text; }
  }

  // ----- what undoes what -----

  lemma NextOver(left: bytes, c: bytes, right: bytes)
    requires IsChar(c)
    ensures NextBoundary(left + c + right, |left|) == Some(|left| + |c|)
  {
    var tail := c + right;
    assert (left + c + right)[|left|..] == tail && tail[..|c|] == c;
    SequenceIsChar(tail, |c|);
  }

  /** Backspace takes back the character just inserted, text and cursor both. */
  lemma BackspaceUndoesInsert(b: Buffer, c: bytes)
    requires Good(b) && IsChar(c) && c != [0] && |b.text| + |c| <= MAX_BYTES
    ensures Insert(b, c).1 == OK && Backspace(Insert(b, c).0) == (b, OK)
  {
    CharHasNoNul(c);
    CharWellFormed(c);
    hide IsChar, WellFormed, HasNul, SequenceLength, NextBoundary, PreviousBoundary;
    var left, right := b.text[..b.cursor], b.text[b.cursor..];
    assert Insert(b, c) == (Buffer(left + c + right, b.cursor + |c|), OK);
    NextOver(left, c, right);
    PreviousUndoesNext(left + c + right, b.cursor);
    MiddleOut(left, c, right);
    assert b.text == left + right;
  }

  lemma MiddleOut(left: bytes, c: bytes, right: bytes)
    ensures (left + c + right)[..|left|] == left && (left + c + right)[|left| + |c|..] == right
  {
  }

  lemma CharHasNoNul(c: bytes)
    requires IsChar(c) && c != [0]
    ensures !HasNul(c)
  {
    assert |c| == 1 ==> c == [c[0]];
  }

  /** Left undoes right and right undoes left, wherever there is a character to step over. */
  lemma MovesUndo(b: Buffer)
    requires Good(b)
    ensures b.cursor < |b.text| ==> MoveLeft(MoveRight(b).0) == (b, OK)
    ensures b.cursor > 0 ==> MoveRight(MoveLeft(b).0) == (b, OK)
  {
    if b.cursor < |b.text| {
      NextExists(b);
      PreviousUndoesNext(b.text, b.cursor);
    }
    if b.cursor > 0 { PreviousExists(b.text, b.cursor); }
  }

  /** Delete is step right and backspace. */
  lemma DeleteIsRightBackspace(b: Buffer)
    requires Good(b) && b.cursor < |b.text|
    ensures Delete(b) == Backspace(MoveRight(b).0)
  {
    NextExists(b);
    PreviousUndoesNext(b.text, b.cursor);
  }

  // ----- the object -----

  method MoveDown(data: array<byte>, target: nat, source: nat, count: nat)
    requires target <= source && source + count <= data.Length
    modifies data
    ensures data[target..target + count] == old(data[source..source + count])
    ensures forall k :: 0 <= k < data.Length && !(target <= k < target + count) ==> data[k] == old(data[k])
  {
    ghost var before := data[..];
    var i: nat := 0;
    while i < count
      invariant i <= count
      invariant data[target..target + i] == before[source..source + i]
      invariant forall k :: 0 <= k < data.Length && !(target <= k < target + i) ==> data[k] == before[k]
    {
      ghost var done := data[target..target + i];
      data[target + i] := data[source + i];
      assert data[target..target + (i + 1)] == done + [before[source + i]];
      i := i + 1;
    }
    assert forall k :: 0 <= k < data.Length ==> before[k] == old(data[k]);
  }

  method MoveUp(data: array<byte>, target: nat, source: nat, count: nat)
    requires source < target && target + count <= data.Length
    modifies data
    ensures data[target..target + count] == old(data[source..source + count])
    ensures forall k :: 0 <= k < data.Length && !(target <= k < target + count) ==> data[k] == old(data[k])
  {
    ghost var before := data[..];
    var i: nat := count;
    while i > 0
      invariant i <= count
      invariant data[target + i..target + count] == before[source + i..source + count]
      invariant forall k :: 0 <= k < data.Length && !(target + i <= k < target + count) ==> data[k] == before[k]
    {
      ghost var done := data[target + i..target + count];
      i := i - 1;
      data[target + i] := data[source + i];
      assert data[target + i..target + count] == [before[source + i]] + done;
    }
    assert forall k :: 0 <= k < data.Length ==> before[k] == old(data[k]);
  }

  /** Moves `count` bytes of `data` inside itself; the stretches may overlap. */
  method MoveWithin(data: array<byte>, target: nat, source: nat, count: nat)
    requires target + count <= data.Length && source + count <= data.Length
    modifies data
    ensures data[target..target + count] == old(data[source..source + count])
    ensures forall k :: 0 <= k < data.Length && !(target <= k < target + count) ==> data[k] == old(data[k])
  {
    if target <= source { MoveDown(data, target, source, count); } else { MoveUp(data, target, source, count); }
  }

  method CopyIn(data: array<byte>, target: nat, text: bytes)
    requires target + |text| <= data.Length
    modifies data
    ensures data[target..target + |text|] == text
    ensures
      forall k :: 0 <= k < data.Length && !(target <= k < target + |text|) ==> data[k] == old(data[k])
  {
    var i: nat := 0;
    while i < |text|
      invariant i <= |text|
      invariant forall k :: 0 <= k < i ==> data[target + k] == text[k]
      invariant forall k :: 0 <= k < data.Length && !(target <= k < target + i) ==> data[k] == old(data[k])
    {
      data[target + i] := text[i];
      i := i + 1;
    }
  }

  /** `oi_cli_utf8_previous_boundary`: back over continuation bytes, then the length must fit. */
  method FindPrevious(text: bytes, offset: nat) returns (previous: Option<nat>)
    requires 0 < offset <= |text|
    ensures previous == PreviousBoundary(text, offset)
  {
    var start: nat := offset - 1;
    while start > 0 && IsTail(text[start])
      invariant start < offset && BackOver(text, start) == BackOver(text, offset - 1)
    {
      start := start - 1;
    }
    var n := SequenceLength(text[start..offset]);
    return if n > 0 && start + n == offset then Some(start) else None;
  }

  /** The growable buffer: `length` bytes of text, a NUL behind them, and spare room. */
  class LineEditor {
    var data: array<byte>
    var length: nat
    var cursor: nat

    ghost predicate Valid()
      reads this, data
    {
      && cursor <= length <= MAX_BYTES
      && if data.Length == 0 then length == 0 else length < data.Length <= MAX_BYTES + 1 && data[length] == 0
    }

    ghost function View(): (after: Buffer)
      reads this, data
      requires Valid()
    {
      Buffer(data[..length], cursor)
    }

    constructor ()
      ensures Valid() && View() == EMPTY && fresh(data)
    {
      data := new byte[0];
      length, cursor := 0, 0;
    }

    /** Doubles the capacity until the text and its NUL fit, up to the limit. */
    method Reserve(needed: nat) returns (status: Status)
      requires Valid() && length <= needed
      modifies this`data
      ensures Valid() && View() == old(View())
      ensures status == if needed > MAX_BYTES then INVAL else OK
      ensures status == OK ==> needed < data.Length
      ensures data == old(data) || fresh(data)
    {
      if needed > MAX_BYTES { return INVAL; }
      if data.Length > needed { return OK; }
      var capacity := if data.Length == 0 then 64 else data.Length;
      while capacity < needed + 1
        invariant 0 < capacity <= MAX_BYTES + 1 && data.Length <= capacity
        decreases MAX_BYTES + 1 - capacity
      {
        if capacity > (MAX_BYTES + 1) / 2 {
          capacity := MAX_BYTES + 1;
          break;
        }
        capacity := capacity * 2;
      }
      var larger := new byte[capacity](_ => 0);
      CopyIn(larger, 0, data[..]);
      assert forall k :: 0 <= k < data.Length ==> larger[k] == data[k] by {
        assert forall k :: 0 <= k < data.Length ==> larger[0..0 + |data[..]|][k] == data[k];
      }
      data := larger;
      return OK;
    }

    method Clear()
      requires Valid()
      modifies this`length, this`cursor, data
      ensures Valid() && View() == EMPTY
    {
      length, cursor := 0, 0;
      if data.Length > 0 { data[0] := 0; }
    }

    method Replace(text: bytes) returns (status: Status)
      requires Valid()
      modifies this, data
      ensures Valid() && (View(), status) == Set(old(View()), text)
      ensures data == old(data) || fresh(data)
    {
      status := Validated(text);
      if status != OK { return; }
      if |text| > length {
        status := Reserve(|text|);
      } else {
        status := Reserve(length);
      }
      CopyIn(data, 0, text);
      data[|text|] := 0;
      length, cursor := |text|, |text|;
      assert data[..length] == text;
    }

    method Validated(text: bytes) returns (status: Status)
      ensures status == TextStatus(text)
    {
      if |text| > MAX_BYTES { return INVAL; }
      if HasNul(text) { return PARSE; }
      var ok := Validate(text);
      return if ok then OK else PARSE;
    }

    /** The tail moves up, NUL and all, and the text is copied into the gap. */
    method Splice(text: bytes)
      requires Valid() && length + |text| < data.Length
      modifies this`length, this`cursor, data
      ensures Valid()
      ensures
        View()
        == Buffer(old(data[..length])[..old(cursor)] + text + old(data[..length])[old(cursor)..], old(cursor) + |text|)
    {
      ghost var before := data[..];
      MoveWithin(data, cursor + |text|, cursor, length - cursor + 1);
      ghost var moved := data[..];
      CopyIn(data, cursor, text);
      Spliced(before, moved, data[..], cursor, length, text);
      length, cursor := length + |text|, cursor + |text|;
    }

    method InsertText(text: bytes) returns (status: Status)
      requires Valid()
      modifies this, data
      ensures Valid() && (View(), status) == Insert(old(View()), text)
      ensures data == old(data) || fresh(data)
    {
      hide TextStatus, WellFormed;
      status := Validated(text);
      if status != OK { return; }
      if |text| > MAX_BYTES - length { return INVAL; }
      ghost var was := data[..length];
      if |text| == 0 {
        assert was == was[..cursor] + text + was[cursor..];
        return;
      }
      status := Reserve(length + |text|);
      assert data[..length] == was;
      Splice(text);
    }

    method Left() returns (status: Status)
      requires Valid()
      modifies this`cursor
      ensures Valid() && (View(), status) == MoveLeft(old(View()))
    {
      if cursor == 0 { return OK; }
      var previous := FindPrevious(data[..length], cursor);
      if previous.None? { return PARSE; }
      cursor := previous.value;
      return OK;
    }

    method Right() returns (status: Status)
      requires Valid()
      modifies this`cursor
      ensures Valid() && (View(), status) == MoveRight(old(View()))
    {
      if cursor == length { return OK; }
      WellFormedStep(data[..length][cursor..]);
      var next := NextBoundary(data[..length], cursor);
      if next.None? { return PARSE; }
      cursor := next.value;
      return OK;
    }

    method ToLineStart()
      requires Valid()
      modifies this`cursor
      ensures Valid() && View() == old(View()).(cursor := LineStart(old(View()).text, old(cursor)))
    {
      ghost var text := data[..length];
      while cursor > 0 && data[cursor - 1] != NEWLINE
        invariant cursor <= length && LineStart(text, cursor) == LineStart(text, old(cursor))
      {
        assert text[cursor - 1] == data[cursor - 1];
        cursor := cursor - 1;
      }
      assert cursor > 0 ==> text[cursor - 1] == data[cursor - 1];
    }

    method ToLineEnd()
      requires Valid()
      modifies this`cursor
      ensures Valid() && View() == old(View()).(cursor := LineEnd(old(View()).text, old(cursor)))
    {
      ghost var text := data[..length];
      while cursor < length && data[cursor] != NEWLINE
        invariant cursor <= length && LineEnd(text, cursor) == LineEnd(text, old(cursor))
        decreases length - cursor
      {
        assert text[cursor] == data[cursor];
        cursor := cursor + 1;
      }
      assert cursor < length ==> text[cursor] == data[cursor];
    }

    /** Cuts `from..end` out by moving the rest, NUL and all, down. */
    method Cut(from: nat, end: nat)
      requires Valid() && from <= end <= length && 0 < length
      modifies this`length, this`cursor, data
      ensures Valid() && View() == Buffer(old(data[..length])[..from] + old(data[..length])[end..], from)
    {
      ghost var before := data[..];
      MoveWithin(data, from, end, length - end + 1);
      ghost var after := data[..];
      assert after[from..from + (length - end + 1)] == before[end..end + (length - end + 1)];
      CutOut(before, after, from, end, length);
      length, cursor := length - (end - from), from;
    }

    method Erase() returns (status: Status)
      requires Valid()
      modifies this`length, this`cursor, data
      ensures Valid() && (View(), status) == Backspace(old(View()))
    {
      if cursor == 0 { return OK; }
      var previous := FindPrevious(data[..length], cursor);
      if previous.None? { return PARSE; }
      Cut(previous.value, cursor);
      return OK;
    }

    method DeleteNext() returns (status: Status)
      requires Valid()
      modifies this`length, this`cursor, data
      ensures Valid() && (View(), status) == Delete(old(View()))
    {
      if cursor == length { return OK; }
      WellFormedStep(data[..length][cursor..]);
      var next := NextBoundary(data[..length], cursor);
      if next.None? { return PARSE; }
      Cut(cursor, next.value);
      return OK;
    }
  }

  lemma Spliced(before: bytes, moved: bytes, after: bytes, at: nat, length: nat, text: bytes)
    requires at <= length && length + |text| < |before| == |moved| == |after| && before[length] == 0
    requires moved[at + |text|..at + |text| + (length - at + 1)] == before[at..at + (length - at + 1)]
    requires forall k :: 0 <= k < at ==> moved[k] == before[k]
    requires after[at..at + |text|] == text
    requires forall k :: 0 <= k < |after| && !(at <= k < at + |text|) ==> after[k] == moved[k]
    ensures after[..length + |text|] == before[..length][..at] + text + before[..length][at..]
    ensures after[length + |text|] == 0
  {
    var n := |text|;
    forall k | at + n <= k <= length + n ensures after[k] == before[k - n] {
      assert moved[at + n..at + n + (length - at + 1)][k - at - n] == before[at..at + (length - at + 1)][k - at - n];
    }
    forall k | at <= k < at + n ensures after[k] == text[k - at] {
      assert after[at..at + n][k - at] == text[k - at];
    }
  }

  lemma CutOut(before: bytes, after: bytes, from: nat, end: nat, length: nat)
    requires from <= end <= length < |before| == |after| && before[length] == 0
    requires after[from..from + (length - end + 1)] == before[end..end + (length - end + 1)]
    requires forall k :: 0 <= k < from ==> after[k] == before[k]
    ensures after[..length - (end - from)] == before[..length][..from] + before[..length][end..]
    ensures after[length - (end - from)] == 0
  {
    forall k | from <= k <= length - (end - from) ensures after[k] == before[k + (end - from)] {
      assert after[from..from + (length - end + 1)][k - from] == before[end..end + (length - end + 1)][k - from];
    }
  }
}
