/** The parser undoes the writer: on every tree up to the nesting cap, and on no deeper tree. */
module JsonRoundTrip {
  import opened Basics
  import opened JsonText
  import opened JsonParser
  import JsonWriter

  /** The machine between tokens with these containers open. */
  function At(frames: seq<Frame>): (next: Machine) {
    Machine(Between, frames, None)
  }

  /** A value may start here. */
  predicate Ready(frames: seq<Frame>) {
    || frames == []
    || (Top(frames).ArrayFrame? && (Top(frames).due.ElementOrClose? || Top(frames).due.Element?))
    || (Top(frames).ObjectFrame? && Top(frames).due.ValueDue?)
  }

  lemma ReadyStarts(frames: seq<Frame>, c: byte)
    requires Ready(frames) && !IsSpace(c) && c != CLOSE_BRACKET
    ensures FeedByte(At(frames), c) == StartValue(At(frames), c)
    ensures !KeyDue(frames)
  {
  }

  lemma WordStarts(frames: seq<Frame>, word: bytes)
    requires Ready(frames) && word in {NULL_WORD, TRUE_WORD, FALSE_WORD}
    ensures |word| > 1 && FeedByte(At(frames), word[0]) == At(frames).(lex := InLiteral(word, 1))
  {
    ReadyStarts(frames, word[0]);
    hide FeedByte, Ready;
  }

  lemma FeedScalarWord(frames: seq<Frame>, word: bytes)
    requires Ready(frames) && word in {NULL_WORD, TRUE_WORD, FALSE_WORD}
    ensures Feed(At(frames), word) == Attach(frames, LiteralValue(word))
  {
    WordStarts(frames, word);
    hide Feed, FeedByte, Attach, Ready, LiteralValue;
    FeedHead(At(frames), word[0], word[1..]);
    assert word == [word[0]] + word[1..];
    FeedWord(At(frames).(lex := InLiteral(word, 1)), word, 1);
  }

  lemma NumberStarts(frames: seq<Frame>, c: byte)
    requires Ready(frames) && (c == MINUS || IsDigit(c))
    ensures FeedByte(At(frames), c) == Machine(InNumber([c]), frames, None)
  {
    ReadyStarts(frames, c);
  }

  lemma NumberRest(literal: bytes) returns (rest: bytes)
    requires literal != [] && AllNumberBytes(literal)
    ensures rest == literal[1..] && literal == [literal[0]] + rest && AllNumberBytes(rest)
  {
    rest := literal[1..];
  }

  lemma FeedScalarNumber(frames: seq<Frame>, literal: bytes)
    requires Ready(frames) && IsNumberLiteral(literal) && |literal| < MAX_NUMBER_LEN
    ensures Settle(Feed(At(frames), literal)) == Attach(frames, Number(literal))
  {
    LiteralBytes(literal);
    hide Ready, IsNumberLiteral, AllNumberBytes, FeedByte, Feed, Attach;
    var rest := NumberRest(literal);
    NumberStarts(frames, literal[0]);
    FeedHead(At(frames), literal[0], rest);
    FeedNumber(Machine(InNumber([literal[0]]), frames, None), rest);
  }

  lemma FeedScalarString(frames: seq<Frame>, text: bytes)
    requires Ready(frames)
    ensures Feed(At(frames), Quote(text)) == Attach(frames, String(text))
  {
    ReadyStarts(frames, QUOTE);
    FeedQuote(At(frames), At(frames).(lex := InString(false, [], None)), false, text);
  }

  lemma SettledAttach(frames: seq<Frame>, v: Value)
    ensures Settle(Attach(frames, v)) == Attach(frames, v)
  {
  }

  /** Joining a value to the array on top. */
  lemma AttachToArray(frames: seq<Frame>, acc: seq<Value>, due: Expect, v: Value)
    ensures Attach(frames + [ArrayFrame(acc, due)], v) == At(frames + [ArrayFrame(acc + [v], CommaOrClose)])
  {
    var f := ArrayFrame(acc, due);
    assert (frames + [f])[|frames| := Joined(f, v)] == frames + [Joined(f, v)];
  }

  lemma AttachToObject(frames: seq<Frame>, acc: seq<Member>, key: bytes, v: Value)
    ensures
      Attach(frames + [ObjectFrame(acc, key, ValueDue)], v)
      == At(frames + [ObjectFrame(acc + [Member(key, v)], [], CommaOrClose)])
  {
    var f := ObjectFrame(acc, key, ValueDue);
    assert (frames + [f])[|frames| := Joined(f, v)] == frames + [Joined(f, v)];
  }

  /** The comma after an element or member. */
  lemma FeedComma(m: Machine, frames: seq<Frame>, f: Frame)
    requires Settle(m) == At(frames + [f]) && f.due.CommaOrClose?
    ensures FeedByte(m, COMMA) == At(frames + [f.(due := Element)])
  {
    SettledFeed(m, COMMA);
    assert (frames + [f])[|frames| := f.(due := Element)] == frames + [f.(due := Element)];
  }

  /** The closing bracket hands the finished container to whatever encloses it. */
  lemma FeedClose(m: Machine, frames: seq<Frame>, f: Frame)
    requires Settle(m) == At(frames + [f]) && (f.due.CommaOrClose? || f.due.ElementOrClose?)
    ensures FeedByte(m, CloseByte(f)) == Attach(frames, Closed(f))
  {
    SettledFeed(m, CloseByte(f));
    assert Pop(frames + [f]) == frames;
  }

  lemma FeedContainer(frames: seq<Frame>, open: byte, f: Frame, inner: bytes, last: Frame)
    requires Ready(frames) && |frames| < MAX_DEPTH
    requires
      || (open == OPEN_BRACKET && f == ArrayFrame([], ElementOrClose))
      || (open == OPEN_BRACE && f == ObjectFrame([], [], ElementOrClose))
    requires Settle(Feed(At(frames + [f]), inner)) == At(frames + [last])
    requires last.due.CommaOrClose? || last.due.ElementOrClose?
    ensures Feed(At(frames), [open] + inner + [CloseByte(last)]) == Attach(frames, Closed(last))
  {
    ReadyStarts(frames, open);
    var mid := Feed(At(frames + [f]), inner);
    FeedClose(mid, frames, last);
    FeedOne(mid, CloseByte(last));
    FeedConcat(At(frames + [f]), inner, [CloseByte(last)]);
    FeedHead(At(frames), open, inner + [CloseByte(last)]);
    assert [open] + inner + [CloseByte(last)] == [open] + (inner + [CloseByte(last)]);
  }

  /** Feeding a tree's text where a value may start attaches the tree. */
  lemma {:induction false} FeedValue(frames: seq<Frame>, v: Value)
    requires Ready(frames) && NumbersFit(v) && |frames| + Depth(v) <= MAX_DEPTH
    ensures Settle(Feed(At(frames), Text(v))) == Attach(frames, v)
    decreases v, 1
  {
    SettledAttach(frames, v);
    match v
    case Null => FeedScalarWord(frames, NULL_WORD);
    case Bool(b) => FeedScalarWord(frames, Text(v));
    case Number(literal) => FeedScalarNumber(frames, literal);
    case String(text) => FeedScalarString(frames, text);
    case Array(items) =>
      var f := ArrayFrame([], ElementOrClose);
      FeedItems(At(frames + [f]), frames, [], items, true);
      assert [] + items == items;
      FeedContainer(frames, OPEN_BRACKET, f, ItemsText(items, true), ArrayFrame(items, AfterItems(|items|, true)));
    case Object(members) =>
      var f := ObjectFrame([], [], ElementOrClose);
      FeedMembers(At(frames + [f]), frames, [], members, true);
      assert [] + members == members;
      FeedContainer(frames, OPEN_BRACE, f, MembersText(members, true),
                    ObjectFrame(members, [], AfterItems(|members|, true)));
  }

  function AfterItems(n: nat, first: bool): (result: Expect) {
    if n == 0 && first then ElementOrClose else CommaOrClose
  }

  lemma {:induction false} FeedItems(m: Machine, frames: seq<Frame>, acc: seq<Value>, items: seq<Value>, first: bool)
    requires Settle(m) == At(frames + [ArrayFrame(acc, AfterItems(0, first))])
    requires first ==> !m.lex.InNumber?
    requires ItemsFit(items) && |frames| + 1 + ItemsDepth(items) <= MAX_DEPTH
    ensures
      Settle(Feed(m, ItemsText(items, first)))
      == At(frames + [ArrayFrame(acc + items, AfterItems(|items|, first))])
    decreases items, 0
  {
    if items == [] {
      assert acc + items == acc;
    } else {
      var v := items[0];
      var before := frames + [ArrayFrame(acc, if first then ElementOrClose else Element)];
      if !first { FeedComma(m, frames, ArrayFrame(acc, CommaOrClose)); }
      FeedValue(before, v);
      AttachToArray(frames, acc, before[|frames|].due, v);
      var after := Feed(At(before), Text(v));
      FeedItems(after, frames, acc + [v], items[1..], false);
      assert acc + [v] + items[1..] == acc + items;
      FeedSeparated(m, At(before), first, Text(v), ItemsText(items[1..], false));
    }
  }

  /** An optional comma, then an element, then the rest. */
  lemma FeedSeparated(m: Machine, before: Machine, first: bool, text: bytes, rest: bytes)
    requires if first then m == before else FeedByte(m, COMMA) == before
    ensures Feed(m, (if first then [] else [COMMA]) + text + rest) == Feed(Feed(before, text), rest)
  {
    hide Feed, FeedByte;
    FeedConcat(before, text, rest);
    FeedHead(m, COMMA, text + rest);
    assert [COMMA] + text + rest == [COMMA] + (text + rest);
    assert [] + text + rest == text + rest;
  }

  /** A member's key and colon leave the object waiting for the value. */
  lemma FeedKey(frames: seq<Frame>, acc: seq<Member>, due: Expect, key: bytes)
    requires due.ElementOrClose? || due.Element?
    ensures
      Feed(At(frames + [ObjectFrame(acc, [], due)]), Quote(key) + [COLON])
      == At(frames + [ObjectFrame(acc, key, ValueDue)])
  {
    var f := ObjectFrame(acc, [], due);
    var keyed := ObjectFrame(acc, key, ColonDue);
    var valued := ObjectFrame(acc, key, ValueDue);
    var start := At(frames + [f]);
    FeedQuote(start, start.(lex := InString(true, [], None)), true, key);
    FeedConcat(start, Quote(key), [COLON]);
    assert (frames + [f])[|frames| := keyed] == frames + [keyed];
    FeedOne(At(frames + [keyed]), COLON);
    assert (frames + [keyed])[|frames| := valued] == frames + [valued];
  }

  /** One member, fed after the brace or the comma before it. */
  lemma {:induction false} FeedMember(frames: seq<Frame>, acc: seq<Member>, due: Expect, member: Member)
    requires due.ElementOrClose? || due.Element?
    requires NumbersFit(member.value) && |frames| + 1 + Depth(member.value) <= MAX_DEPTH
    ensures
      Settle(Feed(At(frames + [ObjectFrame(acc, [], due)]), Quote(member.key) + [COLON] + Text(member.value)))
      == At(frames + [ObjectFrame(acc + [member], [], CommaOrClose)])
    decreases member, 2
  {
    var Member(key, v) := member;
    FeedKey(frames, acc, due, key);
    FeedValue(frames + [ObjectFrame(acc, key, ValueDue)], v);
    AttachToObject(frames, acc, key, v);
    FeedConcat(At(frames + [ObjectFrame(acc, [], due)]), Quote(key) + [COLON], Text(v));
  }

  lemma {:induction false} FeedMembers(
    m: Machine, frames: seq<Frame>, acc: seq<Member>, members: seq<Member>, first: bool)
    requires Settle(m) == At(frames + [ObjectFrame(acc, [], AfterItems(0, first))])
    requires first ==> !m.lex.InNumber?
    requires MembersFit(members) && |frames| + 1 + MembersDepth(members) <= MAX_DEPTH
    ensures
      Settle(Feed(m, MembersText(members, first)))
      == At(frames + [ObjectFrame(acc + members, [], AfterItems(|members|, first))])
    decreases members, 0
  {
    if members == [] {
      assert acc + members == acc;
    } else {
      MembersTextSplit(members, first);
      hide Feed, FeedByte, Quote, Text, MembersText, Depth, NumbersFit;
      var member := members[0];
      var due := if first then ElementOrClose else Element;
      var before := At(frames + [ObjectFrame(acc, [], due)]);
      if !first { FeedComma(m, frames, ObjectFrame(acc, [], CommaOrClose)); }
      FeedMember(frames, acc, due, member);
      var text, rest := Quote(member.key) + [COLON] + Text(member.value), MembersText(members[1..], false);
      FeedMembers(Feed(before, text), frames, acc + [member], members[1..], false);
      assert acc + [member] + members[1..] == acc + members;
      FeedSeparated(m, before, first, text, rest);
    }
  }

  lemma MembersTextSplit(members: seq<Member>, first: bool)
    requires members != []
    ensures
      MembersText(members, first)
      == (if first then [] else [COMMA])
         + (Quote(members[0].key) + [COLON] + Text(members[0].value))
         + MembersText(members[1..], false)
  {
  }

  /** Past the cap the machine fails on the bracket that goes too deep, and stays failed. */
  lemma {:induction false} DeepValueFails(frames: seq<Frame>, v: Value)
    requires Ready(frames) && NumbersFit(v) && |frames| <= MAX_DEPTH < |frames| + Depth(v)
    ensures Feed(At(frames), Text(v)) == FAILED
    decreases v, 1
  {
    var open: byte := if v.Array? then OPEN_BRACKET else OPEN_BRACE;
    var inner := if v.Array? then ItemsText(v.items, true) else MembersText(v.members, true);
    var close: byte := if v.Array? then CLOSE_BRACKET else CLOSE_BRACE;
    ReadyStarts(frames, open);
    FeedHead(At(frames), open, inner + [close]);
    assert [open] + inner + [close] == [open] + (inner + [close]);
    if |frames| == MAX_DEPTH {
      FailedStays(inner + [close]);
    } else {
      var f := if v.Array? then ArrayFrame([], ElementOrClose) else ObjectFrame([], [], ElementOrClose);
      if v.Array? {
        DeepItemsFail(At(frames + [f]), frames, [], v.items, true);
      } else {
        DeepMembersFail(At(frames + [f]), frames, [], v.members, true);
      }
      FeedConcat(At(frames + [f]), inner, [close]);
      FailedStays([close]);
    }
  }

  lemma {:induction false} DeepItemsFail(
    m: Machine, frames: seq<Frame>, acc: seq<Value>, items: seq<Value>, first: bool)
    requires Settle(m) == At(frames + [ArrayFrame(acc, AfterItems(0, first))])
    requires first ==> !m.lex.InNumber?
    requires ItemsFit(items) && |frames| < MAX_DEPTH < |frames| + 1 + ItemsDepth(items)
    ensures Feed(m, ItemsText(items, first)) == FAILED
    decreases items, 0
  {
    var v, rest := items[0], ItemsText(items[1..], false);
    var before := frames + [ArrayFrame(acc, if first then ElementOrClose else Element)];
    if !first { FeedComma(m, frames, ArrayFrame(acc, CommaOrClose)); }
    FeedSeparated(m, At(before), first, Text(v), rest);
    if |before| + Depth(v) > MAX_DEPTH {
      DeepValueFails(before, v);
      FailedStays(rest);
    } else {
      FeedValue(before, v);
      AttachToArray(frames, acc, before[|frames|].due, v);
      DeepItemsFail(Feed(At(before), Text(v)), frames, acc + [v], items[1..], false);
    }
  }

  lemma {:induction false} DeepMembersFail(
    m: Machine, frames: seq<Frame>, acc: seq<Member>, members: seq<Member>, first: bool)
    requires Settle(m) == At(frames + [ObjectFrame(acc, [], AfterItems(0, first))])
    requires first ==> !m.lex.InNumber?
    requires MembersFit(members) && |frames| < MAX_DEPTH < |frames| + 1 + MembersDepth(members)
    ensures Feed(m, MembersText(members, first)) == FAILED
    decreases members, 0
  {
    var member, rest := members[0], MembersText(members[1..], false);
    var due := if first then ElementOrClose else Element;
    var before := At(frames + [ObjectFrame(acc, [], due)]);
    var text := Quote(member.key) + [COLON] + Text(member.value);
    if !first { FeedComma(m, frames, ObjectFrame(acc, [], CommaOrClose)); }
    FeedSeparated(m, before, first, text, rest);
    MembersTextSplit(members, first);
    if |frames| + 1 + Depth(member.value) > MAX_DEPTH {
      FeedKey(frames, acc, due, member.key);
      FeedConcat(before, Quote(member.key) + [COLON], Text(member.value));
      DeepValueFails(frames + [ObjectFrame(acc, member.key, ValueDue)], member.value);
      FailedStays(rest);
    } else {
      FeedMember(frames, acc, due, member);
      DeepMembersFail(Feed(before, text), frames, acc + [member], members[1..], false);
    }
  }

  /** Parsing what the writer wrote for a tree gives the tree back, or fails if it nests too deep. */
  lemma ParseUndoesWrite(v: Value)
    requires NumbersFit(v)
    ensures
      Parse(JsonWriter.WriteValue(JsonWriter.FRESH, v).buf)
      == if Depth(v) <= MAX_DEPTH then Some(v) else None
  {
    hide Feed, Text, NumbersFit, Depth;
    JsonWriter.DocumentText(v);
    var m := Feed(START, Text(v));
    if Depth(v) <= MAX_DEPTH {
      FeedValue([], v);
      assert Settle(m) == Machine(Done, [], Some(v));
    } else {
      DeepValueFails([], v);
    }
  }

  /** The same however the written bytes are cut into feeds. */
  lemma ParseUndoesWriteInChunks(v: Value, chunks: seq<bytes>)
    requires NumbersFit(v) && Depth(v) <= MAX_DEPTH
    requires Concat(chunks) == JsonWriter.WriteValue(JsonWriter.FRESH, v).buf
    ensures Finish(FeedChunks(START, chunks)) == Machine(Done, [], Some(v))
  {
    ChunksDoNotMatter(START, chunks);
    JsonWriter.DocumentText(v);
    FeedValue([], v);
    assert Settle(Feed(START, Text(v))) == Machine(Done, [], Some(v));
  }

  /** Two trees with the same text are the same tree. */
  lemma TextIsInjective(v: Value, w: Value)
    requires NumbersFit(v) && Depth(v) <= MAX_DEPTH
    requires NumbersFit(w) && Depth(w) <= MAX_DEPTH
    requires Text(v) == Text(w)
    ensures v == w
  {
    ParseUndoesWrite(v);
    ParseUndoesWrite(w);
    JsonWriter.DocumentText(v);
    JsonWriter.DocumentText(w);
  }
}
