/** The language of the parser: every derivation is read as the tree it denotes, and nothing else is accepted. */
module JsonLanguage {
  import opened Basics
  import opened JsonText
  import opened JsonParser
  import opened JsonRoundTrip
  import opened JsonGrammar

  // ----- every derivation is read -----

  lemma WordTexts()
    ensures Ascii("null") == NULL_WORD && Ascii("true") == TRUE_WORD && Ascii("false") == FALSE_WORD
  {
  }

  lemma FeedWordBody(frames: seq<Frame>, b: Body)
    requires Ready(frames) && b.Word? && BodyOk(b)
    ensures Feed(At(frames), BodyText(b)) == Attach(frames, BodyValue(b))
  {
    hide Ready, Feed;
    WordTexts();
    FeedScalarWord(frames, BodyText(b));
  }

  lemma FeedStringBody(frames: seq<Frame>, ps: seq<Piece>)
    requires Ready(frames) && PiecesOk(ps)
    ensures Feed(At(frames), [QUOTE] + PiecesText(ps) + [QUOTE]) == Attach(frames, String(PiecesBytes(ps)))
  {
    ReadyStarts(frames, QUOTE);
    var open := At(frames).(lex := InString(false, [], None));
    assert FeedByte(At(frames), QUOTE) == open;
    hide FeedByte, Ready;
    FeedString(open, false, ps, []);
    FeedHead(At(frames), QUOTE, PiecesText(ps) + [QUOTE] + []);
    assert [QUOTE] + PiecesText(ps) + [QUOTE] == [QUOTE] + (PiecesText(ps) + [QUOTE] + []);
    NothingFed(FinishString(open, false, PiecesBytes(ps)));
  }

  lemma {:induction false} FeedBody(frames: seq<Frame>, b: Body)
    requires Ready(frames) && BodyOk(b) && |frames| + Depth(BodyValue(b)) <= MAX_DEPTH
    ensures Settle(Feed(At(frames), BodyText(b))) == Attach(frames, BodyValue(b))
    ensures !b.Num? ==> Feed(At(frames), BodyText(b)) == Attach(frames, BodyValue(b))
    decreases b, 1
  {
    AttachRests(frames, BodyValue(b));
    match b
    case Word(_) => FeedWordBody(frames, b);
    case Num(literal) => FeedScalarNumber(frames, literal);
    case Str(pieces) => FeedStringBody(frames, pieces);
    case Arr(gap, items) =>
      var f := ArrayFrame([], ElementOrClose);
      if items == [] {
        SpacesSkipped(At(frames + [f]), gap);
        FeedContainer(frames, OPEN_BRACKET, f, gap, f);
      } else {
        FeedItemsOf(frames, [], ElementOrClose, items);
        assert [] + ItemValues(items) == ItemValues(items);
        FeedContainer(frames, OPEN_BRACKET, f, ItemsOf(items), ArrayFrame(ItemValues(items), CommaOrClose));
      }
    case Obj(gap, fields) =>
      var f := ObjectFrame([], [], ElementOrClose);
      if fields == [] {
        SpacesSkipped(At(frames + [f]), gap);
        FeedContainer(frames, OPEN_BRACE, f, gap, f);
      } else {
        FeedFieldsOf(frames, [], ElementOrClose, fields);
        assert [] + FieldValues(fields) == FieldValues(fields);
        FeedContainer(frames, OPEN_BRACE, f, FieldsOf(fields), ObjectFrame(FieldValues(fields), [], CommaOrClose));
      }
  }

  /** White space around a value does not count. */
  lemma {:induction false} FeedDoc(frames: seq<Frame>, d: Doc)
    requires Ready(frames) && DocOk(d) && |frames| + Depth(Denoted(d)) <= MAX_DEPTH
    ensures Settle(Feed(At(frames), DocText(d))) == Attach(frames, Denoted(d))
    decreases d, 2
  {
    FeedBody(frames, d.body);
    hide BodyText, BodyOk, Ready, Depth;
    SpacesSkipped(At(frames), d.before);
    AttachRests(frames, Denoted(d));
    var m := Feed(At(frames), BodyText(d.body));
    SpacesSettle(m, d.after);
    FeedConcat(At(frames), d.before + BodyText(d.body), d.after);
    FeedConcat(At(frames), d.before, BodyText(d.body));
  }

  lemma {:induction false} FeedItem(frames: seq<Frame>, acc: seq<Value>, due: Expect, item: Doc)
    requires (due.ElementOrClose? || due.Element?) && DocOk(item) && |frames| + 1 + Depth(Denoted(item)) <= MAX_DEPTH
    ensures
      Settle(Feed(At(frames + [ArrayFrame(acc, due)]), DocText(item)))
      == At(frames + [ArrayFrame(acc + [Denoted(item)], CommaOrClose)])
    decreases item, 3
  {
    hide Feed, Depth, DocOk, DocText, Attach;
    FeedDoc(frames + [ArrayFrame(acc, due)], item);
    AttachToArray(frames, acc, due, Denoted(item));
  }

  lemma {:induction false} FeedItemsOf(frames: seq<Frame>, acc: seq<Value>, due: Expect, items: seq<Doc>)
    requires items != [] && ItemsOk(items) && (due.ElementOrClose? || due.Element?)
    requires |frames| + 1 + ItemsDepth(ItemValues(items)) <= MAX_DEPTH
    ensures
      Settle(Feed(At(frames + [ArrayFrame(acc, due)]), ItemsOf(items)))
      == At(frames + [ArrayFrame(acc + ItemValues(items), CommaOrClose)])
    decreases items, 0
  {
    var f, v := ArrayFrame(acc, due), Denoted(items[0]);
    assert ItemValues(items)[1..] == ItemValues(items[1..]);
    FeedItem(frames, acc, due, items[0]);
    var m := Feed(At(frames + [f]), DocText(items[0]));
    if |items| == 1 {
      assert items[1..] == [] && ItemValues(items) == [v];
      assert DocText(items[0]) + [] == DocText(items[0]);
    } else {
      FeedItemsOf(frames, acc + [v], Element, items[1..]);
      assert acc + [v] + ItemValues(items[1..]) == acc + ItemValues(items);
      hide Depth, DocText, ItemsOk;
      FeedComma(m, frames, ArrayFrame(acc + [v], CommaOrClose));
      FeedConcat(At(frames + [f]), DocText(items[0]), [COMMA] + ItemsOf(items[1..]));
      FeedHead(m, COMMA, ItemsOf(items[1..]));
    }
  }

  lemma FeedKeyString(frames: seq<Frame>, acc: seq<Member>, due: Expect, ps: seq<Piece>)
    requires (due.ElementOrClose? || due.Element?) && PiecesOk(ps)
    ensures
      Feed(At(frames + [ObjectFrame(acc, [], due)]), [QUOTE] + PiecesText(ps) + [QUOTE])
      == At(frames + [ObjectFrame(acc, PiecesBytes(ps), ColonDue)])
  {
    hide *;
    var open := KeyOpens(frames, acc, due, PiecesBytes(ps));
    FeedString(open, true, ps, []);
    NothingFed(At(frames + [ObjectFrame(acc, PiecesBytes(ps), ColonDue)]));
    FeedHead(At(frames + [ObjectFrame(acc, [], due)]), QUOTE, PiecesText(ps) + [QUOTE] + []);
    assert [QUOTE] + PiecesText(ps) + [QUOTE] == [QUOTE] + (PiecesText(ps) + [QUOTE] + []);
  }

  /** The quote that opens a key, and what the key leaves behind once it is closed. */
  lemma KeyOpens(frames: seq<Frame>, acc: seq<Member>, due: Expect, key: bytes) returns (open: Machine)
    requires due.ElementOrClose? || due.Element?
    ensures open.lex == InString(true, [], None)
    ensures FeedByte(At(frames + [ObjectFrame(acc, [], due)]), QUOTE) == open
    ensures FinishString(open, true, key) == At(frames + [ObjectFrame(acc, key, ColonDue)])
  {
    var keyed := ObjectFrame(acc, key, ColonDue);
    open := At(frames + [ObjectFrame(acc, [], due)]).(lex := InString(true, [], None));
    assert (frames + [ObjectFrame(acc, [], due)])[|frames| := keyed] == frames + [keyed];
  }

  lemma ColonRead(frames: seq<Frame>, acc: seq<Member>, key: bytes)
    ensures
      Feed(At(frames + [ObjectFrame(acc, key, ColonDue)]), [COLON]) == At(frames + [ObjectFrame(acc, key, ValueDue)])
  {
    var valued := ObjectFrame(acc, key, ValueDue);
    FeedOne(At(frames + [ObjectFrame(acc, key, ColonDue)]), COLON);
    assert (frames + [ObjectFrame(acc, key, ColonDue)])[|frames| := valued] == frames + [valued];
  }

  /** A key with white space around it, and its colon. */
  lemma FeedFieldKey(frames: seq<Frame>, acc: seq<Member>, due: Expect, f: Field)
    requires due.ElementOrClose? || due.Element?
    requires Spaces(f.before) && PiecesOk(f.key) && Spaces(f.after)
    ensures
      Feed(At(frames + [ObjectFrame(acc, [], due)]),
           f.before + ([QUOTE] + PiecesText(f.key) + [QUOTE]) + f.after + [COLON])
      == At(frames + [ObjectFrame(acc, PiecesBytes(f.key), ValueDue)])
  {
    hide Feed, PiecesOk, Spaces, PiecesText, PiecesBytes;
    var start, text := At(frames + [ObjectFrame(acc, [], due)]), [QUOTE] + PiecesText(f.key) + [QUOTE];
    SpacesSkipped(start, f.before);
    FeedKeyString(frames, acc, due, f.key);
    SpacesSkipped(At(frames + [ObjectFrame(acc, PiecesBytes(f.key), ColonDue)]), f.after);
    ColonRead(frames, acc, PiecesBytes(f.key));
    FeedConcat(start, f.before, text);
    FeedConcat(start, f.before + text, f.after);
    FeedConcat(start, f.before + text + f.after, [COLON]);
  }

  lemma {:induction false} FeedField(frames: seq<Frame>, acc: seq<Member>, due: Expect, f: Field)
    requires due.ElementOrClose? || due.Element?
    requires Spaces(f.before) && PiecesOk(f.key) && Spaces(f.after) && DocOk(f.value)
    requires |frames| + 1 + Depth(Denoted(f.value)) <= MAX_DEPTH
    ensures
      Settle(Feed(At(frames + [ObjectFrame(acc, [], due)]), FieldText(f)))
      == At(frames + [ObjectFrame(acc + [Member(PiecesBytes(f.key), Denoted(f.value))], [], CommaOrClose)])
    decreases f, 3
  {
    FeedFieldKey(frames, acc, due, f);
    FeedDoc(frames + [ObjectFrame(acc, PiecesBytes(f.key), ValueDue)], f.value);
    AttachToObject(frames, acc, PiecesBytes(f.key), Denoted(f.value));
    hide Feed, Depth, DocOk;
    FeedConcat(At(frames + [ObjectFrame(acc, [], due)]),
               f.before + ([QUOTE] + PiecesText(f.key) + [QUOTE]) + f.after + [COLON], DocText(f.value));
  }

  lemma {:induction false} FeedFieldsOf(frames: seq<Frame>, acc: seq<Member>, due: Expect, fields: seq<Field>)
    requires fields != [] && FieldsOk(fields) && (due.ElementOrClose? || due.Element?)
    requires |frames| + 1 + MembersDepth(FieldValues(fields)) <= MAX_DEPTH
    ensures
      Settle(Feed(At(frames + [ObjectFrame(acc, [], due)]), FieldsOf(fields)))
      == At(frames + [ObjectFrame(acc + FieldValues(fields), [], CommaOrClose)])
    decreases fields, 0
  {
    var f, member := ObjectFrame(acc, [], due), Member(PiecesBytes(fields[0].key), Denoted(fields[0].value));
    assert FieldValues(fields)[1..] == FieldValues(fields[1..]);
    FeedField(frames, acc, due, fields[0]);
    var m := Feed(At(frames + [f]), FieldText(fields[0]));
    if |fields| == 1 {
      assert fields[1..] == [] && FieldValues(fields) == [member];
      assert FieldText(fields[0]) + [] == FieldText(fields[0]);
    } else {
      FeedFieldsOf(frames, acc + [member], Element, fields[1..]);
      assert acc + [member] + FieldValues(fields[1..]) == acc + FieldValues(fields);
      hide Depth, FieldText, FieldsOk;
      FeedComma(m, frames, ObjectFrame(acc + [member], [], CommaOrClose));
      FeedConcat(At(frames + [f]), FieldText(fields[0]), [COMMA] + FieldsOf(fields[1..]));
      FeedHead(m, COMMA, FieldsOf(fields[1..]));
    }
  }

  // ----- nothing else is accepted -----

  /** The white space a text starts with. */
  lemma {:induction false} SplitSpaces(m: Machine, s: bytes) returns (ws: bytes, rest: bytes)
    requires m.lex.Between? && Accepts(m, s)
    ensures s == ws + rest && Spaces(ws) && rest != [] && !IsSpace(rest[0]) && Accepts(m, rest)
    decreases |s|
  {
    assert s != [];
    if IsSpace(s[0]) {
      assert FeedByte(m, s[0]) == m;
      ws, rest := SplitSpaces(m, s[1..]);
      ws := [s[0]] + ws;
      assert s == [s[0]] + s[1..];
    } else {
      ws, rest := [], s;
    }
  }

  /** A text resumes behind a number as if the number were finished, unless it goes on. */
  lemma Resumes(m: Machine, rest: bytes)
    requires m.lex.InNumber? ==> rest == [] || !IsNumberByte(rest[0])
    ensures Accepts(m, rest) <==> Accepts(Settle(m), rest)
  {
    if m.lex.InNumber? && rest != [] { SettledFeed(m, rest[0]); }
  }

  /** Behind a value that was accepted, the rest is accepted with the value attached. */
  lemma BodyTaken(frames: seq<Frame>, b: Body, rest: bytes)
    requires Ready(frames) && BodyOk(b) && |frames| + Depth(BodyValue(b)) <= MAX_DEPTH
    requires b.Num? ==> rest == [] || !IsNumberByte(rest[0])
    ensures Accepts(At(frames), BodyText(b) + rest) <==> Accepts(Attach(frames, BodyValue(b)), rest)
  {
    FeedBody(frames, b);
    FeedConcat(At(frames), BodyText(b), rest);
    AttachRests(frames, BodyValue(b));
    hide Feed, BodyText, BodyOk, BodyValue, Ready, Depth;
    Resumes(Feed(At(frames), BodyText(b)), rest);
  }

  lemma {:induction false} WordCut(m: Machine, word: bytes, index: nat, s: bytes) returns (rest: bytes)
    requires m.lex == InLiteral(word, index) && index < |word| && Accepts(m, s)
    ensures s == word[index..] + rest
    decreases |word| - index
  {
    assert s != [];
    if s[0] != word[index] { NeverAccepts(s[1..]); }
    assert word[index..] == [word[index]] + word[index + 1..];
    if index + 1 < |word| {
      rest := WordCut(m.(lex := InLiteral(word, index + 1)), word, index + 1, s[1..]);
    } else {
      rest := s[1..];
    }
    assert s == [s[0]] + s[1..];
  }

  lemma NumberStops(m: Machine, s: bytes)
    requires m.lex.InNumber? && (s == [] || !IsNumberByte(s[0])) && Accepts(m, s)
    ensures IsNumberLiteral(m.lex.literal)
  {
    Resumes(m, s);
    NeverAccepts(s);
    hide Feed, IsNumberLiteral;
  }

  lemma NumberGoesOn(m: Machine, s: bytes)
    requires m.lex.InNumber? && s != [] && IsNumberByte(s[0]) && Accepts(m, s)
    ensures |m.lex.literal| < MAX_NUMBER_LEN - 1
    ensures Accepts(m.(lex := InNumber(m.lex.literal + [s[0]])), s[1..])
  {
    NeverAccepts(s[1..]);
  }

  /** The longest number token; the next byte ends it. */
  lemma {:induction false} NumberCut(m: Machine, s: bytes) returns (digits: bytes, rest: bytes)
    requires m.lex.InNumber? && |m.lex.literal| < MAX_NUMBER_LEN && Accepts(m, s)
    ensures s == digits + rest && (rest == [] || !IsNumberByte(rest[0]))
    ensures IsNumberLiteral(m.lex.literal + digits) && |m.lex.literal + digits| < MAX_NUMBER_LEN
    decreases s
  {
    hide Accepts, IsNumberLiteral;
    if s != [] && IsNumberByte(s[0]) {
      NumberGoesOn(m, s);
      var more;
      more, rest := NumberCut(m.(lex := InNumber(m.lex.literal + [s[0]])), s[1..]);
      digits := [s[0]] + more;
      assert s == [s[0]] + s[1..];
      assert m.lex.literal + [s[0]] + more == m.lex.literal + digits;
    } else {
      digits, rest := [], s;
      assert m.lex.literal + [] == m.lex.literal;
      NumberStops(m, s);
    }
  }

  /** A value may start with `c`: it does not close the container instead. */
  predicate Starts(frames: seq<Frame>, c: byte) {
    Ready(frames) && !IsSpace(c) && c != CLOSE_BRACKET
  }

  lemma TextCut(frames: seq<Frame>, s: bytes) returns (b: Body, rest: bytes)
    requires s != [] && s[0] == QUOTE && Ready(frames) && Accepts(At(frames), s)
    ensures b.Str? && BodyOk(b) && s == BodyText(b) + rest
  {
    ReadyStarts(frames, s[0]);
    hide Ready, PiecesOk, PiecesText;
    var ps;
    ps, rest := StringCut(At(frames).(lex := InString(false, [], None)), false, [], s[1..]);
    b := Str(ps);
    QuotedText(s, PiecesText(ps), rest);
  }

  lemma LiteralCut(frames: seq<Frame>, s: bytes) returns (b: Body, rest: bytes)
    requires s != [] && (s[0] == MINUS || IsDigit(s[0])) && Ready(frames) && Accepts(At(frames), s)
    ensures b.Num? && BodyOk(b) && s == BodyText(b) + rest && (rest == [] || !IsNumberByte(rest[0]))
  {
    ReadyStarts(frames, s[0]);
    hide Ready, IsNumberLiteral;
    var digits;
    digits, rest := NumberCut(At(frames).(lex := InNumber([s[0]])), s[1..]);
    b := Num([s[0]] + digits);
    assert s == [s[0]] + s[1..];
  }

  /** A scalar. */
  lemma ScalarCut(frames: seq<Frame>, s: bytes) returns (b: Body, rest: bytes)
    requires s != [] && Starts(frames, s[0]) && Accepts(At(frames), s) && s[0] != OPEN_BRACE && s[0] != OPEN_BRACKET
    ensures BodyOk(b) && s == BodyText(b) + rest && Depth(BodyValue(b)) == 0
    ensures b.Num? ==> rest == [] || !IsNumberByte(rest[0])
  {
    if s[0] == QUOTE {
      b, rest := TextCut(frames, s);
    } else if s[0] == MINUS || IsDigit(s[0]) {
      b, rest := LiteralCut(frames, s);
    } else {
      ReadyStarts(frames, s[0]);
      NeverAccepts(s[1..]);
      WordTexts();
      hide Ready, Feed;
      var word := if s[0] == 0x74 then TRUE_WORD else if s[0] == 0x66 then FALSE_WORD else NULL_WORD;
      rest := WordCut(At(frames).(lex := InLiteral(word, 1)), word, 1, s[1..]);
      b := Word(JsonParser.LiteralValue(word));
      assert s == [s[0]] + s[1..] && word == [s[0]] + word[1..];
    }
  }

  /** A bracket opens a container, if the nesting allows it. */
  lemma ContainerOpensHere(frames: seq<Frame>, s: bytes)
    requires s != [] && Ready(frames) && (s[0] == OPEN_BRACE || s[0] == OPEN_BRACKET) && Accepts(At(frames), s)
    ensures |frames| < MAX_DEPTH
    ensures s[0] == OPEN_BRACKET ==> Accepts(At(frames + [ArrayFrame([], ElementOrClose)]), s[1..])
    ensures s[0] == OPEN_BRACE ==> Accepts(At(frames + [ObjectFrame([], [], ElementOrClose)]), s[1..])
  {
    ReadyStarts(frames, s[0]);
    NeverAccepts(s[1..]);
  }

  /** Where an item is due no bracket closes the array; the exception is an array still empty. */
  lemma ItemStarts(frames: seq<Frame>, acc: seq<Value>, due: Expect, s: bytes)
    requires s != [] && !IsSpace(s[0]) && Accepts(At(frames + [ArrayFrame(acc, due)]), s)
    requires due.Element? || (due.ElementOrClose? && s[0] != CLOSE_BRACKET)
    ensures Starts(frames + [ArrayFrame(acc, due)], s[0])
  {
    NeverAccepts(s[1..]);
  }

  /** Behind an item comes a comma or the closing bracket. */
  lemma AfterItem(frames: seq<Frame>, acc: seq<Value>, s: bytes)
    requires s != [] && !IsSpace(s[0]) && Accepts(At(frames + [ArrayFrame(acc, CommaOrClose)]), s)
    ensures s[0] == CLOSE_BRACKET || s[0] == COMMA
    ensures s[0] == COMMA ==> Accepts(At(frames + [ArrayFrame(acc, Element)]), s[1..])
  {
    NeverAccepts(s[1..]);
    FeedComma(At(frames + [ArrayFrame(acc, CommaOrClose)]), frames, ArrayFrame(acc, CommaOrClose));
  }

  lemma {:induction false} BodyCut(frames: seq<Frame>, s: bytes) returns (b: Body, rest: bytes)
    requires s != [] && Starts(frames, s[0]) && Accepts(At(frames), s) && |frames| <= MAX_DEPTH
    ensures BodyOk(b) && s == BodyText(b) + rest && |frames| + Depth(BodyValue(b)) <= MAX_DEPTH
    ensures b.Num? ==> rest == [] || !IsNumberByte(rest[0])
    decreases |s|, 1
  {
    assert s == [s[0]] + s[1..];
    if s[0] == OPEN_BRACKET {
      ContainerOpensHere(frames, s);
      var gap, tail := SplitSpaces(At(frames + [ArrayFrame([], ElementOrClose)]), s[1..]);
      if tail[0] == CLOSE_BRACKET {
        b, rest := Arr(gap, []), tail[1..];
        assert s == BodyText(b) + rest;
      } else {
        var items;
        items, rest := ItemsCut(frames, [], ElementOrClose, gap, tail);
        b := Arr([], items);
        assert s == [OPEN_BRACKET] + (ItemsOf(items) + [CLOSE_BRACKET] + rest);
      }
    } else if s[0] == OPEN_BRACE {
      ContainerOpensHere(frames, s);
      b, rest := ObjectCut(frames, s);
    } else {
      b, rest := ScalarCut(frames, s);
    }
  }

  /** One item with the white space around it; what follows it is a comma or the closing bracket. */
  lemma {:induction false} ItemCut(frames: seq<Frame>, acc: seq<Value>, due: Expect, before: bytes, s: bytes)
    returns (item: Doc, next: bytes)
    requires s != [] && !IsSpace(s[0]) && Spaces(before) && Accepts(At(frames + [ArrayFrame(acc, due)]), s)
    requires due.Element? || (due.ElementOrClose? && s[0] != CLOSE_BRACKET)
    requires |frames| < MAX_DEPTH
    ensures DocOk(item) && before + s == DocText(item) + next && |next| < |s|
    ensures |frames| + 1 + Depth(Denoted(item)) <= MAX_DEPTH
    ensures next != [] && (next[0] == CLOSE_BRACKET || next[0] == COMMA)
    ensures next[0] == COMMA ==> Accepts(At(frames + [ArrayFrame(acc + [Denoted(item)], Element)]), next[1..])
    decreases |s|, 2
  {
    ItemStarts(frames, acc, due, s);
    hide Accepts, Ready, Attach;
    var b, tail := BodyCut(frames + [ArrayFrame(acc, due)], s);
    BodyTakes(b);
    BodyTaken(frames + [ArrayFrame(acc, due)], b, tail);
    AttachToArray(frames, acc, due, BodyValue(b));
    hide BodyOk, BodyText, BodyValue, Depth;
    var joined := acc + [BodyValue(b)];
    var after;
    after, next := SplitSpaces(At(frames + [ArrayFrame(joined, CommaOrClose)]), tail);
    AfterItem(frames, joined, next);
    item := Doc(before, b, after);
    assert before + (BodyText(b) + (after + next)) == before + BodyText(b) + after + next;
  }

  lemma BodyTakes(b: Body)
    requires BodyOk(b)
    ensures BodyText(b) != []
  {
    WordTexts();
    if b.Num? { LiteralBytes(b.literal); }
  }

  lemma OneItem(item: Doc)
    ensures ItemsOf([item]) == DocText(item) && (ItemsOk([item]) <==> DocOk(item))
    ensures ItemsDepth(ItemValues([item])) == Depth(Denoted(item))
  {
    assert [item][1..] == [];
    assert DocText(item) + [] == DocText(item);
    assert ItemValues([item]) == [Denoted(item)] && ItemValues([item])[1..] == [];
    hide DocText, DocOk, Denoted, Depth;
  }

  lemma MoreItems(item: Doc, more: seq<Doc>)
    requires more != []
    ensures ItemsOf([item] + more) == DocText(item) + [COMMA] + ItemsOf(more)
    ensures ItemsOk([item] + more) <==> DocOk(item) && ItemsOk(more)
    ensures
      ItemsDepth(ItemValues([item] + more)) == Max(Depth(Denoted(item)), ItemsDepth(ItemValues(more)))
  {
    var all := [item] + more;
    assert all[0] == item && all[1..] == more;
    assert ItemValues(all)[1..] == ItemValues(more);
    assert DocText(item) + ([COMMA] + ItemsOf(more)) == DocText(item) + [COMMA] + ItemsOf(more);
    hide DocText, DocOk, Denoted, Depth;
  }

  /** The items of an array, up to its closing bracket. */
  lemma {:induction false} ItemsCut(frames: seq<Frame>, acc: seq<Value>, due: Expect, before: bytes, s: bytes)
    returns (items: seq<Doc>, rest: bytes)
    requires s != [] && !IsSpace(s[0]) && Spaces(before) && Accepts(At(frames + [ArrayFrame(acc, due)]), s)
    requires due.Element? || (due.ElementOrClose? && s[0] != CLOSE_BRACKET)
    requires |frames| < MAX_DEPTH
    ensures items != [] && ItemsOk(items) && before + s == ItemsOf(items) + [CLOSE_BRACKET] + rest
    ensures |frames| + 1 + ItemsDepth(ItemValues(items)) <= MAX_DEPTH
    decreases |s|, 3
  {
    var item, next := ItemCut(frames, acc, due, before, s);
    hide Accepts, DocOk, DocText, Denoted, Depth, ItemsOk, ItemsOf, ItemsDepth, ItemValues;
    assert next == [next[0]] + next[1..];
    if next[0] == CLOSE_BRACKET {
      items, rest := [item], next[1..];
      OneItem(item);
      assert DocText(item) + ([CLOSE_BRACKET] + rest) == DocText(item) + [CLOSE_BRACKET] + rest;
    } else {
      var gap, last := SplitSpaces(At(frames + [ArrayFrame(acc + [Denoted(item)], Element)]), next[1..]);
      var more;
      more, rest := ItemsCut(frames, acc + [Denoted(item)], Element, gap, last);
      items := [item] + more;
      MoreItems(item, more);
      Regrouped(DocText(item), [COMMA], ItemsOf(more), [CLOSE_BRACKET], rest);
    }
  }

  // ----- members -----

  /** Where a member is due there is a key. */
  lemma KeyStarts(frames: seq<Frame>, acc: seq<Member>, due: Expect, s: bytes)
    requires s != [] && !IsSpace(s[0]) && Accepts(At(frames + [ObjectFrame(acc, [], due)]), s)
    requires due.Element? || (due.ElementOrClose? && s[0] != CLOSE_BRACE)
    ensures s[0] == QUOTE
    ensures Accepts(At(frames + [ObjectFrame(acc, [], due)]).(lex := InString(true, [], None)), s[1..])
  {
    NeverAccepts(s[1..]);
  }

  lemma ColonFollows(frames: seq<Frame>, acc: seq<Member>, key: bytes, s: bytes)
    requires s != [] && !IsSpace(s[0]) && Accepts(At(frames + [ObjectFrame(acc, key, ColonDue)]), s)
    ensures s[0] == COLON && Accepts(At(frames + [ObjectFrame(acc, key, ValueDue)]), s[1..])
  {
    NeverAccepts(s[1..]);
    ColonRead(frames, acc, key);
    FeedOne(At(frames + [ObjectFrame(acc, key, ColonDue)]), COLON);
  }

  lemma ValueStarts(frames: seq<Frame>, acc: seq<Member>, key: bytes, s: bytes)
    requires s != [] && !IsSpace(s[0]) && Accepts(At(frames + [ObjectFrame(acc, key, ValueDue)]), s)
    ensures Starts(frames + [ObjectFrame(acc, key, ValueDue)], s[0])
  {
    NeverAccepts(s[1..]);
  }

  /** Behind a member comes a comma or the closing brace. */
  lemma AfterMember(frames: seq<Frame>, acc: seq<Member>, s: bytes)
    requires s != [] && !IsSpace(s[0]) && Accepts(At(frames + [ObjectFrame(acc, [], CommaOrClose)]), s)
    ensures s[0] == CLOSE_BRACE || s[0] == COMMA
    ensures s[0] == COMMA ==> Accepts(At(frames + [ObjectFrame(acc, [], Element)]), s[1..])
  {
    NeverAccepts(s[1..]);
    FeedComma(At(frames + [ObjectFrame(acc, [], CommaOrClose)]), frames, ObjectFrame(acc, [], CommaOrClose));
  }

  lemma KeyStringCut(frames: seq<Frame>, acc: seq<Member>, due: Expect, s: bytes)
    returns (key: seq<Piece>, tail: bytes)
    requires s != [] && !IsSpace(s[0]) && Accepts(At(frames + [ObjectFrame(acc, [], due)]), s)
    requires due.Element? || (due.ElementOrClose? && s[0] != CLOSE_BRACE)
    ensures PiecesOk(key) && s == [QUOTE] + PiecesText(key) + [QUOTE] + tail
    ensures Accepts(At(frames + [ObjectFrame(acc, PiecesBytes(key), ColonDue)]), tail)
  {
    KeyStarts(frames, acc, due, s);
    hide Accepts, PiecesText, PiecesBytes, PiecesOk;
    var start := At(frames + [ObjectFrame(acc, [], due)]);
    key, tail := StringCut(start.(lex := InString(true, [], None)), true, [], s[1..]);
    FeedKeyString(frames, acc, due, key);
    QuotedText(s, PiecesText(key), tail);
    AcceptsBehind(start, [QUOTE] + PiecesText(key) + [QUOTE], tail);
  }

  lemma QuotedText(s: bytes, inner: bytes, tail: bytes)
    requires s != [] && s[0] == QUOTE && s[1..] == inner + [QUOTE] + tail
    ensures s == [QUOTE] + inner + [QUOTE] + tail
  {
    assert s == [s[0]] + s[1..];
  }

  lemma AcceptsBehind(m: Machine, a: bytes, b: bytes)
    ensures Accepts(m, a + b) <==> Accepts(Feed(m, a), b)
  {
    FeedConcat(m, a, b);
  }

  lemma Regrouped(a: bytes, b: bytes, c: bytes, d: bytes, e: bytes)
    ensures a + (b + (c + d + e)) == a + b + c + d + e
  {
  }

  /** A key, the white space around its colon, and the colon. */
  lemma KeyCut(frames: seq<Frame>, acc: seq<Member>, due: Expect, s: bytes)
    returns (key: seq<Piece>, after: bytes, before: bytes, rest: bytes)
    requires s != [] && !IsSpace(s[0]) && Accepts(At(frames + [ObjectFrame(acc, [], due)]), s)
    requires due.Element? || (due.ElementOrClose? && s[0] != CLOSE_BRACE)
    ensures PiecesOk(key) && Spaces(after) && Spaces(before) && rest != [] && !IsSpace(rest[0])
    ensures s == [QUOTE] + PiecesText(key) + [QUOTE] + after + [COLON] + before + rest
    ensures Accepts(At(frames + [ObjectFrame(acc, PiecesBytes(key), ValueDue)]), rest)
  {
    hide Accepts, PiecesOk, PiecesText, PiecesBytes, Spaces;
    var tail, colon;
    key, tail := KeyStringCut(frames, acc, due, s);
    after, colon := SplitSpaces(At(frames + [ObjectFrame(acc, PiecesBytes(key), ColonDue)]), tail);
    ColonFollows(frames, acc, PiecesBytes(key), colon);
    before, rest := SplitSpaces(At(frames + [ObjectFrame(acc, PiecesBytes(key), ValueDue)]), colon[1..]);
    assert colon == [COLON] + (before + rest);
    var quoted := [QUOTE] + PiecesText(key) + [QUOTE];
    assert quoted + (after + ([COLON] + (before + rest))) == quoted + after + [COLON] + before + rest;
  }

  /** One member with the white space around it; what follows it is a comma or the closing brace. */
  lemma {:induction false} FieldCut(frames: seq<Frame>, acc: seq<Member>, due: Expect, before: bytes, s: bytes)
    returns (field: Field, next: bytes)
    requires s != [] && !IsSpace(s[0]) && Spaces(before) && Accepts(At(frames + [ObjectFrame(acc, [], due)]), s)
    requires due.Element? || (due.ElementOrClose? && s[0] != CLOSE_BRACE)
    requires |frames| < MAX_DEPTH
    ensures FieldsOk([field]) && before + s == FieldText(field) + next && |next| < |s|
    ensures |frames| + 1 + Depth(Denoted(field.value)) <= MAX_DEPTH
    ensures next != [] && (next[0] == CLOSE_BRACE || next[0] == COMMA)
    ensures
      next[0] == COMMA ==>
        var member := Member(PiecesBytes(field.key), Denoted(field.value));
        Accepts(At(frames + [ObjectFrame(acc + [member], [], Element)]), next[1..])
    decreases |s|, 2
  {
    var key, gap, lead, body := KeyCut(frames, acc, due, s);
    var name := PiecesBytes(key);
    ValueStarts(frames, acc, name, body);
    hide Accepts, Ready, Attach, PiecesOk, PiecesText, PiecesBytes;
    var b, tail := BodyCut(frames + [ObjectFrame(acc, name, ValueDue)], body);
    BodyTakes(b);
    BodyTaken(frames + [ObjectFrame(acc, name, ValueDue)], b, tail);
    AttachToObject(frames, acc, name, BodyValue(b));
    hide BodyOk, BodyText, BodyValue, Depth;
    var joined, after := acc + [Member(name, BodyValue(b))], [];
    after, next := SplitSpaces(At(frames + [ObjectFrame(joined, [], CommaOrClose)]), tail);
    AfterMember(frames, joined, next);
    field := Field(before, key, gap, Doc(lead, b, after));
    assert [field][1..] == [];
    FieldTextIs(before, key, gap, lead, BodyText(b), after, next);
  }

  lemma FieldTextIs(
    before: bytes, key: seq<Piece>, gap: bytes, lead: bytes, text: bytes, after: bytes, next: bytes)
    ensures
      before + ([QUOTE] + PiecesText(key) + [QUOTE] + gap + [COLON] + lead + (text + (after + next)))
      == before + ([QUOTE] + PiecesText(key) + [QUOTE]) + gap + [COLON] + (lead + text + after) + next
  {
    hide PiecesText;
  }

  lemma OneField(field: Field)
    ensures FieldsOf([field]) == FieldText(field)
    ensures MembersDepth(FieldValues([field])) == Depth(Denoted(field.value))
  {
    assert [field][1..] == [];
    assert FieldText(field) + [] == FieldText(field);
    var member := Member(PiecesBytes(field.key), Denoted(field.value));
    assert FieldValues([field]) == [member] && FieldValues([field])[1..] == [];
    hide FieldText, Denoted, Depth, PiecesBytes;
  }

  lemma MoreFields(field: Field, more: seq<Field>)
    requires more != []
    ensures FieldsOf([field] + more) == FieldText(field) + [COMMA] + FieldsOf(more)
    ensures FieldsOk([field]) && FieldsOk(more) ==> FieldsOk([field] + more)
    ensures
      MembersDepth(FieldValues([field] + more)) == Max(Depth(Denoted(field.value)), MembersDepth(FieldValues(more)))
  {
    var all := [field] + more;
    assert all[0] == field && all[1..] == more && [field][0] == field;
    assert FieldValues(all)[1..] == FieldValues(more);
    assert FieldText(field) + ([COMMA] + FieldsOf(more)) == FieldText(field) + [COMMA] + FieldsOf(more);
    hide FieldText, DocOk, Denoted, Depth, PiecesBytes, PiecesOk, Spaces;
  }

  /** The members of an object, up to its closing brace. */
  lemma {:induction false} FieldsCut(frames: seq<Frame>, acc: seq<Member>, due: Expect, before: bytes, s: bytes)
    returns (fields: seq<Field>, rest: bytes)
    requires s != [] && !IsSpace(s[0]) && Spaces(before) && Accepts(At(frames + [ObjectFrame(acc, [], due)]), s)
    requires due.Element? || (due.ElementOrClose? && s[0] != CLOSE_BRACE)
    requires |frames| < MAX_DEPTH
    ensures fields != [] && FieldsOk(fields) && before + s == FieldsOf(fields) + [CLOSE_BRACE] + rest
    ensures |frames| + 1 + MembersDepth(FieldValues(fields)) <= MAX_DEPTH
    decreases |s|, 3
  {
    var field, next := FieldCut(frames, acc, due, before, s);
    hide Accepts, FieldText, Denoted, Depth, FieldsOk, FieldsOf, MembersDepth, FieldValues, PiecesBytes;
    assert next == [next[0]] + next[1..];
    if next[0] == CLOSE_BRACE {
      fields, rest := [field], next[1..];
      OneField(field);
      assert FieldText(field) + ([CLOSE_BRACE] + rest) == FieldText(field) + [CLOSE_BRACE] + rest;
    } else {
      var joined := acc + [Member(PiecesBytes(field.key), Denoted(field.value))];
      var gap, last := SplitSpaces(At(frames + [ObjectFrame(joined, [], Element)]), next[1..]);
      var more;
      more, rest := FieldsCut(frames, joined, Element, gap, last);
      fields := [field] + more;
      MoreFields(field, more);
      Regrouped(FieldText(field), [COMMA], FieldsOf(more), [CLOSE_BRACE], rest);
    }
  }

  lemma {:induction false} ObjectCut(frames: seq<Frame>, s: bytes) returns (b: Body, rest: bytes)
    requires s != [] && s[0] == OPEN_BRACE && |frames| < MAX_DEPTH
    requires Accepts(At(frames + [ObjectFrame([], [], ElementOrClose)]), s[1..])
    ensures b.Obj? && BodyOk(b) && s == BodyText(b) + rest && |frames| + Depth(BodyValue(b)) <= MAX_DEPTH
    decreases |s|, 0
  {
    assert s == [s[0]] + s[1..];
    var gap, tail := SplitSpaces(At(frames + [ObjectFrame([], [], ElementOrClose)]), s[1..]);
    if tail[0] == CLOSE_BRACE {
      b, rest := Obj(gap, []), tail[1..];
      assert s == BodyText(b) + rest;
    } else {
      var fields;
      fields, rest := FieldsCut(frames, [], ElementOrClose, gap, tail);
      b := Obj([], fields);
      assert s == [OPEN_BRACE] + (FieldsOf(fields) + [CLOSE_BRACE] + rest);
    }
  }

  // ----- the whole document -----

  lemma {:induction false} DoneSpaces(m: Machine, s: bytes)
    requires m.lex.Done? && Accepts(m, s)
    ensures Spaces(s)
    decreases s
  {
    if s != [] {
      if !IsSpace(s[0]) { NeverAccepts(s[1..]); }
      assert s == [s[0]] + s[1..];
      DoneSpaces(m, s[1..]);
    }
  }

  /** A text that is accepted has a derivation. */
  lemma Derived(s: bytes) returns (d: Doc)
    requires Accepts(START, s)
    ensures DocOk(d) && DocText(d) == s && Depth(Denoted(d)) <= MAX_DEPTH
  {
    assert START == At([]);
    var before, text := SplitSpaces(START, s);
    if text[0] == CLOSE_BRACKET { NeverAccepts(text[1..]); }
    var b, after := BodyCut([], text);
    BodyTaken([], b, after);
    DoneSpaces(Attach([], BodyValue(b)), after);
    d := Doc(before, b, after);
    hide Accepts;
    assert before + (BodyText(b) + after) == before + BodyText(b) + after;
  }

  /** A derivation is read as the tree it denotes. */
  lemma Read(d: Doc)
    requires DocOk(d) && Depth(Denoted(d)) <= MAX_DEPTH
    ensures Parse(DocText(d)) == Some(Denoted(d))
  {
    assert START == At([]);
    FeedDoc([], d);
    hide Feed, DocText, DocOk, Denoted, Depth;
  }

  lemma RootOnlyDone(m: Machine)
    ensures Finish(m).lex.Done? || Finish(m) == FAILED
  {
  }

  /**
   * The parser accepts exactly the JSON texts of RFC 8259 nested at most 1000 deep whose numbers are shorter than
   * 512 bytes, and reads each as the tree it denotes.
   */
  lemma ParseIff(s: bytes, v: Value)
    ensures
      Parse(s) == Some(v)
      <==> exists d :: DocOk(d) && DocText(d) == s && Denoted(d) == v && Depth(v) <= MAX_DEPTH
  {
    hide Feed, DocText, DocOk, Denoted, Depth;
    RootOnlyDone(Feed(START, s));
    if Parse(s) == Some(v) {
      var d := Derived(s);
      Read(d);
    }
    if d :| DocOk(d) && DocText(d) == s && Denoted(d) == v && Depth(v) <= MAX_DEPTH {
      Read(d);
    }
  }
}
