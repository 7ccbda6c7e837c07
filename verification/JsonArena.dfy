/** Tool arguments as the program parses them: an object whose values fit an arena's blocks. */
module JsonArena {
  import opened Basics
  import opened JsonText
  import JsonParser
  import JsonRoundTrip
  import JsonWriter

  /** The width of an array slot. */
  const SLOT_WIDTH: nat := 8

  /** The block size an arena gets when none is asked for. */
  const DEFAULT_BLOCK: nat := 64 * 1024

  /** The slots of an array of `n` items that grew by doubling from four. */
  function Capacity(n: nat): (slots: nat)
    ensures n <= slots && (n > 4 ==> slots < 2 * n)
  {
    if n == 0 then 0 else if n <= 4 then 4 else 2 * Capacity((n + 1) / 2)
  }

  /** Every single allocation for this tree is at most a block; an arena grows by whole blocks otherwise. */
  predicate Allocates(v: Value, block: nat)
    decreases v, 1
  {
    match v
    case String(text) => |text| + 1 <= block
    case Array(items) => Capacity(|items|) * SLOT_WIDTH <= block && ItemsAllocate(items, block)
    case Object(members) => MembersAllocate(members, block)
    case _ => true
  }

  predicate ItemsAllocate(items: seq<Value>, block: nat)
    decreases items, 0
  {
    items == [] || (Allocates(items[0], block) && ItemsAllocate(items[1..], block))
  }

  predicate MembersAllocate(members: seq<Member>, block: nat)
    decreases members, 0
  {
    members == []
    || (|members[0].key| + 1 <= block && Allocates(members[0].value, block) && MembersAllocate(members[1..], block))
  }

  // ----- an arena as large as the text -----

  /** Every array item takes at least two slots' worth of text. */
  predicate Wide(v: Value)
    decreases v, 1
  {
    match v
    case Array(items) => ItemsWide(items)
    case Object(members) => MembersWide(members)
    case _ => true
  }

  predicate ItemsWide(items: seq<Value>)
    decreases items, 0
  {
    items == [] || (|Text(items[0])| >= 2 * SLOT_WIDTH && Wide(items[0]) && ItemsWide(items[1..]))
  }

  predicate MembersWide(members: seq<Member>)
    decreases members, 0
  {
    members == [] || (Wide(members[0].value) && MembersWide(members[1..]))
  }

  lemma {:induction false} EscapeLonger(s: bytes)
    ensures |s| <= |Escape(s)|
  {
    if s != [] { EscapeLonger(s[1..]); }
  }

  /** A tree without tiny array items fits an arena whose blocks hold its text. */
  lemma {:induction false} TextAllocates(v: Value, block: nat)
    requires Wide(v) && |Text(v)| <= block && 4 * SLOT_WIDTH <= block
    ensures Allocates(v, block)
    decreases v, 1
  {
    match v
    case String(text) => EscapeLonger(text);
    case Array(items) => ItemsTextAllocates(items, true, block);
    case Object(members) => MembersTextAllocates(members, true, block);
    case _ =>
  }

  lemma {:induction false} ItemsTextAllocates(items: seq<Value>, first: bool, block: nat)
    requires ItemsWide(items) && |ItemsText(items, first)| <= block && 4 * SLOT_WIDTH <= block
    ensures ItemsAllocate(items, block) && 2 * SLOT_WIDTH * |items| <= |ItemsText(items, first)|
    decreases items, 0
  {
    if items != [] {
      TextAllocates(items[0], block);
      ItemsTextAllocates(items[1..], false, block);
    }
  }

  lemma {:induction false} MembersTextAllocates(members: seq<Member>, first: bool, block: nat)
    requires MembersWide(members) && |MembersText(members, first)| <= block && 4 * SLOT_WIDTH <= block
    ensures MembersAllocate(members, block)
    decreases members, 0
  {
    if members != [] {
      EscapeLonger(members[0].key);
      hide Escape;
      TextAllocates(members[0].value, block);
      MembersTextAllocates(members[1..], false, block);
    }
  }

  // ----- parsing into an arena -----

  /** What an open container holds so far is allocated, and so is the key whose value is due. */
  predicate FrameHeld(f: JsonParser.Frame, block: nat) {
    match f
    case ArrayFrame(items, _) => Allocates(Array(items), block)
    case ObjectFrame(members, key, due) =>
      Allocates(Object(members), block) && (due.ColonDue? || due.ValueDue? ==> |key| + 1 <= block)
  }

  /** All a parser has built is allocated; a parser that failed holds nothing. */
  predicate Held(m: JsonParser.Machine, block: nat) {
    && (forall i :: 0 <= i < |m.frames| ==> FrameHeld(m.frames[i], block))
    && (m.root.Some? ==> Allocates(m.root.value, block))
  }

  /** An allocation is refused while these bytes are fed, before the text itself is. */
  predicate Outgrows(m: JsonParser.Machine, s: bytes, block: nat)
    decreases s
  {
    && s != []
    && (|| !Held(JsonParser.Step(m, s[0]).0, block)
        || !Held(JsonParser.FeedByte(m, s[0]), block)
        || Outgrows(JsonParser.FeedByte(m, s[0]), s[1..], block))
  }

  /** A key is read only where one is due; a root stands alone. */
  predicate Shaped(m: JsonParser.Machine) {
    && (m.lex.Done? ==> m.frames == [])
    && (!m.lex.Done? ==> m.root.None?)
    && (m.lex.InString? && m.lex.isKey ==> JsonParser.KeyDue(m.frames))
    && (m.lex.InEscape? && m.lex.isKey ==> JsonParser.KeyDue(m.frames))
    && (m.lex.InUnicode? && m.lex.isKey ==> JsonParser.KeyDue(m.frames))
  }

  lemma AttachShaped(frames: seq<JsonParser.Frame>, v: Value, key: bytes)
    ensures Shaped(JsonParser.Attach(frames, v)) && Shaped(JsonParser.AttachKey(frames, key))
  {
  }

  lemma BetweenShaped(m: JsonParser.Machine, c: byte)
    requires Shaped(m) && m.lex.Between?
    ensures Shaped(JsonParser.BetweenTokens(m, c))
  {
    hide JsonParser.Attach;
    if m.frames != [] {
      AttachShaped(JsonParser.Pop(m.frames), JsonParser.Closed(JsonParser.Top(m.frames)), []);
    }
  }

  lemma OneStepShaped(m: JsonParser.Machine, c: byte)
    requires Shaped(m)
    ensures Shaped(JsonParser.Step(m, c).0)
  {
    hide JsonParser.SimpleEscape, JsonParser.HexValue, JsonParser.Utf8Bytes, JsonParser.LiteralValue, IsNumberLiteral;
    hide JsonParser.BetweenTokens, JsonParser.Attach, JsonParser.AttachKey, JsonParser.KeyDue;
    match m.lex
    case Between => BetweenShaped(m, c);
    case InString(_, text, _) => AttachShaped(m.frames, String(text), text);
    case InNumber(literal) => AttachShaped(m.frames, Number(literal), []);
    case InLiteral(word, _) => AttachShaped(m.frames, JsonParser.LiteralValue(word), []);
    case _ =>
  }

  lemma StepShaped(m: JsonParser.Machine, c: byte)
    requires Shaped(m)
    ensures Shaped(JsonParser.Step(m, c).0) && Shaped(JsonParser.FeedByte(m, c))
  {
    hide Shaped, JsonParser.Step;
    OneStepShaped(m, c);
    OneStepShaped(JsonParser.Step(m, c).0, c);
  }

  lemma {:induction false} ItemsSnoc(items: seq<Value>, v: Value, block: nat)
    ensures ItemsAllocate(items + [v], block) <==> ItemsAllocate(items, block) && Allocates(v, block)
  {
    var all := items + [v];
    if items == [] {
      assert all[1..] == [];
    } else {
      ItemsSnoc(items[1..], v, block);
      assert all[0] == items[0] && all[1..] == items[1..] + [v];
    }
  }

  lemma {:induction false} MembersSnoc(members: seq<Member>, m: Member, block: nat)
    ensures
      MembersAllocate(members + [m], block)
      <==> MembersAllocate(members, block) && |m.key| + 1 <= block && Allocates(m.value, block)
  {
    var all := members + [m];
    if members == [] {
      assert all[1..] == [];
    } else {
      MembersSnoc(members[1..], m, block);
      assert all[0] == members[0] && all[1..] == members[1..] + [m];
    }
  }

  lemma {:induction false} CapacityGrows(n: nat)
    ensures Capacity(n) <= Capacity(n + 1)
  {
    if n > 4 { CapacityGrows((n + 1) / 2); }
  }

  lemma ArraySnoc(items: seq<Value>, v: Value, block: nat)
    requires Allocates(Array(items + [v]), block)
    ensures Allocates(Array(items), block) && Allocates(v, block)
  {
    ItemsSnoc(items, v, block);
    CapacityGrows(|items|);
    hide Capacity, ItemsAllocate;
  }

  /** A child that joins its container takes nothing away. */
  lemma JoinKeeps(f: JsonParser.Frame, v: Value, block: nat)
    requires FrameHeld(JsonParser.Joined(f, v), block)
    ensures FrameHeld(f, block) && Allocates(v, block)
  {
    match f
    case ArrayFrame(items, _) => ArraySnoc(items, v, block);
    case ObjectFrame(members, key, _) => MembersSnoc(members, Member(key, v), block);
  }

  lemma AttachKeeps(frames: seq<JsonParser.Frame>, v: Value, block: nat)
    requires Held(JsonParser.Attach(frames, v), block)
    ensures Allocates(v, block) && forall i :: 0 <= i < |frames| ==> FrameHeld(frames[i], block)
  {
    if frames != [] {
      var after := JsonParser.Attach(frames, v).frames;
      assert after[|frames| - 1] == JsonParser.Joined(JsonParser.Top(frames), v);
      JoinKeeps(JsonParser.Top(frames), v, block);
      forall i | 0 <= i < |frames| ensures FrameHeld(frames[i], block) {
        if i < |frames| - 1 { assert after[i] == frames[i]; }
      }
    }
  }

  lemma PopKeeps(m: JsonParser.Machine, block: nat)
    requires m.frames != [] && m.root.None? && Held(JsonParser.PopContainer(m.frames), block)
    requires !JsonParser.Top(m.frames).due.ColonDue? && !JsonParser.Top(m.frames).due.ValueDue?
    ensures Held(m, block)
  {
    var popped := JsonParser.Pop(m.frames);
    AttachKeeps(popped, JsonParser.Closed(JsonParser.Top(m.frames)), block);
    forall i | 0 <= i < |m.frames| ensures FrameHeld(m.frames[i], block) {
      if i < |popped| { assert popped[i] == m.frames[i]; }
    }
  }

  /** Replacing the top frame by one that asks for no less. */
  lemma TopKeeps(m: JsonParser.Machine, f: JsonParser.Frame, block: nat)
    requires m.frames != [] && m.root.None?
    requires FrameHeld(f, block) ==> FrameHeld(JsonParser.Top(m.frames), block)
    requires Held(m.(frames := JsonParser.SetTop(m.frames, f)), block)
    ensures Held(m, block)
  {
    var after := JsonParser.SetTop(m.frames, f);
    assert after[|m.frames| - 1] == f;
    forall i | 0 <= i < |m.frames| ensures FrameHeld(m.frames[i], block) {
      if i < |m.frames| - 1 { assert after[i] == m.frames[i]; }
    }
  }

  lemma PushKeeps(m: JsonParser.Machine, f: JsonParser.Frame, block: nat)
    requires m.root.None? && Held(JsonParser.Machine(JsonParser.Between, m.frames + [f], None), block)
    ensures Held(m, block)
  {
    forall i | 0 <= i < |m.frames| ensures FrameHeld(m.frames[i], block) {
      assert (m.frames + [f])[i] == m.frames[i];
    }
  }

  lemma StartKeeps(m: JsonParser.Machine, c: byte, block: nat)
    requires m.root.None? && JsonParser.StartValue(m, c) != JsonParser.FAILED
    requires Held(JsonParser.StartValue(m, c), block)
    ensures Held(m, block)
  {
    hide FrameHeld;
    if c == OPEN_BRACE {
      PushKeeps(m, JsonParser.ObjectFrame([], [], JsonParser.ElementOrClose), block);
    } else if c == OPEN_BRACKET {
      PushKeeps(m, JsonParser.ArrayFrame([], JsonParser.ElementOrClose), block);
    }
  }

  lemma BetweenKeeps(m: JsonParser.Machine, c: byte, block: nat)
    requires m.lex.Between? && m.root.None? && JsonParser.BetweenTokens(m, c) != JsonParser.FAILED
    requires Held(JsonParser.BetweenTokens(m, c), block)
    ensures Held(m, block)
  {
    hide Allocates, Held, JsonParser.StartValue, JsonParser.PopContainer;
    if IsSpace(c) {
    } else if m.frames == [] {
      StartKeeps(m, c, block);
    } else {
      var top := JsonParser.Top(m.frames);
      match top.due
      case ElementOrClose => if c == JsonParser.CloseByte(top) { PopKeeps(m, block); } else { StartKeeps(m, c, block); }
      case Element => StartKeeps(m, c, block);
      case CommaOrClose =>
        if c == JsonParser.CloseByte(top) {
          PopKeeps(m, block);
        } else {
          TopKeeps(m, top.(due := JsonParser.Element), block);
        }
      case ColonDue => TopKeeps(m, top.(due := JsonParser.ValueDue), block);
      case ValueDue => StartKeeps(m, c, block);
    }
  }

  lemma AttachStepKeeps(m: JsonParser.Machine, v: Value, block: nat)
    requires m.root.None? && Held(JsonParser.Attach(m.frames, v), block)
    ensures Held(m, block)
  {
    AttachKeeps(m.frames, v, block);
  }

  lemma StringEndKeeps(m: JsonParser.Machine, isKey: bool, text: bytes, block: nat)
    requires m.root.None? && (isKey ==> JsonParser.KeyDue(m.frames))
    requires Held(JsonParser.FinishString(m, isKey, text), block)
    ensures Held(m, block)
  {
    if isKey {
      var top := JsonParser.Top(m.frames);
      TopKeeps(m, top.(key := text, due := JsonParser.ColonDue), block);
    } else {
      AttachStepKeeps(m, String(text), block);
    }
  }

  /** What is held after a step that does not fail was held before it: a refusal is never made good. */
  lemma StepKeeps(m: JsonParser.Machine, c: byte, block: nat)
    requires Shaped(m) && JsonParser.Step(m, c).0 != JsonParser.FAILED
    requires Held(JsonParser.Step(m, c).0, block)
    ensures Held(m, block)
  {
    hide JsonParser.BetweenTokens, JsonParser.Attach, JsonParser.FinishString, FrameHeld, Allocates, IsNumberLiteral;
    match m.lex
    case Between => BetweenKeeps(m, c, block);
    case InString(isKey, text, _) => if c == QUOTE { StringEndKeeps(m, isKey, text, block); }
    case InNumber(literal) => if !IsNumberByte(c) { AttachStepKeeps(m, Number(literal), block); }
    case InLiteral(word, index) => if index + 1 == |word| { AttachStepKeeps(m, JsonParser.LiteralValue(word), block); }
    case _ =>
  }

  lemma ByteKeeps(m: JsonParser.Machine, c: byte, block: nat)
    requires Shaped(m) && JsonParser.FeedByte(m, c) != JsonParser.FAILED
    requires Held(JsonParser.FeedByte(m, c), block)
    ensures Held(m, block) && Held(JsonParser.Step(m, c).0, block)
  {
    hide JsonParser.Step, Held, Shaped;
    JsonParser.StepConsumes(m, c);
    StepShaped(m, c);
    var (next, consumed) := JsonParser.Step(m, c);
    if !consumed { StepKeeps(next, c, block); }
    StepKeeps(m, c, block);
  }

  /** Feeding that does not fail meets a refused allocation exactly when what it builds is not allocated. */
  lemma {:induction false} FeedOutgrows(m: JsonParser.Machine, s: bytes, block: nat)
    requires Shaped(m) && JsonParser.Feed(m, s) != JsonParser.FAILED
    ensures Shaped(JsonParser.Feed(m, s))
    ensures Held(JsonParser.Feed(m, s), block) <==> Held(m, block) && !Outgrows(m, s, block)
    decreases s
  {
    hide JsonParser.Step, JsonParser.FeedByte, Held, Shaped;
    if s != [] {
      var next := JsonParser.FeedByte(m, s[0]);
      if next == JsonParser.FAILED { JsonParser.FailedStays(s[1..]); }
      StepShaped(m, s[0]);
      FeedOutgrows(next, s[1..], block);
      if Held(next, block) { ByteKeeps(m, s[0], block); }
    }
  }

  /** So a text that parses outgrows an arena exactly when its tree does. */
  lemma OutgrowsIff(s: bytes, block: nat)
    requires JsonParser.Parse(s).Some?
    ensures Outgrows(JsonParser.START, s, block) <==> !Allocates(JsonParser.Parse(s).value, block)
  {
    hide JsonParser.Step, JsonParser.Feed, Outgrows, IsNumberLiteral;
    FeedOutgrows(JsonParser.START, s, block);
  }

  /**
   * The status of a call's arguments: out of memory as soon as an allocation is refused, a parse error as soon as the
   * text is, whichever comes first; good only for an object.
   */
  function ArgumentsStatus(arguments: bytes, block: nat): (status: Status)
    ensures
      status == OK
      <==> var root := JsonParser.Parse(arguments);
           root.Some? && root.value.Object? && Allocates(root.value, block)
  {
    var parsed := JsonParser.Parse(arguments);
    assert parsed.Some? ==> (Outgrows(JsonParser.START, arguments, block) <==> !Allocates(parsed.value, block)) by {
      if parsed.Some? { OutgrowsIff(arguments, block); }
    }
    if Outgrows(JsonParser.START, arguments, block) then NOMEM
    else if parsed.Some? && parsed.value.Object? then OK
    else PARSE
  }

  lemma {:induction false} CapacityIsFours(n: nat)
    ensures Capacity(n) % 4 == 0
  {
    if n > 4 { CapacityIsFours((n + 1) / 2); }
  }

  /** Pushing one item at a time: the array doubles exactly when it is full. */
  lemma {:induction false} PushGrows(n: nat)
    requires n > 0
    ensures Capacity(n + 1) == if n == Capacity(n) then 2 * Capacity(n) else Capacity(n)
  {
    if n > 4 {
      if n % 2 == 0 { PushGrows(n / 2); } else { CapacityIsFours(n); }
    }
  }

  /**
   * An object with one long string is good enough for a log with larger blocks, but not for a turn whose arena has
   * smaller ones: what replay accepts, the turn may still be unable to run.
   */
  lemma LongArgument(key: bytes, text: bytes, small: nat, large: nat)
    requires |key| < small <= |text| < large
    ensures
      var arguments := Text(Object([Member(key, String(text))]));
      ArgumentsStatus(arguments, small) == NOMEM && ArgumentsStatus(arguments, large) == OK
  {
    var member := Member(key, String(text));
    var v := Object([member]);
    OneMember(member, small);
    OneMember(member, large);
    JsonRoundTrip.ParseUndoesWrite(v);
    JsonWriter.DocumentText(v);
    hide MembersAllocate, MembersFit, MembersDepth, Text;
  }

  lemma OneMember(m: Member, block: nat)
    requires m.value.String?
    ensures MembersFit([m]) && MembersDepth([m]) == 0
    ensures MembersAllocate([m], block) <==> |m.key| + 1 <= block && Allocates(m.value, block)
  {
    assert [m][1..] == [];
    assert MembersFit([m][1..]) && MembersDepth([m][1..]) == 0 && MembersAllocate([m][1..], block);
  }
}
