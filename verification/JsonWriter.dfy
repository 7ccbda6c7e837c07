/** The frame-stack writer of src/json_write.c: its state, its operations, and the class that runs them. */
module JsonWriter {
  import opened Basics
  import opened JsonText

  /** An open container: members written so far, and (objects) whether a key awaits its value. */
  datatype Frame = Frame(isObject: bool, count: nat, awaitingValue: bool)

  datatype Writer = Writer(buf: bytes, frames: seq<Frame>, haveRoot: bool, failed: bool)

  const FRESH: Writer := Writer([], [], false, false)

  function Fail(w: Writer): (next: Writer) {
    w.(failed := true)
  }

  function Append(w: Writer, text: bytes): (next: Writer) {
    w.(buf := w.buf + text)
  }

  function Top(w: Writer): (f: Frame)
    requires w.frames != []
  {
    w.frames[|w.frames| - 1]
  }

  function SetTop(w: Writer, f: Frame): (next: Writer)
    requires w.frames != []
  {
    w.(frames := w.frames[|w.frames| - 1 := f])
  }

  /** Comma and misuse checks before any value. Misuse sets `failed`, which nothing clears. */
  function BeginValue(w: Writer): (next: Writer) {
    if w.failed then w
    else if w.frames == [] then (if w.haveRoot then Fail(w) else w)
    else if Top(w).isObject then (if Top(w).awaitingValue then w else Fail(w))
    else if Top(w).count > 0 then Append(w, [COMMA])
    else w
  }

  function EndValue(w: Writer): (next: Writer) {
    if w.frames == [] then w.(haveRoot := true)
    else SetTop(w, Top(w).(count := Top(w).count + 1, awaitingValue := false))
  }

  function WriteScalar(w: Writer, text: bytes): (next: Writer) {
    var begun := BeginValue(w);
    if begun.failed then begun else EndValue(Append(begun, text))
  }

  /** A container fills its parent's slot when it opens, and again when it closes. */
  function BeginContainer(w: Writer, isObject: bool): (next: Writer) {
    var begun := BeginValue(w);
    if begun.failed then begun
    else
      var entered := EndValue(Append(begun, [if isObject then OPEN_BRACE else OPEN_BRACKET]));
      entered.(frames := entered.frames + [Frame(isObject, 0, false)])
  }

  function EndContainer(w: Writer, isObject: bool): (next: Writer) {
    if w.failed then w
    else if w.frames == [] then Fail(w)
    else if Top(w).isObject != isObject || (isObject && Top(w).awaitingValue) then Fail(w)
    else
      var closed := Append(w, [if isObject then CLOSE_BRACE else CLOSE_BRACKET]);
      EndValue(closed.(frames := closed.frames[..|closed.frames| - 1]))
  }

  function WriteKey(w: Writer, key: bytes): (next: Writer) {
    if w.failed then w
    else if w.frames == [] then Fail(w)
    else if !Top(w).isObject || Top(w).awaitingValue then Fail(w)
    else
      var comma := if Top(w).count > 0 then Append(w, [COMMA]) else w;
      var keyed := Append(Append(comma, Quote(key)), [COLON]);
      SetTop(keyed, Top(keyed).(awaitingValue := true))
  }

  /** The calls that write a whole tree. */
  function WriteValue(w: Writer, v: Value): (next: Writer)
    decreases v, 1
  {
    match v
    case Null => WriteScalar(w, NULL_WORD)
    case Bool(b) => WriteScalar(w, if b then TRUE_WORD else FALSE_WORD)
    case Number(literal) => WriteScalar(w, literal)
    case String(text) => WriteScalar(w, Quote(text))
    case Array(items) => EndContainer(WriteItems(BeginContainer(w, false), items), false)
    case Object(members) => EndContainer(WriteMembers(BeginContainer(w, true), members), true)
  }

  function WriteItems(w: Writer, items: seq<Value>): (next: Writer)
    decreases items, 0
  {
    if items == [] then w else WriteItems(WriteValue(w, items[0]), items[1..])
  }

  function WriteMembers(w: Writer, members: seq<Member>): (next: Writer)
    decreases members, 0
  {
    if members == [] then w
    else WriteMembers(WriteValue(WriteKey(w, members[0].key), members[0].value), members[1..])
  }

  /** A value may be written now. */
  predicate TakesValue(w: Writer) {
    && !w.failed
    && (w.frames == [] ==> !w.haveRoot)
    && (w.frames != [] && Top(w).isObject ==> Top(w).awaitingValue)
  }

  predicate InObject(w: Writer) {
    !w.failed && w.frames != [] && Top(w).isObject && !Top(w).awaitingValue
  }

  predicate InArray(w: Writer) {
    !w.failed && w.frames != [] && !Top(w).isObject && !Top(w).awaitingValue
  }

  /** The comma owed before the next array element. */
  function Separator(w: Writer): (text: bytes) {
    if w.frames != [] && !Top(w).isObject && Top(w).count > 0 then [COMMA] else []
  }

  function Slots(v: Value): (n: nat) {
    if v.Array? || v.Object? then 2 else 1
  }

  /** The writer after one value with this text was written into a slot that was free. */
  function Filled(w: Writer, text: bytes, slots: nat): (next: Writer) {
    var appended := Append(w, Separator(w) + text);
    if w.frames == [] then appended.(haveRoot := true)
    else SetTop(appended, Top(w).(count := Top(w).count + slots, awaitingValue := false))
  }

  /** The writer after elements with this text were added to the open container. */
  function Extended(w: Writer, text: bytes, slots: nat): (next: Writer)
    requires w.frames != []
  {
    SetTop(Append(w, text), Top(w).(count := Top(w).count + slots))
  }

  lemma ScalarFills(w: Writer, text: bytes)
    requires TakesValue(w)
    ensures WriteScalar(w, text) == Filled(w, text, 1)
  {
    assert w.buf + [COMMA] + text == w.buf + ([COMMA] + text);
    assert w.buf + text == w.buf + ([] + text);
  }

  /** Opening a container: the parent's slot is taken and an empty frame lies on top. */
  lemma ContainerOpens(w: Writer, isObject: bool)
    requires TakesValue(w)
    ensures
      var open: byte := if isObject then OPEN_BRACE else OPEN_BRACKET;
      var parent := Filled(w, [open], 1);
      BeginContainer(w, isObject) == parent.(frames := parent.frames + [Frame(isObject, 0, false)])
  {
    var open: byte := if isObject then OPEN_BRACE else OPEN_BRACKET;
    assert w.buf + [COMMA] + [open] == w.buf + ([COMMA] + [open]);
    assert w.buf + [open] == w.buf + ([] + [open]);
  }

  /** Closing one: its frame goes, and the parent counts it once more. */
  lemma ContainerCloses(parent: Writer, isObject: bool, count: nat, text: bytes)
    requires !parent.failed
    ensures
      var close: byte := if isObject then CLOSE_BRACE else CLOSE_BRACKET;
      var inner := Append(parent, text).(frames := parent.frames + [Frame(isObject, count, false)]);
      EndContainer(inner, isObject) == EndValue(Append(parent, text + [close]))
  {
    var close: byte := if isObject then CLOSE_BRACE else CLOSE_BRACKET;
    assert (parent.frames + [Frame(isObject, count, false)])[..|parent.frames|] == parent.frames;
    assert parent.buf + text + [close] == parent.buf + (text + [close]);
  }

  lemma ExtendedOnTop(parent: Writer, isObject: bool, text: bytes, slots: nat)
    ensures
      Extended(parent.(frames := parent.frames + [Frame(isObject, 0, false)]), text, slots)
      == Append(parent, text).(frames := parent.frames + [Frame(isObject, slots, false)])
  {
    var n := |parent.frames|;
    assert (parent.frames + [Frame(isObject, 0, false)])[n := Frame(isObject, slots, false)]
        == parent.frames + [Frame(isObject, slots, false)];
  }

  lemma FilledTwice(w: Writer, text: bytes, more: bytes)
    ensures EndValue(Append(Filled(w, text, 1), more)) == Filled(w, text + more, 2)
  {
    assert w.buf + (Separator(w) + text) + more == w.buf + (Separator(w) + (text + more));
  }

  lemma ContainerFills(w: Writer, isObject: bool, text: bytes, slots: nat)
    requires TakesValue(w)
    requires var entered := BeginContainer(w, isObject); entered.frames != []
    ensures
      var entered := BeginContainer(w, isObject);
      var open: byte := if isObject then OPEN_BRACE else OPEN_BRACKET;
      var close: byte := if isObject then CLOSE_BRACE else CLOSE_BRACKET;
      EndContainer(Extended(entered, text, slots), isObject) == Filled(w, [open] + text + [close], 2)
  {
    var open: byte := if isObject then OPEN_BRACE else OPEN_BRACKET;
    var close: byte := if isObject then CLOSE_BRACE else CLOSE_BRACKET;
    var parent := Filled(w, [open], 1);
    assert !parent.failed;
    hide *;
    ContainerOpens(w, isObject);
    ExtendedOnTop(parent, isObject, text, slots);
    ContainerCloses(parent, isObject, slots, text);
    FilledTwice(w, [open], text + [close]);
    assert [open] + (text + [close]) == [open] + text + [close];
  }

  /** Writing a tree into a free slot succeeds and appends exactly the tree's text. */
  lemma {:induction false} ValueFills(w: Writer, v: Value)
    requires TakesValue(w)
    ensures WriteValue(w, v) == Filled(w, Text(v), Slots(v))
    decreases v, 1
  {
    match v
    case Null => ScalarFills(w, Text(v));
    case Bool(b) => ScalarFills(w, Text(v));
    case Number(literal) => ScalarFills(w, Text(v));
    case String(text) => ScalarFills(w, Text(v));
    case Array(items) =>
      var slots := ItemsExtend(BeginContainer(w, false), items);
      ContainerFills(w, false, ItemsText(items, true), slots);
    case Object(members) =>
      var slots := MembersExtend(BeginContainer(w, true), members);
      ContainerFills(w, true, MembersText(members, true), slots);
  }

  lemma ElementExtends(w: Writer, text: bytes, slots: nat, rest: bytes, more: nat)
    requires InArray(w)
    ensures InArray(Filled(w, text, slots)) && Top(Filled(w, text, slots)).count == Top(w).count + slots
    ensures Extended(Filled(w, text, slots), rest, more) == Extended(w, Separator(w) + text + rest, slots + more)
  {
    assert w.buf + (Separator(w) + text) + rest == w.buf + (Separator(w) + text + rest);
  }

  lemma ItemsSplit(w: Writer, items: seq<Value>, first: bool)
    requires items != []
    ensures WriteItems(w, items) == WriteItems(WriteValue(w, items[0]), items[1..])
    ensures
      ItemsText(items, first) == (if first then [] else [COMMA]) + Text(items[0]) + ItemsText(items[1..], false)
  {
    hide WriteValue, Text;
  }

  lemma NoItemsExtend(w: Writer, first: bool)
    requires InArray(w)
    ensures WriteItems(w, []) == Extended(w, ItemsText([], first), 0)
  {
    assert w.buf + [] == w.buf;
  }

  /** An element, once its value has filled the slot, extends the array by its text. */
  lemma ItemExtends(w: Writer, v: Value, rest: bytes, more: nat)
    requires InArray(w) && WriteValue(w, v) == Filled(w, Text(v), Slots(v))
    ensures
      var next := WriteValue(w, v);
      && InArray(next) && Top(next).count > 0
      && Extended(next, rest, more)
         == Extended(w, (if Top(w).count == 0 then [] else [COMMA]) + Text(v) + rest, Slots(v) + more)
  {
    hide WriteValue, Text, Extended;
    ElementExtends(w, Text(v), Slots(v), rest, more);
  }

  lemma {:induction false} ItemsExtend(w: Writer, items: seq<Value>) returns (slots: nat)
    requires InArray(w)
    ensures WriteItems(w, items) == Extended(w, ItemsText(items, Top(w).count == 0), slots)
    decreases items, 0
  {
    var first := Top(w).count == 0;
    hide WriteValue, WriteItems, ItemsText, Extended, Filled, Text, Slots, SetTop, Append, InArray, Top;
    if items == [] {
      slots := 0;
      NoItemsExtend(w, first);
    } else {
      ItemsSplit(w, items, first);
      ArrayTakes(w);
      ValueFills(w, items[0]);
      ItemExtends(w, items[0], [], 0);
      var more := ItemsExtend(WriteValue(w, items[0]), items[1..]);
      ItemExtends(w, items[0], ItemsText(items[1..], false), more);
      slots := Slots(items[0]) + more;
    }
  }

  lemma ArrayTakes(w: Writer)
    requires InArray(w)
    ensures TakesValue(w)
  {
  }

  /** A key leaves the object waiting for the value that fills the member's slot. */
  lemma KeyAwaits(w: Writer, key: bytes)
    requires InObject(w)
    ensures
      var comma := if Top(w).count == 0 then [] else [COMMA];
      WriteKey(w, key) == SetTop(Append(w, comma + Quote(key) + [COLON]), Top(w).(awaitingValue := true))
  {
    var comma := if Top(w).count == 0 then [] else [COMMA];
    assert w.buf + comma == if Top(w).count == 0 then w.buf else w.buf + [COMMA];
    assert w.buf + comma + Quote(key) + [COLON] == w.buf + (comma + Quote(key) + [COLON]);
  }

  lemma MemberFrames(w: Writer, keyText: bytes, text: bytes, slots: nat, rest: bytes, more: nat)
    requires InObject(w)
    ensures
      var keyed := SetTop(Append(w, keyText), Top(w).(awaitingValue := true));
      var next := Filled(keyed, text, slots);
      && TakesValue(keyed)
      && InObject(next)
      && Top(next).count == Top(w).count + slots
      && Extended(next, rest, more) == Extended(w, keyText + text + rest, slots + more)
  {
    var keyed := SetTop(Append(w, keyText), Top(w).(awaitingValue := true));
    var next := Filled(keyed, text, slots);
    assert next.buf + rest == w.buf + (keyText + text + rest);
    assert next.frames == w.frames[|w.frames| - 1 := Top(w).(count := Top(w).count + slots)];
    assert Extended(next, rest, more).frames == Extended(w, keyText + text + rest, slots + more).frames;
  }

  lemma MemberOpens(w: Writer, key: bytes)
    requires InObject(w)
    ensures TakesValue(WriteKey(w, key))
  {
    KeyAwaits(w, key);
    MemberFrames(w, (if Top(w).count == 0 then [] else [COMMA]) + Quote(key) + [COLON], [], 0, [], 0);
    hide WriteKey, Quote;
  }

  /** A member, once its value has filled the slot, extends the object by its text. */
  lemma MemberExtends(w: Writer, key: bytes, value: Value, rest: bytes, more: nat)
    requires InObject(w)
    requires WriteValue(WriteKey(w, key), value) == Filled(WriteKey(w, key), Text(value), Slots(value))
    ensures
      var next := WriteValue(WriteKey(w, key), value);
      var comma := if Top(w).count == 0 then [] else [COMMA];
      && InObject(next) && Top(next).count == Top(w).count + Slots(value) > 0
      && Extended(next, rest, more)
         == Extended(w, comma + Quote(key) + [COLON] + Text(value) + rest, Slots(value) + more)
  {
    KeyAwaits(w, key);
    hide WriteKey, WriteValue, Filled, Extended, Text, Quote, SetTop;
    var keyText := (if Top(w).count == 0 then [] else [COMMA]) + Quote(key) + [COLON];
    MemberFrames(w, keyText, Text(value), Slots(value), rest, more);
  }

  lemma MemberStays(w: Writer, key: bytes, value: Value)
    requires InObject(w)
    requires WriteValue(WriteKey(w, key), value) == Filled(WriteKey(w, key), Text(value), Slots(value))
    ensures var next := WriteValue(WriteKey(w, key), value); InObject(next) && Top(next).count > 0
  {
    MemberExtends(w, key, value, [], 0);
    hide *;
  }

  lemma MembersSplit(w: Writer, members: seq<Member>, first: bool)
    requires members != []
    ensures
      var keyed := WriteKey(w, members[0].key);
      WriteMembers(w, members) == WriteMembers(WriteValue(keyed, members[0].value), members[1..])
    ensures
      MembersText(members, first)
      == (if first then [] else [COMMA]) + Quote(members[0].key) + [COLON] + Text(members[0].value)
         + MembersText(members[1..], false)
  {
    hide WriteKey, WriteValue, Quote, Text;
  }

  lemma NothingExtends(w: Writer, first: bool)
    requires InObject(w)
    ensures WriteMembers(w, []) == Extended(w, MembersText([], first), 0)
  {
    assert w.buf + [] == w.buf;
  }

  lemma {:induction false} MembersExtend(w: Writer, members: seq<Member>) returns (slots: nat)
    requires InObject(w)
    ensures WriteMembers(w, members) == Extended(w, MembersText(members, Top(w).count == 0), slots)
    decreases members, 0
  {
    var first := Top(w).count == 0;
    hide WriteKey, WriteValue, WriteMembers, MembersText, Extended, Filled, Text, Quote, Slots, SetTop, Append;
    hide InObject, TakesValue, Top;
    if members == [] {
      slots := 0;
      NothingExtends(w, first);
    } else {
      var Member(key, value) := members[0];
      MembersSplit(w, members, first);
      MemberOpens(w, key);
      ValueFills(WriteKey(w, key), value);
      MemberStays(w, key, value);
      var more := MembersExtend(WriteValue(WriteKey(w, key), value), members[1..]);
      MemberExtends(w, key, value, MembersText(members[1..], false), more);
      slots := Slots(value) + more;
    }
  }

  /** The document a fresh writer produces for a tree. */
  lemma DocumentText(v: Value)
    ensures WriteValue(FRESH, v) == Writer(Text(v), [], true, false)
  {
    hide WriteValue;
    ValueFills(FRESH, v);
    assert [] + ([] + Text(v)) == Text(v);
  }

  lemma {:induction false} EscapeSnoc(s: bytes, c: byte)
    ensures Escape(s + [c]) == Escape(s) + EscapeByte(c)
  {
    hide EscapeByte;
    var all := s + [c];
    if s == [] {
      assert all == [c] && all[1..] == [] && Escape([]) == [];
      assert EscapeByte(c) + [] == [] + EscapeByte(c);
    } else {
      EscapeSnoc(s[1..], c);
      assert all[0] == s[0] && all[1..] == s[1..] + [c];
      hide Escape;
      Regrouped(EscapeByte(s[0]), Escape(s[1..]), EscapeByte(c));
    }
  }

  lemma Regrouped(a: bytes, b: bytes, c: bytes)
    ensures a + (b + c) == a + b + c
  {
  }

  lemma EscapeNext(s: bytes, i: nat, before: bytes)
    requires i < |s|
    ensures before + Escape(s[..i]) + EscapeByte(s[i]) == before + Escape(s[..i + 1])
  {
    hide Escape, EscapeByte;
    EscapeSnoc(s[..i], s[i]);
    assert s[..i] + [s[i]] == s[..i + 1];
  }

  /** The writer object: each method moves the state as the function of the same name says. */
  class JsonWriter {
    var buf: bytes
    var frames: seq<Frame>
    var haveRoot: bool
    var failed: bool

    ghost function State(): (next: Writer)
      reads this
    {
      Writer(buf, frames, haveRoot, failed)
    }

    constructor ()
      ensures State() == FRESH
    {
      buf, frames, haveRoot, failed := [], [], false, false;
    }

    method BeginSlot() returns (status: Status)
      modifies this
      ensures State() == BeginValue(old(State()))
      ensures status == if failed then INVAL else OK
    {
      if failed { return INVAL; }
      if |frames| == 0 {
        if haveRoot {
          failed := true;
          return INVAL;
        }
        return OK;
      }
      var top := frames[|frames| - 1];
      if top.isObject {
        if !top.awaitingValue {
          failed := true;
          return INVAL;
        }
        return OK;
      }
      if top.count > 0 { buf := buf + [COMMA]; }
      return OK;
    }

    method EndSlot()
      modifies this
      ensures State() == EndValue(old(State()))
    {
      if |frames| == 0 {
        haveRoot := true;
      } else {
        var top := frames[|frames| - 1];
        frames := frames[|frames| - 1 := top.(count := top.count + 1, awaitingValue := false)];
      }
    }

    /** `null`, `true`, `false` and number literals. */
    method WriteWord(word: bytes) returns (status: Status)
      modifies this
      ensures State() == WriteScalar(old(State()), word)
      ensures status == if failed then INVAL else OK
    {
      status := BeginSlot();
      if status == OK {
        buf := buf + word;
        EndSlot();
      }
    }

    method AppendEscapedString(s: bytes)
      modifies this`buf
      ensures buf == old(buf) + Quote(s)
    {
      hide EscapeByte;
      buf := buf + [QUOTE];
      var i := 0;
      assert s[..0] == [] && [QUOTE] + Escape([]) == [QUOTE];
      while i < |s|
        invariant 0 <= i <= |s|
        invariant buf == old(buf) + [QUOTE] + Escape(s[..i])
      {
        EscapeNext(s, i, old(buf) + [QUOTE]);
        buf := buf + EscapeByte(s[i]);
        i := i + 1;
      }
      assert s[..i] == s;
      buf := buf + [QUOTE];
    }

    method WriteText(s: bytes) returns (status: Status)
      modifies this
      ensures State() == WriteScalar(old(State()), Quote(s))
      ensures status == if failed then INVAL else OK
    {
      status := BeginSlot();
      if status == OK {
        AppendEscapedString(s);
        EndSlot();
      }
    }

    method Begin(isObject: bool) returns (status: Status)
      modifies this
      ensures State() == BeginContainer(old(State()), isObject)
      ensures status == if failed then INVAL else OK
    {
      status := BeginSlot();
      if status == OK {
        buf := buf + [if isObject then OPEN_BRACE else OPEN_BRACKET];
        EndSlot();
        frames := frames + [Frame(isObject, 0, false)];
      }
    }

    method End(isObject: bool) returns (status: Status)
      modifies this
      ensures State() == EndContainer(old(State()), isObject)
      ensures status == if failed then INVAL else OK
    {
      if failed { return INVAL; }
      if |frames| == 0 {
        failed := true;
        return INVAL;
      }
      var top := frames[|frames| - 1];
      if top.isObject != isObject || (top.isObject && top.awaitingValue) {
        failed := true;
        return INVAL;
      }
      buf := buf + [if isObject then CLOSE_BRACE else CLOSE_BRACKET];
      frames := frames[..|frames| - 1];
      EndSlot();
      return OK;
    }

    method Key(key: bytes) returns (status: Status)
      modifies this
      ensures State() == WriteKey(old(State()), key)
      ensures status == if failed then INVAL else OK
    {
      if failed { return INVAL; }
      if |frames| == 0 {
        failed := true;
        return INVAL;
      }
      var top := frames[|frames| - 1];
      if !top.isObject || top.awaitingValue {
        failed := true;
        return INVAL;
      }
      if top.count > 0 { buf := buf + [COMMA]; }
      AppendEscapedString(key);
      buf := buf + [COLON];
      frames := frames[|frames| - 1 := top.(awaitingValue := true)];
      return OK;
    }
  }
}
