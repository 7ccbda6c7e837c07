/** The codec as src/cli_history_codec.c runs it: a writer call per field, a parser fed the whole line. */
module CodecMethods {
  import opened Basics
  import opened Messages
  import opened History
  import opened JsonText
  import opened Codec
  import Base64
  import Decimal
  import JsonArena
  import JsonParser
  import JsonWriter

  /** Writing members one after another is writing them all. */
  lemma {:induction false} MembersConcat(w: JsonWriter.Writer, a: seq<Member>, b: seq<Member>)
    ensures JsonWriter.WriteMembers(w, a + b) == JsonWriter.WriteMembers(JsonWriter.WriteMembers(w, a), b)
    decreases a
  {
    hide JsonWriter.WriteKey, JsonWriter.WriteValue;
    if a == [] {
      assert a + b == b;
    } else {
      MembersConcat(JsonWriter.WriteValue(JsonWriter.WriteKey(w, a[0].key), a[0].value), a[1..], b);
      assert (a + b)[1..] == a[1..] + b && (a + b)[0] == a[0];
    }
  }

  lemma {:induction false} ItemsSnoc(w: JsonWriter.Writer, items: seq<Value>, v: Value)
    ensures
      JsonWriter.WriteItems(w, items + [v]) == JsonWriter.WriteValue(JsonWriter.WriteItems(w, items), v)
    decreases items
  {
    hide JsonWriter.WriteValue;
    if items == [] {
      assert (items + [v])[1..] == [];
    } else {
      ItemsSnoc(JsonWriter.WriteValue(w, items[0]), items[1..], v);
      assert (items + [v])[1..] == items[1..] + [v];
    }
  }

  lemma OneMember(w: JsonWriter.Writer, m: Member)
    ensures JsonWriter.WriteMembers(w, [m]) == JsonWriter.WriteValue(JsonWriter.WriteKey(w, m.key), m.value)
  {
    assert [m][1..] == [];
  }

  method WriteText(writer: JsonWriter.JsonWriter, key: bytes, text: bytes)
    modifies writer
    ensures writer.State() == JsonWriter.WriteMembers(old(writer.State()), [TextMember(key, text)])
  {
    hide JsonWriter.WriteKey, JsonWriter.WriteScalar;
    OneMember(writer.State(), TextMember(key, text));
    var keyed := writer.Key(key);
    var written := writer.WriteText(text);
  }

  method WriteCall(writer: JsonWriter.JsonWriter, call: ToolCall)
    modifies writer
    ensures writer.State() == JsonWriter.WriteValue(old(writer.State()), Object(CallMembers(call)))
  {
    hide JsonWriter.WriteMembers, JsonWriter.BeginContainer, JsonWriter.EndContainer;
    var begun := writer.Begin(true);
    ghost var entered := writer.State();
    WriteText(writer, ID, call.id);
    WriteText(writer, NAME, call.name);
    MembersConcat(entered, [TextMember(ID, call.id)], [TextMember(NAME, call.name)]);
    WriteText(writer, ARGUMENTS, call.arguments);
    MembersConcat(
      entered, [TextMember(ID, call.id)] + [TextMember(NAME, call.name)], [TextMember(ARGUMENTS, call.arguments)]);
    assert CallMembers(call)
        == [TextMember(ID, call.id)] + [TextMember(NAME, call.name)] + [TextMember(ARGUMENTS, call.arguments)];
    var ended := writer.End(true);
  }

  method WriteToolCalls(writer: JsonWriter.JsonWriter, calls: seq<ToolCall>)
    modifies writer
    ensures
      writer.State()
      == JsonWriter.WriteMembers(old(writer.State()), [Member(TOOL_CALLS, Array(CallValues(calls)))])
  {
    hide JsonWriter.WriteKey, JsonWriter.BeginContainer, JsonWriter.EndContainer, JsonWriter.WriteItems, CallMembers;
    OneMember(writer.State(), Member(TOOL_CALLS, Array(CallValues(calls))));
    var keyed := writer.Key(TOOL_CALLS);
    var begun := writer.Begin(false);
    ghost var entered := writer.State();
    NoItems(entered);
    var i := 0;
    assert calls[..0] == [];
    while i < |calls|
      invariant i <= |calls| && writer.State() == JsonWriter.WriteItems(entered, CallValues(calls[..i]))
    {
      CallValuesSnoc(calls, i);
      ItemsSnoc(entered, CallValues(calls[..i]), Object(CallMembers(calls[i])));
      WriteCall(writer, calls[i]);
      i := i + 1;
    }
    assert calls[..i] == calls;
    var ended := writer.End(false);
  }

  lemma NoItems(w: JsonWriter.Writer)
    ensures JsonWriter.WriteItems(w, CallValues([])) == w
  {
  }

  lemma CallValuesSnoc(calls: seq<ToolCall>, i: nat)
    requires i < |calls|
    ensures CallValues(calls[..i + 1]) == CallValues(calls[..i]) + [Object(CallMembers(calls[i]))]
  {
    assert calls[..i + 1][..i] == calls[..i];
  }

  lemma NoMembers(w: JsonWriter.Writer)
    ensures JsonWriter.WriteMembers(w, []) == w
  {
  }

  /** The members only a tool result has. */
  ghost function ResultMembers(h: HistoryMessage): (members: seq<Member>)
    requires h.value.ToolResult?
  {
    [TextMember(TOOL_CALL_ID, h.value.toolCallId), TextMember(TOOL_OUTCOME, OutcomeName(h.outcome))] + RawMembers(h.raw)
  }

  method WriteResult(writer: JsonWriter.JsonWriter, h: HistoryMessage)
    requires h.value.ToolResult? && HistoryMessageValid(h)
    modifies writer
    ensures writer.State() == JsonWriter.WriteMembers(old(writer.State()), ResultMembers(h))
  {
    hide JsonWriter.WriteMembers, Base64.Encoded, Ascii, OutcomeName;
    ghost var start, done := writer.State(), [];
    NoMembers(start);
    WriteText(writer, TOOL_CALL_ID, h.value.toolCallId);
    done := Joined(start, done, [TextMember(TOOL_CALL_ID, h.value.toolCallId)]);
    WriteText(writer, TOOL_OUTCOME, OutcomeName(h.outcome));
    done := Joined(start, done, [TextMember(TOOL_OUTCOME, OutcomeName(h.outcome))]);
    if h.raw.Some? {
      var encoded := Base64.Encode(h.raw.value);
      WriteText(writer, RAW_OUTPUT, encoded);
      done := Joined(start, done, RawMembers(h.raw));
    }
    assert done == ResultMembers(h);
  }

  method WriteMessage(writer: JsonWriter.JsonWriter, h: HistoryMessage)
    requires HistoryMessageValid(h)
    modifies writer
    ensures writer.State() == JsonWriter.WriteMembers(old(writer.State()), MessageMembers(h))
  {
    hide JsonWriter.WriteMembers, HistoryMessageValid, Base64.Encoded, CallValues, Ascii;
    hide RoleName, SourceName, OutcomeName;
    ghost var start, done := writer.State(), [];
    NoMembers(start);
    WriteText(writer, ROLE, RoleName(h.value));
    done := Joined(start, done, [TextMember(ROLE, RoleName(h.value))]);
    WriteText(writer, CONTENT, h.value.content);
    done := Joined(start, done, [TextMember(CONTENT, h.value.content)]);
    WriteText(writer, SOURCE, SourceName(h.source));
    done := Joined(start, done, [TextMember(SOURCE, SourceName(h.source))]);
    if h.model.Some? {
      WriteText(writer, MODEL, h.model.value);
      done := Joined(start, done, [TextMember(MODEL, h.model.value)]);
    }
    if h.value.Assistant? && |h.value.calls| > 0 {
      WriteToolCalls(writer, h.value.calls);
      done := Joined(start, done, CallsMembers(h.value.calls));
    }
    if h.value.ToolResult? {
      WriteResult(writer, h);
      done := Joined(start, done, ResultMembers(h));
    }
    assert done == MessageMembers(h);
  }

  lemma Joined(start: JsonWriter.Writer, done: seq<Member>, more: seq<Member>) returns (all: seq<Member>)
    ensures all == done + more
    ensures
      JsonWriter.WriteMembers(start, all) == JsonWriter.WriteMembers(JsonWriter.WriteMembers(start, done), more)
  {
    all := done + more;
    MembersConcat(start, done, more);
  }

  method WriteTwo(writer: JsonWriter.JsonWriter, key: bytes, text: bytes, key': bytes, text': bytes)
    modifies writer
    ensures
      writer.State() == JsonWriter.WriteMembers(old(writer.State()), [TextMember(key, text), TextMember(key', text')])
  {
    hide JsonWriter.WriteMembers;
    MembersConcat(writer.State(), [TextMember(key, text)], [TextMember(key', text')]);
    assert [TextMember(key, text), TextMember(key', text')] == [TextMember(key, text)] + [TextMember(key', text')];
    WriteText(writer, key, text);
    WriteText(writer, key', text');
  }

  method WritePayload(writer: JsonWriter.JsonWriter, payload: Payload)
    requires payload.MessageRecord? ==> HistoryMessageValid(payload.message)
    modifies writer
    ensures writer.State() == JsonWriter.WriteMembers(old(writer.State()), PayloadMembers(payload))
  {
    hide JsonWriter.WriteMembers, MessageMembers, HistoryMessageValid;
    match payload
    case Transition(count) => WriteText(writer, LEGACY_COUNT, Decimal.Digits(count));
    case MessageRecord(h) => WriteMessage(writer, h);
    case ToolStarted(id) => WriteText(writer, TOOL_CALL_ID, id);
    case PartialAssistant(content, model) => WriteTwo(writer, CONTENT, content, MODEL, model);
    case QueuedInput(content) => WriteText(writer, CONTENT, content);
    case QueueResolved(queued, resolution) =>
      WriteTwo(writer, QUEUED_RECORD_ID, Decimal.Digits(queued), RESOLUTION, ResolutionName(resolution));
    case Checkpoint(summary, model, first, last) =>
      ghost var names := Joined(
        writer.State(),
        [TextMember(SUMMARY, summary), TextMember(MODEL, model)],
        [U64Member(SOURCE_FIRST, first), U64Member(SOURCE_LAST, last)]);
      assert names == PayloadMembers(payload);
      WriteTwo(writer, SUMMARY, summary, MODEL, model);
      WriteTwo(writer, SOURCE_FIRST, Decimal.Digits(first), SOURCE_LAST, Decimal.Digits(last));
    case SessionSetting(field, value) => WriteTwo(writer, FIELD, SettingName(field), VALUE, value);
  }

  method WriteHeader(writer: JsonWriter.JsonWriter, r: Record)
    modifies writer
    ensures writer.State() == JsonWriter.WriteMembers(old(writer.State()), HeaderMembers(r))
  {
    hide JsonWriter.WriteMembers, JsonWriter.WriteKey, JsonWriter.WriteScalar, KindName;
    ghost var start := writer.State();
    var version := Member(VERSION, Number(ONE));
    OneMember(start, version);
    var keyed := writer.Key(VERSION);
    var written := writer.WriteWord(ONE);
    ghost var done := Joined(start, [version], [U64Member(RECORD_ID, r.recordId), U64Member(TURN_ID, r.turnId)]);
    WriteTwo(writer, RECORD_ID, Decimal.Digits(r.recordId), TURN_ID, Decimal.Digits(r.turnId));
    done := Joined(start, done, [TextMember(TYPE, KindName(r.payload))]);
    WriteText(writer, TYPE, KindName(r.payload));
    assert done == HeaderMembers(r);
  }

  lemma RecordDocument(r: Record)
    ensures
      var entered := JsonWriter.BeginContainer(JsonWriter.FRESH, true);
      var written :=
        JsonWriter.WriteMembers(JsonWriter.WriteMembers(entered, HeaderMembers(r)), PayloadMembers(r.payload));
      JsonWriter.EndContainer(written, true) == JsonWriter.Writer(Text(RecordTree(r)), [], true, false)
  {
    hide JsonWriter.WriteMembers, JsonWriter.BeginContainer, JsonWriter.EndContainer;
    hide Text, PayloadMembers, HeaderMembers;
    MembersConcat(JsonWriter.BeginContainer(JsonWriter.FRESH, true), HeaderMembers(r), PayloadMembers(r.payload));
    JsonWriter.DocumentText(RecordTree(r));
  }

  /** An invalid record is refused; a line over 8 MiB is too long. */
  method EncodeRecord(r: Record) returns (status: Status, json: bytes)
    ensures status == if !RecordValid(r) then INVAL else if Encoded(r).Some? then OK else NOMEM
    ensures json == if Encoded(r).Some? then Encoded(r).value else []
  {
    if !RecordValid(r) { return INVAL, []; }
    hide JsonWriter.WriteMembers, JsonWriter.BeginContainer, JsonWriter.EndContainer;
    hide RecordValid, Text, PayloadMembers, HeaderMembers, RecordTree;
    var writer := new JsonWriter.JsonWriter();
    var begun := writer.Begin(true);
    WriteHeader(writer, r);
    WritePayload(writer, r.payload);
    status := writer.End(true);
    RecordDocument(r);
    json := writer.buf;
    if |json| > MAX_RECORD { return NOMEM, []; }
  }

  /** The calls of an assistant message, one by one; a bad one refuses them all. */
  method ParseToolCalls(items: seq<Value>) returns (calls: Option<seq<ToolCall>>)
    ensures calls == CallsField(Some(Array(items)))
  {
    if |items| == 0 { return None; }
    var i := 0;
    var parsed: seq<ToolCall> := [];
    assert items[..0] == [];
    while i < |items|
      invariant i <= |items| && DecodedCalls(items[..i]) == Some(parsed)
    {
      DecodedCallsTake(items, i);
      var call := DecodedCall(items[i]);
      if call.None? { return None; }
      parsed := parsed + [call.value];
      i := i + 1;
    }
    assert items[..i] == items;
    return Some(parsed);
  }

  lemma {:induction false} DecodedCallsTake(items: seq<Value>, i: nat)
    requires i < |items| && DecodedCalls(items[..i]).Some?
    ensures
      DecodedCalls(items[..i + 1])
      == if DecodedCall(items[i]).None? then None
         else Some(DecodedCalls(items[..i]).value + [DecodedCall(items[i]).value])
    ensures DecodedCall(items[i]).None? ==> DecodedCalls(items).None?
    decreases |items|
  {
    hide DecodedCall;
    assert items[..i + 1][..i] == items[..i];
    if i + 1 < |items| {
      var init := items[..|items| - 1];
      assert init[..i] == items[..i];
      DecodedCallsTake(init, i);
    } else {
      assert items[..i + 1] == items;
    }
  }

  lemma DecodedByParsing(json: bytes)
    requires json != [] && |json| <= MAX_RECORD
    ensures
      var fed := JsonParser.Feed(JsonParser.START, json);
      var root := JsonParser.Finish(fed).root;
      && Decoded(json)
         == (if root.None? || !JsonArena.Allocates(root.value, MAX_RECORD) then None else DecodedTree(root.value))
      && (root.Some? ==>
            (JsonArena.Outgrows(JsonParser.START, json, MAX_RECORD) <==> !JsonArena.Allocates(root.value, MAX_RECORD)))
      && (root.Some? ==> fed != JsonParser.FAILED && JsonParser.Finish(fed).lex.Done?)
  {
    hide JsonParser.Feed, DecodedTree, JsonArena.Outgrows, JsonArena.Allocates;
    if JsonParser.Parse(json).Some? { JsonArena.OutgrowsIff(json, MAX_RECORD); }
  }

  /** A line parsed whole, and the record its root stands for. */
  method DecodeRecord(json: bytes) returns (status: Status, r: Option<Record>)
    ensures r == Decoded(json) && status == DecodeStatus(json) && (r.Some? <==> status == OK)
  {
    if |json| == 0 || |json| > MAX_RECORD { return INVAL, None; }
    hide Decoded, DecodedTree, JsonParser.Feed, JsonArena.Outgrows, JsonArena.Allocates;
    DecodedByParsing(json);
    if JsonArena.Outgrows(JsonParser.START, json, MAX_RECORD) { return NOMEM, None; }
    var parser := new JsonParser.Parser();
    var fed := parser.FeedChunk(json);
    if fed { fed := parser.FinishDocument(); }
    var root := parser.Root();
    if !fed || root.None? { return PARSE, None; }
    r := DecodedTree(root.value);
    status := if r.None? then PARSE else OK;
  }
}
