/** The lines of the log, spelled out: field by field, name by name, as src/cli_history_codec.c writes them. */
module LineFormat {
  import opened Basics
  import opened Messages
  import opened History
  import opened JsonText
  import opened Codec
  import Base64
  import Decimal

  /** `,"name":"value"`, the value escaped as section 7 of RFC 8259 asks. */
  function Field(name: string, value: bytes): (text: bytes) {
    [COMMA] + Quote(Ascii(name)) + [COLON] + Quote(value)
  }

  function NumberField(name: string, n: u64): (text: bytes) {
    Field(name, Decimal.Digits(n))
  }

  /** `{"id":"...","name":"...","arguments":"..."}`, a comma between one call and the next. */
  function CallLine(call: ToolCall): (text: bytes) {
    [OPEN_BRACE] + Field("id", call.id)[1..] + Field("name", call.name) + Field("arguments", call.arguments)
    + [CLOSE_BRACE]
  }

  function CallLines(calls: seq<ToolCall>): (text: bytes) {
    if calls == [] then []
    else if |calls| == 1 then CallLine(calls[0])
    else CallLine(calls[0]) + [COMMA] + CallLines(calls[1..])
  }

  function CallsField(calls: seq<ToolCall>): (text: bytes) {
    if calls == [] then []
    else [COMMA] + Quote(Ascii("tool_calls")) + [COLON] + [OPEN_BRACKET] + CallLines(calls) + [CLOSE_BRACKET]
  }

  function OutcomeField(outcome: Outcome): (text: bytes) {
    match outcome
    case Completed => Field("tool_outcome", Ascii("completed"))
    case OutcomeUnknown => Field("tool_outcome", Ascii("outcome_unknown"))
    case NotExecuted => Field("tool_outcome", Ascii("not_executed"))
    case NoOutcome => Field("tool_outcome", [])
  }

  /** What only this role has. */
  function RoleFields(h: HistoryMessage): (text: bytes) {
    match h.value
    case User(_) => []
    case Assistant(_, calls) => CallsField(calls)
    case ToolResult(id, _) =>
      Field("tool_call_id", id) + OutcomeField(h.outcome)
      + if h.raw.Some? then Field("raw_output_base64", Base64.Encoded(h.raw.value)) else []
  }

  function MessageFields(h: HistoryMessage): (text: bytes) {
    var role := if h.value.User? then "user" else if h.value.Assistant? then "assistant" else "tool";
    Field("role", Ascii(role)) + Field("content", h.value.content)
    + Field("source", Ascii(if h.source.Normal? then "normal" else "repair"))
    + (if h.model.Some? then Field("model", h.model.value) else [])
    + RoleFields(h)
  }

  function KindFields(payload: Payload): (text: bytes) {
    match payload
    case Transition(count) => NumberField("legacy_record_count", count)
    case MessageRecord(h) => MessageFields(h)
    case ToolStarted(id) => Field("tool_call_id", id)
    case PartialAssistant(content, model) => Field("content", content) + Field("model", model)
    case QueuedInput(content) => Field("content", content)
    case QueueResolved(queued, resolution) =>
      NumberField("queued_record_id", queued)
      + Field("resolution", Ascii(if resolution.Consumed? then "consumed" else "discarded"))
    case Checkpoint(summary, model, first, last) =>
      Field("summary", summary) + Field("model", model)
      + (NumberField("source_first_record_id", first) + NumberField("source_last_record_id", last))
    case SessionSetting(field, value) =>
      Field("field", Ascii(if field.ModelSetting? then "model" else "cwd")) + Field("value", value)
  }

  function KindText(payload: Payload): (name: string) {
    match payload
    case Transition(_) => "transition"
    case MessageRecord(_) => "message"
    case ToolStarted(_) => "tool_started"
    case PartialAssistant(_, _) => "partial_assistant"
    case QueuedInput(_) => "queued_input"
    case QueueResolved(_, _) => "queue_resolved"
    case Checkpoint(_, _, _, _) => "checkpoint"
    case SessionSetting(_, _) => "session_setting"
  }

  function HeaderFields(r: Record): (text: bytes) {
    NumberField("record_id", r.recordId) + NumberField("turn_id", r.turnId)
    + Field("type", Ascii(KindText(r.payload)))
  }

  /** The whole line: the version, which is the number 1, the header, and the fields of its kind. */
  function LineText(r: Record): (text: bytes) {
    [OPEN_BRACE] + (Quote(Ascii("version")) + [COLON] + [0x31] + (HeaderFields(r) + KindFields(r.payload)))
    + [CLOSE_BRACE]
  }

  // ----- members as text -----

  /** Members behind others. */
  function Later(members: seq<Member>): (text: bytes) {
    MembersText(members, false)
  }

  lemma {:induction false} LaterConcat(a: seq<Member>, b: seq<Member>)
    ensures Later(a + b) == Later(a) + Later(b)
    decreases a
  {
    hide Quote, Text;
    if a == [] {
      assert a + b == b;
    } else {
      LaterConcat(a[1..], b);
      assert (a + b)[1..] == a[1..] + b && (a + b)[0] == a[0];
    }
  }

  lemma LaterOne(key: bytes, value: Value)
    ensures Later([Member(key, value)]) == [COMMA] + Quote(key) + [COLON] + Text(value)
  {
    hide Quote;
    var one := [Member(key, value)];
    assert one[1..] == [] && MembersText([], false) == [];
    assert MembersText(one, false) == [COMMA] + Quote(key) + [COLON] + Text(value) + MembersText(one[1..], false);
  }

  lemma FieldIs(name: string, value: bytes)
    ensures Later([TextMember(Ascii(name), value)]) == Field(name, value)
  {
    LaterOne(Ascii(name), String(value));
  }

  lemma LaterTwo(a: Member, b: Member)
    ensures Later([a, b]) == Later([a]) + Later([b])
  {
    LaterConcat([a], [b]);
    assert [a] + [b] == [a, b];
  }

  lemma CallMembersAre(call: ToolCall)
    ensures
      Later(CallMembers(call)) == Field("id", call.id) + Field("name", call.name) + Field("arguments", call.arguments)
  {
    var id, name := TextMember(ID, call.id), TextMember(NAME, call.name);
    var arguments := TextMember(ARGUMENTS, call.arguments);
    FieldIs("id", call.id);
    FieldIs("name", call.name);
    FieldIs("arguments", call.arguments);
    hide Field, Ascii, TextMember;
    LaterTwo(id, name);
    LaterConcat([id, name], [arguments]);
    assert [id, name] + [arguments] == CallMembers(call);
  }

  lemma HeadDropped(a: bytes, b: bytes, c: bytes)
    requires a != []
    ensures [OPEN_BRACE] + (a + b + c)[1..] + [CLOSE_BRACE] == [OPEN_BRACE] + a[1..] + b + c + [CLOSE_BRACE]
  {
    assert (a + b + c)[1..] == a[1..] + b + c;
  }

  lemma CallIs(call: ToolCall)
    ensures Text(Object(CallMembers(call))) == CallLine(call)
  {
    CallMembersAre(call);
    FirstIs(CallMembers(call));
    assert Field("id", call.id) != [];
    hide Field, Later, CallMembers;
    HeadDropped(Field("id", call.id), Field("name", call.name), Field("arguments", call.arguments));
  }

  /** The first member has no comma. */
  lemma FirstMember(members: seq<Member>)
    requires members != []
    ensures
      MembersText(members, true)
      == Quote(members[0].key) + [COLON] + Text(members[0].value) + Later(members[1..])
  {
    hide Quote, Text;
    NothingLeads(Quote(members[0].key), Text(members[0].value), Later(members[1..]));
  }

  lemma NothingLeads(key: bytes, value: bytes, rest: bytes)
    ensures [] + key + [COLON] + value + rest == key + [COLON] + value + rest
  {
    assert [] + key == key;
  }

  lemma FirstIs(members: seq<Member>)
    requires members != []
    ensures |Later(members)| > 0 && MembersText(members, true) == Later(members)[1..]
  {
    FirstMember(members);
    hide Quote, Text;
    var rest := Quote(members[0].key) + [COLON] + Text(members[0].value) + Later(members[1..]);
    assert Later(members) == [COMMA] + rest;
  }

  lemma {:induction false} ValuesCons(calls: seq<ToolCall>)
    requires calls != []
    ensures CallValues(calls) == [Object(CallMembers(calls[0]))] + CallValues(calls[1..])
    decreases calls
  {
    hide CallMembers;
    var init, last := calls[..|calls| - 1], calls[|calls| - 1];
    if |calls| == 1 {
      assert init == [] && calls[1..] == [];
    } else {
      ValuesCons(init);
      assert calls[1..][..|calls| - 2] == init[1..] && calls[1..][|calls| - 2] == last;
      assert CallValues(calls[1..]) == CallValues(init[1..]) + [Object(CallMembers(last))];
    }
  }

  function Lead(first: bool): (text: bytes) {
    if first then [] else [COMMA]
  }

  lemma Shift(p: bytes, a: bytes, b: bytes, c: bytes)
    ensures p + a + (b + c) == p + (a + b + c) && p + a + [] == p + a
  {
  }

  lemma ItemsHead(items: seq<Value>, first: bool)
    requires items != []
    ensures ItemsText(items, first) == Lead(first) + Text(items[0]) + ItemsText(items[1..], false)
  {
    hide Text;
  }

  lemma {:induction false} ItemsAre(calls: seq<ToolCall>, first: bool)
    requires calls != []
    ensures ItemsText(CallValues(calls), first) == Lead(first) + CallLines(calls)
    decreases calls
  {
    ValuesCons(calls);
    assert CallValues(calls)[1..] == CallValues(calls[1..]);
    CallIs(calls[0]);
    ItemsHead(CallValues(calls), first);
    NoValues();
    assert |calls| == 1 ==> calls[1..] == [];
    if |calls| > 1 { ItemsAre(calls[1..], false); }
    Shift(Lead(first), CallLine(calls[0]), [COMMA], CallLines(calls[1..]));
    hide CallValues, CallMembers, CallLine, Text, ItemsText;
  }

  lemma NoValues()
    ensures CallValues([]) == [] && ItemsText([], false) == []
  {
  }

  lemma CallsAre(calls: seq<ToolCall>)
    ensures Later(CallsMembers(calls)) == CallsField(calls)
  {
    if calls != [] {
      LaterOne(TOOL_CALLS, Array(CallValues(calls)));
      ArrayIs(calls);
      hide CallValues, CallLines, Quote, Ascii, Text;
      Behind([COMMA] + Quote(TOOL_CALLS) + [COLON], [OPEN_BRACKET], CallLines(calls), [CLOSE_BRACKET]);
    }
  }

  lemma ArrayIs(calls: seq<ToolCall>)
    requires calls != []
    ensures Text(Array(CallValues(calls))) == [OPEN_BRACKET] + CallLines(calls) + [CLOSE_BRACKET]
  {
    ItemsAre(calls, true);
    hide CallValues, CallLines, ItemsText;
    assert [] + CallLines(calls) == CallLines(calls);
  }

  lemma Behind(p: bytes, a: bytes, b: bytes, c: bytes)
    ensures p + (a + b + c) == p + a + b + c
  {
  }

  // ----- payloads and lines -----

  lemma TwoFields(a: string, x: bytes, b: string, y: bytes)
    ensures Later([TextMember(Ascii(a), x), TextMember(Ascii(b), y)]) == Field(a, x) + Field(b, y)
  {
    FieldIs(a, x);
    FieldIs(b, y);
    hide Field, Ascii, TextMember;
    LaterTwo(TextMember(Ascii(a), x), TextMember(Ascii(b), y));
  }

  lemma ThreeFields(a: string, x: bytes, b: string, y: bytes, c: string, z: bytes)
    ensures
      Later([TextMember(Ascii(a), x), TextMember(Ascii(b), y), TextMember(Ascii(c), z)])
      == Field(a, x) + Field(b, y) + Field(c, z)
  {
    var first, last := [TextMember(Ascii(a), x), TextMember(Ascii(b), y)], [TextMember(Ascii(c), z)];
    TwoFields(a, x, b, y);
    FieldIs(c, z);
    hide Field, Ascii, TextMember;
    LaterConcat(first, last);
    assert first + last == [TextMember(Ascii(a), x), TextMember(Ascii(b), y), TextMember(Ascii(c), z)];
  }

  lemma NoMembers()
    ensures Later([]) == []
  {
  }

  lemma ResultFields(id: bytes, outcome: Outcome, raw: Option<bytes>)
    ensures
      Later([TextMember(TOOL_CALL_ID, id), TextMember(TOOL_OUTCOME, OutcomeName(outcome))] + RawMembers(raw))
      == Field("tool_call_id", id) + OutcomeField(outcome)
         + if raw.Some? then Field("raw_output_base64", Base64.Encoded(raw.value)) else []
  {
    TwoFields("tool_call_id", id, "tool_outcome", OutcomeName(outcome));
    LaterConcat([TextMember(TOOL_CALL_ID, id), TextMember(TOOL_OUTCOME, OutcomeName(outcome))], RawMembers(raw));
    if raw.Some? { FieldIs("raw_output_base64", Base64.Encoded(raw.value)); } else { NoMembers(); }
    hide Field, TextMember, Later, Base64.Encoded;
  }

  lemma ModelField(model: Option<bytes>)
    ensures Later(ModelMembers(model)) == if model.Some? then Field("model", model.value) else []
  {
    if model.Some? { FieldIs("model", model.value); } else { NoMembers(); }
    hide Field, Later;
  }

  function RoleMembers(h: HistoryMessage): (members: seq<Member>) {
    match h.value
    case User(_) => []
    case Assistant(_, calls) => CallsMembers(calls)
    case ToolResult(id, _) =>
      [TextMember(TOOL_CALL_ID, id), TextMember(TOOL_OUTCOME, OutcomeName(h.outcome))] + RawMembers(h.raw)
  }

  lemma RoleIs(h: HistoryMessage)
    ensures Later(RoleMembers(h)) == RoleFields(h)
  {
    match h.value
    case User(_) => NoMembers();
    case Assistant(_, calls) => CallsAre(calls);
    case ToolResult(id, _) => ResultFields(id, h.outcome, h.raw);
  }

  lemma MessageIs(h: HistoryMessage)
    ensures Later(MessageMembers(h)) == MessageFields(h)
  {
    var role := if h.value.User? then "user" else if h.value.Assistant? then "assistant" else "tool";
    var source := Ascii(if h.source.Normal? then "normal" else "repair");
    var common := [TextMember(ROLE, Ascii(role)), TextMember(CONTENT, h.value.content), TextMember(SOURCE, source)];
    ThreeFields("role", Ascii(role), "content", h.value.content, "source", source);
    ModelField(h.model);
    RoleIs(h);
    assert MessageMembers(h) == common + ModelMembers(h.model) + RoleMembers(h);
    hide Field, TextMember, Later, ModelMembers, RoleMembers, RoleFields, MessageMembers;
    LaterConcat(common, ModelMembers(h.model));
    LaterConcat(common + ModelMembers(h.model), RoleMembers(h));
  }

  lemma CheckpointIs(summary: bytes, model: bytes, first: u64, last: u64)
    ensures
      Later(PayloadMembers(Checkpoint(summary, model, first, last)))
      == Field("summary", summary) + Field("model", model)
         + (NumberField("source_first_record_id", first) + NumberField("source_last_record_id", last))
  {
    hide Ascii, Field, TextMember, Later, Decimal.Digits;
    var texts := [TextMember(SUMMARY, summary), TextMember(MODEL, model)];
    var numbers := [U64Member(SOURCE_FIRST, first), U64Member(SOURCE_LAST, last)];
    TwoFields("summary", summary, "model", model);
    TwoFields("source_first_record_id", Decimal.Digits(first), "source_last_record_id", Decimal.Digits(last));
    assert PayloadMembers(Checkpoint(summary, model, first, last)) == texts + numbers;
    LaterConcat(texts, numbers);
  }

  lemma PayloadIs(payload: Payload)
    ensures Later(PayloadMembers(payload)) == KindFields(payload)
  {
    hide Field, TextMember, Later, Decimal.Digits, MessageMembers, MessageFields;
    match payload
    case Transition(count) => FieldIs("legacy_record_count", Decimal.Digits(count));
    case MessageRecord(h) => MessageIs(h);
    case ToolStarted(id) => FieldIs("tool_call_id", id);
    case PartialAssistant(content, model) => TwoFields("content", content, "model", model);
    case QueuedInput(content) => FieldIs("content", content);
    case QueueResolved(queued, resolution) =>
      TwoFields("queued_record_id", Decimal.Digits(queued),
                "resolution", Ascii(if resolution.Consumed? then "consumed" else "discarded"));
    case Checkpoint(summary, model, first, last) => CheckpointIs(summary, model, first, last);
    case SessionSetting(field, value) =>
      TwoFields("field", Ascii(if field.ModelSetting? then "model" else "cwd"), "value", value);
  }

  lemma HeaderIs(r: Record)
    ensures Later(HeaderMembers(r)[1..]) == HeaderFields(r)
  {
    ThreeFields("record_id", Decimal.Digits(r.recordId), "turn_id", Decimal.Digits(r.turnId),
                "type", Ascii(KindText(r.payload)));
    HeaderRest(r);
    hide Field, Later, Decimal.Digits, Ascii, TextMember, HeaderMembers;
  }

  lemma HeaderRest(r: Record)
    ensures
      HeaderMembers(r)[1..]
      == [TextMember(Ascii("record_id"), Decimal.Digits(r.recordId)),
          TextMember(Ascii("turn_id"), Decimal.Digits(r.turnId)), TextMember(Ascii("type"), Ascii(KindText(r.payload)))]
  {
    hide Ascii, Decimal.Digits;
  }

  /** Every record's line, byte for byte. */
  lemma LineIs(r: Record)
    ensures Text(RecordTree(r)) == LineText(r)
  {
    hide Field, Later, Decimal.Digits, Ascii, Quote, KindFields, HeaderFields, TextMember, KindName, MembersText;
    HeaderIs(r);
    PayloadIs(r.payload);
    var header, kind := HeaderMembers(r)[1..], PayloadMembers(r.payload);
    var all := HeaderMembers(r) + kind;
    assert all[0] == Member(VERSION, Number(ONE)) && all[1..] == header + kind;
    hide HeaderMembers, PayloadMembers;
    LaterConcat(header, kind);
    FirstMember(all);
  }
}
