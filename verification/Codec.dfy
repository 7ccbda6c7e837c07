/** The typed record codec of src/cli_history_codec.c: the tree a record is written as, and what is read back. */
module Codec {
  import opened Basics
  import opened Messages
  import opened History
  import opened JsonText
  import Base64
  import Decimal
  import JsonArena
  import JsonNumber
  import JsonParser

  const VERSION := Ascii("version")
  const RECORD_ID := Ascii("record_id")
  const TURN_ID := Ascii("turn_id")
  const TYPE := Ascii("type")
  const ROLE := Ascii("role")
  const CONTENT := Ascii("content")
  const SOURCE := Ascii("source")
  const MODEL := Ascii("model")
  const TOOL_CALLS := Ascii("tool_calls")
  const TOOL_CALL_ID := Ascii("tool_call_id")
  const TOOL_OUTCOME := Ascii("tool_outcome")
  const RAW_OUTPUT := Ascii("raw_output_base64")
  const LEGACY_COUNT := Ascii("legacy_record_count")
  const QUEUED_RECORD_ID := Ascii("queued_record_id")
  const RESOLUTION := Ascii("resolution")
  const SUMMARY := Ascii("summary")
  const SOURCE_FIRST := Ascii("source_first_record_id")
  const SOURCE_LAST := Ascii("source_last_record_id")
  const FIELD := Ascii("field")
  const VALUE := Ascii("value")
  const ID := Ascii("id")
  const NAME := Ascii("name")
  const ARGUMENTS := Ascii("arguments")

  /** The number the version is written as. */
  const ONE: bytes := [0x31]

  // ----- names -----

  function KindName(payload: Payload): (text: bytes) {
    match payload
    case Transition(_) => Ascii("transition")
    case MessageRecord(_) => Ascii("message")
    case ToolStarted(_) => Ascii("tool_started")
    case PartialAssistant(_, _) => Ascii("partial_assistant")
    case QueuedInput(_) => Ascii("queued_input")
    case QueueResolved(_, _) => Ascii("queue_resolved")
    case Checkpoint(_, _, _, _) => Ascii("checkpoint")
    case SessionSetting(_, _) => Ascii("session_setting")
  }

  function RoleName(m: Message): (text: bytes) {
    match m
    case User(_) => Ascii("user")
    case Assistant(_, _) => Ascii("assistant")
    case ToolResult(_, _) => Ascii("tool")
  }

  function SourceName(source: Source): (text: bytes) {
    if source.Normal? then Ascii("normal") else Ascii("repair")
  }

  /** NoOutcome has no name; a valid tool result never carries it. */
  function OutcomeName(outcome: Outcome): (text: bytes) {
    match outcome
    case Completed => Ascii("completed")
    case OutcomeUnknown => Ascii("outcome_unknown")
    case NotExecuted => Ascii("not_executed")
    case NoOutcome => []
  }

  function ResolutionName(resolution: Resolution): (text: bytes) {
    if resolution.Consumed? then Ascii("consumed") else Ascii("discarded")
  }

  function SettingName(field: SettingField): (text: bytes) {
    if field.ModelSetting? then Ascii("model") else Ascii("cwd")
  }

  function SourceNamed(name: bytes): (result: Option<Source>) {
    if name == Ascii("normal") then Some(Normal) else if name == Ascii("repair") then Some(Repair) else None
  }

  function OutcomeNamed(name: bytes): (result: Option<Outcome>) {
    if name == Ascii("completed") then Some(Completed)
    else if name == Ascii("outcome_unknown") then Some(OutcomeUnknown)
    else if name == Ascii("not_executed") then Some(NotExecuted)
    else None
  }

  function ResolutionNamed(name: bytes): (result: Option<Resolution>) {
    if name == Ascii("consumed") then Some(Consumed) else if name == Ascii("discarded") then Some(Discarded) else None
  }

  function SettingNamed(name: bytes): (result: Option<SettingField>) {
    if name == Ascii("model") then Some(ModelSetting) else if name == Ascii("cwd") then Some(CwdSetting) else None
  }

  lemma NamesRead(source: Source, outcome: Outcome, resolution: Resolution, field: SettingField)
    ensures SourceNamed(SourceName(source)) == Some(source)
    ensures OutcomeNamed(OutcomeName(outcome)) == if outcome.NoOutcome? then None else Some(outcome)
    ensures ResolutionNamed(ResolutionName(resolution)) == Some(resolution)
    ensures SettingNamed(SettingName(field)) == Some(field)
  {
    assert Ascii("normal")[0] == 0x6E && Ascii("repair")[0] == 0x72;
    assert |Ascii("completed")| == 9 && |Ascii("outcome_unknown")| == 15 && |Ascii("not_executed")| == 12;
    assert |Ascii("consumed")| == 8 && |Ascii("discarded")| == 9;
    assert |Ascii("model")| == 5 && |Ascii("cwd")| == 3;
  }

  // ----- the tree of a record -----

  function TextMember(key: bytes, text: bytes): (member: Member) {
    Member(key, String(text))
  }

  function U64Member(key: bytes, n: u64): (member: Member) {
    TextMember(key, Decimal.Digits(n))
  }

  function CallMembers(call: ToolCall): (members: seq<Member>) {
    [TextMember(ID, call.id), TextMember(NAME, call.name), TextMember(ARGUMENTS, call.arguments)]
  }

  function CallValues(calls: seq<ToolCall>): (result: seq<Value>) {
    if calls == [] then [] else CallValues(calls[..|calls| - 1]) + [Object(CallMembers(calls[|calls| - 1]))]
  }

  function ModelMembers(model: Option<bytes>): (members: seq<Member>) {
    if model.Some? then [TextMember(MODEL, model.value)] else []
  }

  function CallsMembers(calls: seq<ToolCall>): (members: seq<Member>) {
    if calls == [] then [] else [Member(TOOL_CALLS, Array(CallValues(calls)))]
  }

  function RawMembers(raw: Option<bytes>): (members: seq<Member>) {
    if raw.Some? then [TextMember(RAW_OUTPUT, Base64.Encoded(raw.value))] else []
  }

  function MessageMembers(h: HistoryMessage): (members: seq<Member>) {
    [TextMember(ROLE, RoleName(h.value)), TextMember(CONTENT, h.value.content),
     TextMember(SOURCE, SourceName(h.source))]
    + ModelMembers(h.model)
    + match h.value
      case User(_) => []
      case Assistant(_, calls) => CallsMembers(calls)
      case ToolResult(id, _) =>
        [TextMember(TOOL_CALL_ID, id), TextMember(TOOL_OUTCOME, OutcomeName(h.outcome))] + RawMembers(h.raw)
  }

  function PayloadMembers(payload: Payload): (members: seq<Member>) {
    match payload
    case Transition(count) => [U64Member(LEGACY_COUNT, count)]
    case MessageRecord(h) => MessageMembers(h)
    case ToolStarted(id) => [TextMember(TOOL_CALL_ID, id)]
    case PartialAssistant(content, model) => [TextMember(CONTENT, content), TextMember(MODEL, model)]
    case QueuedInput(content) => [TextMember(CONTENT, content)]
    case QueueResolved(queued, resolution) =>
      [U64Member(QUEUED_RECORD_ID, queued), TextMember(RESOLUTION, ResolutionName(resolution))]
    case Checkpoint(summary, model, first, last) =>
      [TextMember(SUMMARY, summary), TextMember(MODEL, model),
       U64Member(SOURCE_FIRST, first), U64Member(SOURCE_LAST, last)]
    case SessionSetting(field, value) => [TextMember(FIELD, SettingName(field)), TextMember(VALUE, value)]
  }

  function HeaderMembers(r: Record): (members: seq<Member>) {
    [Member(VERSION, Number(ONE)), U64Member(RECORD_ID, r.recordId), U64Member(TURN_ID, r.turnId),
     TextMember(TYPE, KindName(r.payload))]
  }

  function RecordTree(r: Record): (value: Value) {
    Object(HeaderMembers(r) + PayloadMembers(r.payload))
  }

  /** `oi_cli_history_record_encode`: the line of a valid record, unless it is over 8 MiB. */
  function Encoded(r: Record): (found: Option<bytes>) {
    if !RecordValid(r) || |Text(RecordTree(r))| > MAX_RECORD then None else Some(Text(RecordTree(r)))
  }

  // ----- reading one back -----

  function TextField(members: seq<Member>, key: bytes): (found: Option<bytes>) {
    match Lookup(members, key)
    case Some(String(text)) => Some(text)
    case _ => None
  }

  function U64Field(members: seq<Member>, key: bytes): (found: Option<u64>) {
    match TextField(members, key)
    case None => None
    case Some(text) => Decimal.ParsedU64(text)
  }

  /** A record the set function of its kind accepts. */
  function Checked(r: Record): (read: Option<Record>) {
    if RecordValid(r) then Some(r) else None
  }

  function DecodedCall(v: Value): (result: Option<ToolCall>) {
    if !v.Object? || |v.members| != 3 then None
    else
      match (TextField(v.members, ID), TextField(v.members, NAME), TextField(v.members, ARGUMENTS))
      case (Some(id), Some(name), Some(arguments)) =>
        if id == [] || name == [] || arguments == [] then None else Some(ToolCall(id, name, arguments))
      case _ => None
  }

  function DecodedCalls(items: seq<Value>): (result: Option<seq<ToolCall>>) {
    if items == [] then Some([])
    else
      match (DecodedCalls(items[..|items| - 1]), DecodedCall(items[|items| - 1]))
      case (Some(calls), Some(call)) => Some(calls + [call])
      case _ => None
  }

  /** The calls field: absent, or an array with at least one good call. */
  function CallsField(calls: Option<Value>): (result: Option<seq<ToolCall>>) {
    match calls
    case None => Some([])
    case Some(Array(items)) => if items == [] then None else DecodedCalls(items)
    case _ => None
  }

  function DecodedUser(members: seq<Member>, content: bytes, source: Source): (read: Option<HistoryMessage>) {
    if |members| != 7 || !source.Normal? then None
    else Some(HistoryMessage(User(content), source, NoOutcome, None, None))
  }

  /** A repaired assistant message may carry no calls and no model. */
  function DecodedAssistant(members: seq<Member>, content: bytes, source: Source): (read: Option<HistoryMessage>) {
    var calls := Lookup(members, TOOL_CALLS);
    var model := TextField(members, MODEL);
    if source.Normal? && (|members| != (if calls.None? then 8 else 9) || model.None?) then None
    else if source.Repair? && (|members| != 7 || calls.Some?) then None
    else
      match CallsField(calls)
      case None => None
      case Some(cs) =>
        Some(HistoryMessage(Assistant(content, cs), source, NoOutcome, if source.Normal? then model else None, None))
  }

  /** The raw output of a normal result: required when completed, refused when not executed. */
  function DecodedRaw(members: seq<Member>, outcome: Outcome): (result: Option<Option<bytes>>) {
    if Lookup(members, RAW_OUTPUT).None? then (if outcome.Completed? then None else Some(None))
    else if outcome.NotExecuted? then None
    else
      match TextField(members, RAW_OUTPUT)
      case None => None
      case Some(text) =>
        match Base64.Decoded(text)
        case None => None
        case Some(raw) => if |raw| > MAX_CONTENT then None else Some(Some(raw))
  }

  function DecodedTool(members: seq<Member>, content: bytes, source: Source): (read: Option<HistoryMessage>) {
    if |members| != (if Lookup(members, RAW_OUTPUT).None? then 9 else 10) then None
    else
      match (TextField(members, TOOL_CALL_ID), TextField(members, TOOL_OUTCOME))
      case (Some(id), Some(name)) =>
        (match OutcomeNamed(name)
         case None => None
         case Some(outcome) =>
           if source.Repair? then
             if outcome.Completed? then None
             else Some(HistoryMessage(ToolResult(id, content), source, outcome, None, None))
           else
             match DecodedRaw(members, outcome)
             case None => None
             case Some(raw) => Some(HistoryMessage(ToolResult(id, content), source, outcome, None, raw)))
      case _ => None
  }

  function DecodedMessage(members: seq<Member>): (read: Option<HistoryMessage>) {
    match (TextField(members, ROLE), TextField(members, CONTENT), TextField(members, SOURCE))
    case (Some(role), Some(content), Some(name)) =>
      (match SourceNamed(name)
       case None => None
       case Some(source) =>
         if role == Ascii("user") then DecodedUser(members, content, source)
         else if role == Ascii("assistant") then DecodedAssistant(members, content, source)
         else if role == Ascii("tool") then DecodedTool(members, content, source)
         else None)
    case _ => None
  }

  /** The transition's set function is the only one that does not ask whether the record is valid. */
  function DecodedTransition(members: seq<Member>, recordId: u64): (read: Option<Record>) {
    match U64Field(members, LEGACY_COUNT)
    case Some(count) =>
      if |members| == 5 && recordId != 0 then Some(MakeRecord(recordId, 0, Transition(count))) else None
    case None => None
  }

  function DecodedQueueResolved(members: seq<Member>, recordId: u64, turnId: u64): (read: Option<Record>) {
    match (U64Field(members, QUEUED_RECORD_ID), TextField(members, RESOLUTION))
    case (Some(queued), Some(name)) =>
      (match ResolutionNamed(name)
       case Some(resolution) =>
         if |members| == 6 then Checked(MakeRecord(recordId, turnId, QueueResolved(queued, resolution))) else None
       case None => None)
    case _ => None
  }

  function DecodedCheckpoint(members: seq<Member>, recordId: u64): (read: Option<Record>) {
    match (TextField(members, SUMMARY), TextField(members, MODEL))
    case (Some(summary), Some(model)) =>
      (match (U64Field(members, SOURCE_FIRST), U64Field(members, SOURCE_LAST))
       case (Some(first), Some(last)) =>
         if |members| == 8 then Checked(MakeRecord(recordId, 0, Checkpoint(summary, model, first, last))) else None
       case _ => None)
    case _ => None
  }

  function DecodedSetting(members: seq<Member>, recordId: u64): (read: Option<Record>) {
    match (TextField(members, FIELD), TextField(members, VALUE))
    case (Some(name), Some(value)) =>
      (match SettingNamed(name)
       case Some(field) =>
         if |members| == 6 then Checked(MakeRecord(recordId, 0, SessionSetting(field, value))) else None
       case None => None)
    case _ => None
  }

  function DecodedPayload(members: seq<Member>, kind: bytes, recordId: u64, turnId: u64): (read: Option<Record>) {
    if kind == Ascii("transition") then DecodedTransition(members, recordId)
    else if kind == Ascii("message") then
      match DecodedMessage(members)
      case Some(h) => Checked(MakeRecord(recordId, turnId, MessageRecord(h)))
      case None => None
    else if kind == Ascii("tool_started") then
      match TextField(members, TOOL_CALL_ID)
      case Some(id) => if |members| == 5 then Checked(MakeRecord(recordId, turnId, ToolStarted(id))) else None
      case None => None
    else if kind == Ascii("partial_assistant") then
      match (TextField(members, CONTENT), TextField(members, MODEL))
      case (Some(content), Some(model)) =>
        if |members| == 6 then Checked(MakeRecord(recordId, turnId, PartialAssistant(content, model))) else None
      case _ => None
    else if kind == Ascii("queued_input") then
      match TextField(members, CONTENT)
      case Some(content) => if |members| == 5 then Checked(MakeRecord(recordId, turnId, QueuedInput(content))) else None
      case None => None
    else if kind == Ascii("queue_resolved") then DecodedQueueResolved(members, recordId, turnId)
    else if kind == Ascii("checkpoint") then DecodedCheckpoint(members, recordId)
    else if kind == Ascii("session_setting") then DecodedSetting(members, recordId)
    else None
  }

  /** The version is a JSON number, read by C `strtod` and compared with 1. */
  predicate VersionIsOne(members: seq<Member>) {
    match Lookup(members, VERSION)
    case Some(Number(literal)) => JsonNumber.RoundsToOne(JsonNumber.LiteralValue(literal))
    case _ => false
  }

  function DecodedTree(v: Value): (read: Option<Record>) {
    if !v.Object? || !VersionIsOne(v.members) then None
    else
      match (U64Field(v.members, RECORD_ID), U64Field(v.members, TURN_ID), TextField(v.members, TYPE))
      case (Some(recordId), Some(turnId), Some(kind)) => DecodedPayload(v.members, kind, recordId, turnId)
      case _ => None
  }

  /** `oi_cli_history_record_decode`: the line is parsed into an arena of 8 MiB blocks. */
  function Decoded(json: bytes): (read: Option<Record>) {
    if json == [] || |json| > MAX_RECORD then None
    else
      match JsonParser.Parse(json)
      case None => None
      case Some(root) => if JsonArena.Allocates(root, MAX_RECORD) then DecodedTree(root) else None
  }

  /** The status it returns: out of memory where an allocation is refused before the text is. */
  function DecodeStatus(json: bytes): (status: Status)
    ensures status == OK <==> Decoded(json).Some?
  {
    assert JsonParser.Parse(json).Some? ==>
        (JsonArena.Outgrows(JsonParser.START, json, MAX_RECORD)
         <==> !JsonArena.Allocates(JsonParser.Parse(json).value, MAX_RECORD)) by {
      if JsonParser.Parse(json).Some? { JsonArena.OutgrowsIff(json, MAX_RECORD); }
    }
    if json == [] || |json| > MAX_RECORD then INVAL
    else if JsonArena.Outgrows(JsonParser.START, json, MAX_RECORD) then NOMEM
    else if Decoded(json).Some? then OK
    else PARSE
  }
}
