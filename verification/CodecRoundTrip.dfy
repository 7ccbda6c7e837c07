/** Decoding undoes encoding for every valid record but one kind, and exactly for those. */
module CodecRoundTrip {
  import opened Basics
  import opened Messages
  import opened History
  import opened JsonText
  import opened Codec
  import Base64
  import Decimal
  import JsonArena
  import JsonNumber
  import JsonParser
  import JsonRoundTrip
  import JsonWriter

  // ----- keys -----

  /** Keys differ in length, first byte or sixth byte. */
  lemma KeyFacts()
    ensures |VERSION| == 7 && VERSION[0] == 0x76
    ensures |RECORD_ID| == 9 && RECORD_ID[0] == 0x72
    ensures |TURN_ID| == 7 && TURN_ID[0] == 0x74
    ensures |TYPE| == 4 && TYPE[0] == 0x74
    ensures |ROLE| == 4 && ROLE[0] == 0x72
    ensures |CONTENT| == 7 && CONTENT[0] == 0x63
    ensures |SOURCE| == 6
    ensures |MODEL| == 5 && MODEL[0] == 0x6D
    ensures |TOOL_CALLS| == 10 && TOOL_CALLS[0] == 0x74
    ensures |TOOL_CALL_ID| == 12 && TOOL_CALL_ID[5] == 0x63
    ensures |TOOL_OUTCOME| == 12 && TOOL_OUTCOME[5] == 0x6F
    ensures |RAW_OUTPUT| == 17 && |LEGACY_COUNT| == 19 && |QUEUED_RECORD_ID| == 16
    ensures |RESOLUTION| == 10 && RESOLUTION[0] == 0x72
    ensures |SUMMARY| == 7 && SUMMARY[0] == 0x73
    ensures |SOURCE_FIRST| == 22 && |SOURCE_LAST| == 21
    ensures |FIELD| == 5 && FIELD[0] == 0x66
    ensures |VALUE| == 5 && VALUE[0] == 0x76
    ensures |ID| == 2 && |NAME| == 4 && |ARGUMENTS| == 9
  {
  }

  predicate KeysApart(members: seq<Member>) {
    forall i, j :: 0 <= i < j < |members| ==> members[i].key != members[j].key
  }

  predicate KeyAbsent(members: seq<Member>, key: bytes) {
    forall i :: 0 <= i < |members| ==> members[i].key != key
  }

  lemma {:induction false} LookupAt(members: seq<Member>, i: nat)
    requires KeysApart(members) && i < |members|
    ensures Lookup(members, members[i].key) == Some(members[i].value)
    decreases i
  {
    if i > 0 {
      assert members[0].key != members[i].key;
      LookupAt(members[1..], i - 1);
    }
  }

  lemma {:induction false} LookupAbsent(members: seq<Member>, key: bytes)
    requires KeyAbsent(members, key)
    ensures Lookup(members, key) == None
  {
    if members != [] {
      assert members[0].key != key;
      LookupAbsent(members[1..], key);
    }
  }

  lemma HeaderApart(r: Record)
    ensures KeysApart(HeaderMembers(r))
  {
    KeyFacts();
  }

  predicate HeaderFree(members: seq<Member>) {
    && KeyAbsent(members, VERSION) && KeyAbsent(members, RECORD_ID)
    && KeyAbsent(members, TURN_ID) && KeyAbsent(members, TYPE)
  }

  lemma MessageApart(h: HistoryMessage)
    ensures KeysApart(MessageMembers(h)) && HeaderFree(MessageMembers(h))
  {
    KeyFacts();
    hide Ascii, CallValues, Base64.Encoded, RoleName, SourceName, OutcomeName;
  }

  lemma PayloadApart(payload: Payload)
    ensures KeysApart(PayloadMembers(payload)) && HeaderFree(PayloadMembers(payload))
  {
    KeyFacts();
    hide Ascii, MessageMembers, Decimal.Digits;
    if payload.MessageRecord? { MessageApart(payload.message); }
  }

  function Members(r: Record): (members: seq<Member>) {
    HeaderMembers(r) + PayloadMembers(r.payload)
  }

  lemma TreeApart(r: Record)
    ensures KeysApart(Members(r))
  {
    HeaderApart(r);
    PayloadApart(r.payload);
    forall i, j | 0 <= i < 4 <= j < |Members(r)| ensures Members(r)[i].key != Members(r)[j].key {
      assert Members(r)[i] == HeaderMembers(r)[i] && Members(r)[j] == PayloadMembers(r.payload)[j - 4];
    }
  }

  lemma HeaderRead(r: Record)
    ensures VersionIsOne(Members(r))
    ensures U64Field(Members(r), RECORD_ID) == Some(r.recordId)
    ensures U64Field(Members(r), TURN_ID) == Some(r.turnId)
    ensures TextField(Members(r), TYPE) == Some(KindName(r.payload))
  {
    hide KindName, PayloadMembers;
    TreeApart(r);
    LookupAt(Members(r), 0);
    LookupAt(Members(r), 1);
    LookupAt(Members(r), 2);
    LookupAt(Members(r), 3);
    JsonNumber.IntegerLiteral(ONE);
    hide JsonNumber.RoundsToOne, JsonNumber.LiteralValue;
    Decimal.DecimalRoundTrip(r.recordId, []);
    Decimal.DecimalRoundTrip(r.turnId, []);
  }

  lemma PayloadRead(r: Record, i: nat)
    requires i < |PayloadMembers(r.payload)|
    ensures Lookup(Members(r), PayloadMembers(r.payload)[i].key) == Some(PayloadMembers(r.payload)[i].value)
  {
    hide PayloadMembers;
    TreeApart(r);
    assert Members(r)[4 + i] == PayloadMembers(r.payload)[i];
    LookupAt(Members(r), 4 + i);
  }

  lemma NotRead(r: Record, key: bytes)
    requires KeyAbsent(HeaderMembers(r), key) && KeyAbsent(PayloadMembers(r.payload), key)
    ensures Lookup(Members(r), key) == None
  {
    hide PayloadMembers;
    forall i | 0 <= i < |Members(r)| ensures Members(r)[i].key != key {
      assert Members(r)[i] == if i < 4 then HeaderMembers(r)[i] else PayloadMembers(r.payload)[i - 4];
    }
    LookupAbsent(Members(r), key);
  }

  // ----- values -----

  lemma CallRead(call: ToolCall)
    requires CallValid(call)
    ensures DecodedCall(Object(CallMembers(call))) == Some(call)
  {
    KeyFacts();
    var members := CallMembers(call);
    assert KeysApart(members);
    LookupAt(members, 0);
    LookupAt(members, 1);
    LookupAt(members, 2);
  }

  lemma CallsSnoc(items: seq<Value>, v: Value, calls: seq<ToolCall>, call: ToolCall)
    requires DecodedCalls(items) == Some(calls) && DecodedCall(v) == Some(call)
    ensures DecodedCalls(items + [v]) == Some(calls + [call])
  {
    hide DecodedCall;
    var longer := items + [v];
    assert longer[..|longer| - 1] == items && longer[|longer| - 1] == v;
  }

  lemma {:induction false} CallsRead(calls: seq<ToolCall>)
    requires forall i :: 0 <= i < |calls| ==> CallValid(calls[i])
    ensures DecodedCalls(CallValues(calls)) == Some(calls) && |CallValues(calls)| == |calls|
  {
    if calls != [] {
      hide DecodedCall, DecodedCalls, CallMembers, CallValid;
      var init, last := calls[..|calls| - 1], calls[|calls| - 1];
      CallsRead(init);
      CallRead(last);
      CallsSnoc(CallValues(init), Object(CallMembers(last)), init, last);
      assert init + [last] == calls;
    }
  }

  // ----- the kinds -----

  lemma KindFacts()
    ensures |Ascii("transition")| == 10 && Ascii("transition")[0] == 0x74
    ensures |Ascii("message")| == 7
    ensures |Ascii("tool_started")| == 12 && Ascii("tool_started")[0] == 0x74
    ensures |Ascii("partial_assistant")| == 17
    ensures |Ascii("queued_input")| == 12 && Ascii("queued_input")[0] == 0x71
    ensures |Ascii("queue_resolved")| == 14
    ensures |Ascii("checkpoint")| == 10 && Ascii("checkpoint")[0] == 0x63
    ensures |Ascii("session_setting")| == 15
  {
  }

  lemma RoleFacts()
    ensures Ascii("user")[0] == 0x75 && Ascii("assistant")[0] == 0x61 && Ascii("tool")[0] == 0x74
  {
  }

  /** The records that decode refuses although they are valid: a repaired assistant message with calls. */
  predicate RepairWithCalls(r: Record) {
    && r.payload.MessageRecord?
    && r.payload.message.source.Repair?
    && r.payload.message.value.Assistant?
    && r.payload.message.value.calls != []
  }

  lemma MessageHead(r: Record)
    requires r.payload.MessageRecord?
    ensures
      var h := r.payload.message;
      && TextField(Members(r), ROLE) == Some(RoleName(h.value))
      && TextField(Members(r), CONTENT) == Some(h.value.content)
      && TextField(Members(r), SOURCE) == Some(SourceName(h.source))
  {
    hide RoleName, SourceName;
    PayloadRead(r, 0);
    PayloadRead(r, 1);
    PayloadRead(r, 2);
  }

  /** What the fields of an assistant message read back as. */
  lemma AssistantFields(r: Record)
    requires RecordValid(r) && r.payload.MessageRecord? && r.payload.message.value.Assistant?
    ensures
      var h := r.payload.message;
      && Lookup(Members(r), MODEL) == (if h.model.Some? then Some(String(h.model.value)) else None)
      && Lookup(Members(r), TOOL_CALLS)
         == (if h.value.calls == [] then None else Some(Array(CallValues(h.value.calls))))
      && |Members(r)| == 7 + (if h.source.Normal? then 1 else 0) + (if h.value.calls == [] then 0 else 1)
  {
    hide Lookup, CallValues, Members, HeaderMembers;
    KeyFacts();
    HeaderNames(r);
    var h := r.payload.message;
    if h.model.Some? { PayloadRead(r, 3); } else { NotRead(r, MODEL); }
    if h.value.calls == [] { NotRead(r, TOOL_CALLS); } else { PayloadRead(r, 3 + |ModelMembers(h.model)|); }
  }

  lemma HeaderNames(r: Record)
    ensures |Members(r)| == 4 + |PayloadMembers(r.payload)|
    ensures
      forall key :: key != VERSION && key != RECORD_ID && key != TURN_ID && key != TYPE ==>
        KeyAbsent(HeaderMembers(r), key)
  {
    hide PayloadMembers;
  }

  lemma AssistantRead(r: Record)
    requires RecordValid(r) && r.payload.MessageRecord? && r.payload.message.value.Assistant?
    ensures
      var h := r.payload.message;
      DecodedAssistant(Members(r), h.value.content, h.source) == if RepairWithCalls(r) then None else Some(h)
  {
    AssistantFields(r);
    CallsRead(r.payload.message.value.calls);
    hide Members, Lookup, CallValues, DecodedCalls;
  }

  /** What the fields of a tool result read back as. */
  lemma ToolFields(r: Record)
    requires RecordValid(r) && r.payload.MessageRecord? && r.payload.message.value.ToolResult?
    ensures
      var h := r.payload.message;
      && TextField(Members(r), TOOL_CALL_ID) == Some(h.value.toolCallId)
      && TextField(Members(r), TOOL_OUTCOME) == Some(OutcomeName(h.outcome))
      && Lookup(Members(r), RAW_OUTPUT)
         == (if h.raw.Some? then Some(String(Base64.Encoded(h.raw.value))) else None)
      && |Members(r)| == 9 + (if h.raw.Some? then 1 else 0)
  {
    KeyFacts();
    HeaderNames(r);
    hide Lookup, Members, HeaderMembers, Ascii, OutcomeName, Base64.Encoded;
    var h := r.payload.message;
    PayloadRead(r, 3);
    PayloadRead(r, 4);
    if h.raw.Some? { PayloadRead(r, 5); } else { NotRead(r, RAW_OUTPUT); }
  }

  lemma ToolRead(r: Record)
    requires RecordValid(r) && r.payload.MessageRecord? && r.payload.message.value.ToolResult?
    ensures
      var h := r.payload.message;
      DecodedTool(Members(r), h.value.content, h.source) == Some(h)
  {
    var h := r.payload.message;
    ToolFields(r);
    NamesRead(h.source, h.outcome, Consumed, ModelSetting);
    if h.raw.Some? { Base64.CanonicalBothWays(Base64.Encoded(h.raw.value), h.raw.value); }
    hide OutcomeNamed, OutcomeName, Ascii, Lookup, Members, Base64.Encoded, Base64.Decoded;
  }

  lemma MessageRead(r: Record)
    requires RecordValid(r) && r.payload.MessageRecord?
    ensures DecodedMessage(Members(r)) == if RepairWithCalls(r) then None else Some(r.payload.message)
  {
    var h := r.payload.message;
    MessageHead(r);
    RoleFacts();
    NamesRead(h.source, h.outcome, Consumed, ModelSetting);
    match h.value
    case User(_) =>
    case Assistant(_, _) =>
      AssistantRead(r);
    case ToolResult(_, _) =>
      ToolRead(r);
  }

  lemma PlainRead(r: Record)
    requires RecordValid(r) && (r.payload.ToolStarted? || r.payload.PartialAssistant? || r.payload.QueuedInput?)
    ensures DecodedPayload(Members(r), KindName(r.payload), r.recordId, r.turnId) == Some(r)
  {
    hide Lookup;
    KindFacts();
    PayloadRead(r, 0);
    if r.payload.PartialAssistant? { PayloadRead(r, 1); }
  }

  /** A transition whose id may or may not follow its count. */
  predicate IsTransition(r: Record) {
    r.payload.Transition? && r.version == SCHEMA_VERSION && r.turnId == 0 && r.recordId > 0
  }

  /** Any transition is read back: its payload is not asked whether the id follows the count. */
  lemma TransitionRead(r: Record)
    requires IsTransition(r)
    ensures DecodedPayload(Members(r), KindName(r.payload), r.recordId, r.turnId) == Some(r)
  {
    hide Lookup;
    KindFacts();
    PayloadRead(r, 0);
    Decimal.DecimalRoundTrip(r.payload.legacyRecordCount, []);
  }

  lemma ResolutionRead(r: Record)
    requires RecordValid(r) && r.payload.QueueResolved?
    ensures DecodedPayload(Members(r), KindName(r.payload), r.recordId, r.turnId) == Some(r)
  {
    hide Lookup;
    KindFacts();
    PayloadRead(r, 0);
    PayloadRead(r, 1);
    Decimal.DecimalRoundTrip(r.payload.queuedRecordId, []);
    NamesRead(Normal, NoOutcome, r.payload.resolution, ModelSetting);
  }

  lemma CheckpointRead(r: Record)
    requires RecordValid(r) && r.payload.Checkpoint?
    ensures DecodedPayload(Members(r), KindName(r.payload), r.recordId, r.turnId) == Some(r)
  {
    hide Lookup;
    KindFacts();
    PayloadRead(r, 0);
    PayloadRead(r, 1);
    PayloadRead(r, 2);
    PayloadRead(r, 3);
    Decimal.DecimalRoundTrip(r.payload.sourceFirst, []);
    Decimal.DecimalRoundTrip(r.payload.sourceLast, []);
  }

  lemma SettingRead(r: Record)
    requires RecordValid(r) && r.payload.SessionSetting?
    ensures DecodedPayload(Members(r), KindName(r.payload), r.recordId, r.turnId) == Some(r)
  {
    hide Lookup;
    KindFacts();
    PayloadRead(r, 0);
    PayloadRead(r, 1);
    NamesRead(Normal, NoOutcome, Consumed, r.payload.field);
  }

  lemma PayloadReadBack(r: Record)
    requires RecordValid(r)
    ensures
      DecodedPayload(Members(r), KindName(r.payload), r.recordId, r.turnId)
      == if RepairWithCalls(r) then None else Some(r)
  {
    match r.payload
    case Transition(_) => TransitionRead(r);
    case MessageRecord(_) =>
      KindFacts();
      MessageRead(r);
    case QueueResolved(_, _) => ResolutionRead(r);
    case Checkpoint(_, _, _, _) => CheckpointRead(r);
    case SessionSetting(_, _) => SettingRead(r);
    case _ => PlainRead(r);
  }

  // ----- the text -----

  /** A value nested at most `depth` deep whose numbers the parser can hold. */
  predicate Fits(v: Value, depth: nat) {
    NumbersFit(v) && Depth(v) <= depth
  }

  predicate AllFit(members: seq<Member>, depth: nat) {
    forall i :: 0 <= i < |members| ==> Fits(members[i].value, depth)
  }

  lemma {:induction false} ObjectFits(members: seq<Member>, depth: nat)
    requires AllFit(members, depth)
    ensures MembersFit(members) && MembersDepth(members) <= depth && Fits(Object(members), depth + 1)
  {
    if members != [] {
      assert Fits(members[0].value, depth);
      ObjectFits(members[1..], depth);
    }
  }

  lemma {:induction false} ArrayFits(items: seq<Value>, depth: nat)
    requires forall i :: 0 <= i < |items| ==> Fits(items[i], depth)
    ensures ItemsFit(items) && ItemsDepth(items) <= depth && Fits(Array(items), depth + 1)
  {
    if items != [] {
      assert Fits(items[0], depth);
      ArrayFits(items[1..], depth);
    }
  }

  lemma TextFits(key: bytes, text: bytes, depth: nat)
    ensures Fits(TextMember(key, text).value, depth)
  {
  }

  lemma {:induction false} CallsFit(calls: seq<ToolCall>)
    ensures forall i :: 0 <= i < |CallValues(calls)| ==> Fits(CallValues(calls)[i], 1)
  {
    if calls != [] {
      CallsFit(calls[..|calls| - 1]);
      var call := calls[|calls| - 1];
      TextFits(ID, call.id, 0);
      TextFits(NAME, call.name, 0);
      TextFits(ARGUMENTS, call.arguments, 0);
      hide Fits;
      ObjectFits(CallMembers(call), 0);
    }
  }

  lemma HeaderFits(r: Record)
    ensures AllFit(HeaderMembers(r), 2)
  {
  }

  lemma MessageFits(h: HistoryMessage)
    ensures AllFit(MessageMembers(h), 2)
  {
    if h.value.Assistant? {
      CallsFit(h.value.calls);
      ArrayFits(CallValues(h.value.calls), 1);
    }
  }

  lemma PayloadFits(payload: Payload)
    ensures AllFit(PayloadMembers(payload), 2)
  {
    if payload.MessageRecord? { MessageFits(payload.message); }
  }

  /** A record's tree nests at most three deep, and its one number is the version. */
  lemma TreeFits(r: Record)
    ensures NumbersFit(RecordTree(r)) && Depth(RecordTree(r)) <= 3
  {
    HeaderFits(r);
    PayloadFits(r.payload);
    hide PayloadMembers, HeaderMembers;
    ObjectFits(Members(r), 2);
  }

  lemma ObjectTextStarts(members: seq<Member>)
    ensures Text(Object(members)) != [] && Text(Object(members))[0] == OPEN_BRACE
  {
  }

  // ----- the arena -----

  predicate AllWide(members: seq<Member>) {
    forall i :: 0 <= i < |members| ==> JsonArena.Wide(members[i].value)
  }

  lemma {:induction false} ObjectWide(members: seq<Member>)
    requires AllWide(members)
    ensures JsonArena.MembersWide(members)
  {
    if members != [] {
      assert JsonArena.Wide(members[0].value);
      ObjectWide(members[1..]);
    }
  }

  lemma {:induction false} StringsWide(members: seq<Member>, first: bool)
    requires forall i :: 0 <= i < |members| ==> members[i].value.String?
    ensures JsonArena.MembersWide(members) && |MembersText(members, first)| >= 5 * |members|
    decreases |members|
  {
    if members != [] {
      assert members[0].value.String?;
      StringsWide(members[1..], false);
      hide Escape;
    }
  }

  lemma {:induction false} ItemsWideSnoc(items: seq<Value>, v: Value)
    requires JsonArena.ItemsWide(items) && JsonArena.Wide(v) && |Text(v)| >= 2 * JsonArena.SLOT_WIDTH
    ensures JsonArena.ItemsWide(items + [v])
    decreases |items|
  {
    hide Text, JsonArena.Wide;
    var all := items + [v];
    if items == [] {
      assert all[1..] == [];
    } else {
      ItemsWideSnoc(items[1..], v);
      assert all[0] == items[0] && all[1..] == items[1..] + [v];
    }
  }

  lemma {:induction false} CallsWide(calls: seq<ToolCall>)
    ensures JsonArena.ItemsWide(CallValues(calls))
    decreases |calls|
  {
    if calls != [] {
      CallsWide(calls[..|calls| - 1]);
      var members := CallMembers(calls[|calls| - 1]);
      StringsWide(members, true);
      assert |Text(Object(members))| == |MembersText(members, true)| + 2;
      hide Text, MembersText, CallMembers;
      ItemsWideSnoc(CallValues(calls[..|calls| - 1]), Object(members));
    }
  }

  lemma RecordWide(r: Record)
    ensures JsonArena.Wide(RecordTree(r))
  {
    var payload := PayloadMembers(r.payload);
    if r.payload.MessageRecord? && r.payload.message.value.Assistant? {
      CallsWide(r.payload.message.value.calls);
    }
    hide CallValues;
    assert AllWide(HeaderMembers(r)) && AllWide(payload);
    hide PayloadMembers, HeaderMembers;
    ObjectWide(HeaderMembers(r) + payload);
  }

  /** The text of a record parses back to its tree, so reading it is reading its payload. */
  lemma TextRead(r: Record)
    requires |Text(RecordTree(r))| <= MAX_RECORD
    ensures Decoded(Text(RecordTree(r))) == DecodedPayload(Members(r), KindName(r.payload), r.recordId, r.turnId)
  {
    hide DecodedPayload, PayloadMembers, HeaderMembers, KindName, Text, VersionIsOne;
    TreeFits(r);
    JsonRoundTrip.ParseUndoesWrite(RecordTree(r));
    JsonWriter.DocumentText(RecordTree(r));
    ObjectTextStarts(Members(r));
    HeaderRead(r);
    RecordWide(r);
    hide JsonArena.Wide;
    JsonArena.TextAllocates(RecordTree(r), MAX_RECORD);
  }

  /**
   * Every valid record within the size limit is read back as it was written, except a repaired assistant
   * message with tool calls, which is written but refused.
   */
  lemma RecordRoundTrip(r: Record)
    requires Encoded(r).Some?
    ensures Decoded(Encoded(r).value) == if RepairWithCalls(r) then None else Some(r)
  {
    hide RecordValid, RepairWithCalls, DecodedPayload, RecordTree, Decoded;
    TextRead(r);
    PayloadReadBack(r);
  }

  /** What a caller can look up in the parsed line: a transition's id follows its count. */
  predicate IdFollowsCount(members: seq<Member>) {
    TextField(members, TYPE) == Some(Ascii("transition")) ==>
      match (U64Field(members, RECORD_ID), U64Field(members, LEGACY_COUNT))
      case (Some(id), Some(count)) => id as int == count as int + 1
      case _ => false
  }

  /**
   * What is decoded from a tree is valid exactly when the tree's type is not `transition` or its id follows its
   * count; and it is never one of the records decode refuses.
   */
  lemma TreeShape(v: Value)
    requires DecodedTree(v).Some?
    ensures
      var r := DecodedTree(v).value;
      r.recordId > 0 && (RecordValid(r) <==> IdFollowsCount(v.members)) && !RepairWithCalls(r)
  {
    hide VersionIsOne;
    var kind := TextField(v.members, TYPE).value;
    PayloadShape(v.members, kind, U64Field(v.members, RECORD_ID).value, U64Field(v.members, TURN_ID).value);
  }

  /** So of a line decode accepts: the condition is on the members the parser finds in it. */
  lemma DecodedShape(json: bytes)
    requires Decoded(json).Some?
    ensures
      var r, root := Decoded(json).value, JsonParser.Parse(json);
      && r.recordId > 0
      && root.Some? && root.value.Object? && (RecordValid(r) <==> IdFollowsCount(root.value.members))
      && !RepairWithCalls(r)
  {
    hide JsonParser.Parse;
    TreeShape(JsonParser.Parse(json).value);
  }

  lemma PayloadShape(members: seq<Member>, kind: bytes, recordId: u64, turnId: u64)
    requires DecodedPayload(members, kind, recordId, turnId).Some?
    ensures
      var r := DecodedPayload(members, kind, recordId, turnId).value;
      && r.recordId == recordId > 0
      && (r.payload.Transition? <==> kind == Ascii("transition"))
      && (r.payload.Transition? ==> U64Field(members, LEGACY_COUNT) == Some(r.payload.legacyRecordCount))
      && (RecordValid(r) <==> (r.payload.Transition? ==> r.recordId == r.payload.legacyRecordCount + 1))
      && !RepairWithCalls(r)
  {
    hide Lookup, DecodedMessage, HistoryMessageValid;
    if DecodedMessage(members).Some? { MessageShape(members); }
  }

  lemma MessageShape(members: seq<Member>)
    requires DecodedMessage(members).Some?
    ensures
      var h := DecodedMessage(members).value;
      h.source.Repair? && h.value.Assistant? ==> h.value.calls == []
  {
    hide Lookup, DecodedRaw;
  }

  /** Whatever text a valid record was read from, writing it again and reading that gives the same record. */
  lemma DecodedRoundTrip(json: bytes)
    requires Decoded(json).Some? && Encoded(Decoded(json).value).Some?
    ensures Decoded(Encoded(Decoded(json).value).value) == Decoded(json)
  {
    DecodedShape(json);
    RecordRoundTrip(Decoded(json).value);
  }

  // ----- a record that is written but refused -----

  const REFUSED: Record := MakeRecord(1, 1, MessageRecord(HistoryMessage(
    Assistant([], [ToolCall([0x61], [0x62], [0x63])]), Repair, NoOutcome, None, None)))

  lemma {:induction false} EscapeBound(s: bytes)
    ensures |Escape(s)| <= 6 * |s|
  {
    if s != [] { EscapeBound(s[1..]); }
  }

  lemma {:induction false} MembersBound(members: seq<Member>, first: bool, bound: nat, total: nat)
    requires forall i :: 0 <= i < |members| ==> |members[i].key| <= 19 && |Text(members[i].value)| <= bound
    requires |members| <= 8 && total == |members| * (bound + 118)
    ensures |MembersText(members, first)| <= total
  {
    if members != [] {
      var text := Text(members[0].value);
      assert |members[0].key| <= 19 && |text| <= bound;
      EscapeBound(members[0].key);
      MembersBound(members[1..], false, bound, total - (bound + 118));
      MembersTextHead(members, first);
    }
  }

  lemma MembersTextHead(members: seq<Member>, first: bool)
    requires members != []
    ensures
      |MembersText(members, first)|
      <= |Escape(members[0].key)| + 4 + |Text(members[0].value)| + |MembersText(members[1..], false)|
  {
    hide Escape, Text;
  }

  lemma TextBound(s: bytes, n: nat)
    requires |s| <= n
    ensures |Text(String(s))| <= 6 * n + 2
  {
    EscapeBound(s);
  }

  lemma RefusedCall()
    ensures |Text(Array(CallValues(REFUSED.payload.message.value.calls)))| <= 600
  {
    KeyFacts();
    var calls := REFUSED.payload.message.value.calls;
    var call := CallMembers(calls[0]);
    TextBound([0x61], 1);
    TextBound([0x62], 1);
    TextBound([0x63], 1);
    MembersBound(call, true, 8, 378);
    ObjectTextLength(call);
    hide Text;
    assert calls[..0] == [] && CallValues([]) == [];
    assert CallValues(calls) == [Object(call)];
    OneItemText(Object(call));
  }

  lemma OneItemText(v: Value)
    ensures |Text(Array([v]))| == |Text(v)| + 2
  {
    assert [v][1..] == [] && ItemsText([v][1..], false) == [];
  }

  predicate Short(m: Member) {
    |m.key| <= 19 && |Text(m.value)| <= 600
  }

  lemma ShortText(key: bytes, text: bytes)
    requires |key| <= 19 && |text| <= 20
    ensures Short(TextMember(key, text))
  {
    TextBound(text, 20);
  }

  lemma RefusedHeader(i: nat)
    requires i < 4
    ensures Short(HeaderMembers(REFUSED)[i])
  {
    KeyFacts();
    KindFacts();
    if i == 0 {
      assert Text(Number(ONE)) == ONE;
    } else {
      assert Decimal.Digits(1) == [0x31];
      hide Short;
      ShortText(RECORD_ID, Decimal.Digits(1));
      ShortText(TURN_ID, Decimal.Digits(1));
      ShortText(TYPE, Ascii("message"));
    }
  }

  function RefusedMembers(): (members: seq<Member>) {
    [TextMember(ROLE, Ascii("assistant")), TextMember(CONTENT, []), TextMember(SOURCE, Ascii("repair")),
     Member(TOOL_CALLS, Array(CallValues(REFUSED.payload.message.value.calls)))]
  }

  lemma RefusedMembersAre()
    ensures PayloadMembers(REFUSED.payload) == RefusedMembers()
  {
    hide Ascii, TextMember, CallValues;
  }

  lemma RefusedTexts()
    ensures Short(TextMember(ROLE, Ascii("assistant"))) && Short(TextMember(SOURCE, Ascii("repair")))
    ensures Short(TextMember(CONTENT, []))
  {
    KeyFacts();
    assert |Ascii("assistant")| == 9 && |Ascii("repair")| == 6;
    hide Short, TextMember, Ascii;
    ShortText(ROLE, Ascii("assistant"));
    ShortText(CONTENT, []);
    ShortText(SOURCE, Ascii("repair"));
  }

  lemma RefusedCalls()
    ensures Short(Member(TOOL_CALLS, Array(CallValues(REFUSED.payload.message.value.calls))))
  {
    KeyFacts();
    RefusedCall();
    hide Text, CallValues, Ascii;
  }

  lemma RefusedPayload(i: nat)
    requires i < 4
    ensures |PayloadMembers(REFUSED.payload)| == 4 && Short(PayloadMembers(REFUSED.payload)[i])
  {
    RefusedMembersAre();
    RefusedTexts();
    RefusedCalls();
    hide Short, PayloadMembers, TextMember, CallValues, Ascii;
  }

  lemma RefusedFits()
    ensures |Text(RecordTree(REFUSED))| <= MAX_RECORD
  {
    hide PayloadMembers, HeaderMembers, Text, MembersText;
    RefusedPayload(0);
    HeaderNames(REFUSED);
    var members := Members(REFUSED);
    forall i | 0 <= i < |members| ensures Short(members[i]) {
      if i < 4 { RefusedHeader(i); } else { RefusedPayload(i - 4); }
      assert members[i] == if i < 4 then HeaderMembers(REFUSED)[i] else PayloadMembers(REFUSED.payload)[i - 4];
    }
    MembersBound(members, true, 600, 5744);
    ObjectTextLength(members);
  }

  lemma ObjectTextLength(members: seq<Member>)
    ensures |Text(Object(members))| == |MembersText(members, true)| + 2
  {
  }

  /** A concrete valid record that the codec writes and then refuses to read. */
  lemma RefusedRecord()
    ensures RecordValid(REFUSED) && Encoded(REFUSED).Some?
    ensures Decoded(Encoded(REFUSED).value) == None
  {
    RefusedFits();
    assert RecordValid(REFUSED) && RepairWithCalls(REFUSED);
    hide RecordTree, RecordValid, RepairWithCalls, Decoded;
    RecordRoundTrip(REFUSED);
  }

  // ----- a record that is read though it is invalid -----

  lemma CounterShort(key: bytes, n: u64)
    requires |key| <= 19
    ensures Short(U64Member(key, n))
  {
    Decimal.TwentyDigits();
    Decimal.DigitsShape(n, 20);
    ShortText(key, Decimal.Digits(n));
  }

  lemma TypeShort()
    ensures Short(TextMember(TYPE, Ascii("transition")))
  {
    assert |Ascii("transition")| == 10;
    ShortText(TYPE, Ascii("transition"));
  }

  lemma TransitionMember(r: Record, i: nat)
    requires IsTransition(r) && i < 5
    ensures |Members(r)| == 5 && Short(Members(r)[i])
  {
    KeyFacts();
    VersionShort();
    TypeShort();
    hide Short, Ascii, U64Member, TextMember;
    CounterShort(RECORD_ID, r.recordId);
    CounterShort(TURN_ID, r.turnId);
    CounterShort(LEGACY_COUNT, r.payload.legacyRecordCount);
  }

  lemma VersionShort()
    ensures Short(Member(VERSION, Number(ONE)))
  {
    KeyFacts();
    assert Text(Number(ONE)) == ONE;
  }

  lemma TransitionTextFits(r: Record)
    requires IsTransition(r)
    ensures |Text(RecordTree(r))| <= MAX_RECORD
  {
    hide PayloadMembers, HeaderMembers, Text, MembersText, Short;
    var members := Members(r);
    TransitionMember(r, 0);
    forall i | 0 <= i < 5 ensures |members[i].key| <= 19 && |Text(members[i].value)| <= 600 {
      TransitionMember(r, i);
      ShortMeans(members[i]);
    }
    MembersBound(members, true, 600, 3590);
    ObjectTextLength(members);
  }

  lemma ShortMeans(m: Member)
    requires Short(m)
    ensures |m.key| <= 19 && |Text(m.value)| <= 600
  {
  }

  /** Every transition with a positive id is read back from its text, valid or not. */
  lemma TransitionDecodes(r: Record)
    requires IsTransition(r)
    ensures Decoded(Text(RecordTree(r))) == Some(r)
  {
    hide DecodedPayload, RecordTree, Decoded, Members;
    TransitionTextFits(r);
    TextRead(r);
    TransitionRead(r);
  }

  const INVALID: Record := MakeRecord(7, 0, Transition(3))

  /** A concrete line that is read as an invalid record: id 7 does not follow count 3. */
  lemma InvalidDecodes()
    ensures !RecordValid(INVALID) && Decoded(Text(RecordTree(INVALID))) == Some(INVALID)
  {
    TransitionDecodes(INVALID);
  }
}
