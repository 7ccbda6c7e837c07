/** The strict acceptor of src/cli_history_replay.c, one function per apply step. */
module Replay {
  import opened Basics
  import opened Messages
  import opened History
  import JsonArena

  datatype Phase = ExpectUser | ExpectAssistant | ExpectToolResults

  datatype Tool = Tool(call: ToolCall, started: bool, resolved: bool)

  datatype ContextItem = ContextItem(recordId: u64, message: Message)

  /** The one queued input: its text, the record that queued it and the turn it is meant for. */
  datatype Pending = Pending(content: bytes, recordId: u64, turnId: u64)

  datatype Range = Range(first: u64, last: u64)

  /** The state between two records. */
  datatype Builder = Builder(
    phase: Phase,
    context: seq<ContextItem>,
    pending: Option<Pending>,
    queueConsumed: bool,
    currentTurn: u64,
    lastStarted: u64,
    tools: seq<Tool>,
    partialSeen: bool,
    lastModel: Option<bytes>,
    lastCwd: Option<bytes>,
    checkpoint: Option<Range>)

  const EMPTY: Builder := Builder(ExpectUser, [], None, false, 0, 0, [], false, None, None, None)

  /** The block size of the arena the arguments are checked in. */
  const ARGUMENTS_ARENA: nat := MAX_CONTENT + 1

  /** `validate_arguments`. */
  function CallStatus(call: ToolCall): (status: Status) {
    if HasNul(call.id) || HasNul(call.name) then PARSE
    else JsonArena.ArgumentsStatus(call.arguments, ARGUMENTS_ARENA)
  }

  predicate ArgumentsValid(call: ToolCall) {
    CallStatus(call) == OK
  }

  predicate DistinctIds(calls: seq<ToolCall>) {
    forall i, j :: 0 <= i < j < |calls| ==> calls[i].id != calls[j].id
  }

  /** What replay demands of an assistant message's tool calls. */
  predicate CallsAcceptable(calls: seq<ToolCall>) {
    && (forall i :: 0 <= i < |calls| ==> ArgumentsValid(calls[i]))
    && DistinctIds(calls)
  }

  /** What `begin_tool_results` answers: the first bad call's status, a repeated id being a parse error. */
  function CallsStatus(calls: seq<ToolCall>): (status: Status)
    ensures status == OK <==> CallsAcceptable(calls)
  {
    if calls == [] then OK
    else
      var prior, last := calls[..|calls| - 1], calls[|calls| - 1];
      assert calls == prior + [last];
      var before := CallsStatus(prior);
      if before != OK then before
      else if CallStatus(last) != OK then CallStatus(last)
      else if exists i :: 0 <= i < |prior| && prior[i].id == last.id then PARSE
      else OK
  }

  function NewTools(calls: seq<ToolCall>): (result: seq<Tool>) {
    seq(|calls|, i requires 0 <= i < |calls| => Tool(calls[i], false, false))
  }

  function AppendContext(b: Builder, recordId: u64, m: Message): (next: Builder) {
    b.(context := b.context + [ContextItem(recordId, m)])
  }

  /** The first tool with this id, or the number of tools. */
  function FindTool(tools: seq<Tool>, id: bytes): (n: nat) {
    if tools == [] || tools[0].call.id == id then 0 else 1 + FindTool(tools[1..], id)
  }

  predicate AllResolved(tools: seq<Tool>) {
    forall i :: 0 <= i < |tools| ==> tools[i].resolved
  }

  /** A queue waiting to deliver accepts only its own text, for its own turn. */
  predicate DeliversQueue(b: Builder, r: Record, m: Message) {
    b.pending.Some? && r.turnId == b.pending.value.turnId && m.content == b.pending.value.content
  }

  function ApplyUser(b: Builder, r: Record, m: Message): (next: Option<Builder>) {
    if !b.phase.ExpectUser? || r.turnId != b.lastStarted + 1 then None
    else if b.queueConsumed && !DeliversQueue(b, r, m) then None
    else
      var delivered := if b.queueConsumed then b.(pending := None, queueConsumed := false) else b;
      Some(AppendContext(delivered, r.recordId, m).(
             lastStarted := r.turnId, currentTurn := r.turnId, phase := ExpectAssistant, partialSeen := false))
  }

  function ApplyAssistant(b: Builder, r: Record, h: HistoryMessage): (next: Option<Builder>)
    requires h.value.Assistant?
  {
    if !b.phase.ExpectAssistant? || r.turnId != b.currentTurn then None
    else if h.model.Some? && HasNul(h.model.value) then None
    else if b.partialSeen && !h.source.Repair? then None
    else
      var said := AppendContext(b, r.recordId, h.value).(partialSeen := false);
      if h.value.calls == [] then Some(said.(tools := [], phase := ExpectUser, currentTurn := 0))
      else if !CallsAcceptable(h.value.calls) then None
      else Some(said.(tools := NewTools(h.value.calls), phase := ExpectToolResults))
  }

  /** Completed and unknown results need a started tool, NOT_EXECUTED one that never started. */
  predicate OutcomeFits(outcome: Outcome, started: bool) {
    match outcome
    case Completed => started
    case OutcomeUnknown => started
    case NotExecuted => !started
    case NoOutcome => true
  }

  function ApplyTool(b: Builder, r: Record, h: HistoryMessage): (next: Option<Builder>)
    requires h.value.ToolResult?
  {
    if !b.phase.ExpectToolResults? || r.turnId != b.currentTurn || HasNul(h.value.toolCallId) then None
    else
      var i := FindTool(b.tools, h.value.toolCallId);
      if i >= |b.tools| || b.tools[i].resolved || !OutcomeFits(h.outcome, b.tools[i].started) then None
      else
        var resolved := b.tools[i := b.tools[i].(resolved := true)];
        var said := AppendContext(b, r.recordId, h.value);
        Some(if AllResolved(resolved) then said.(tools := [], phase := ExpectAssistant)
             else said.(tools := resolved))
  }

  function ApplyToolStarted(b: Builder, r: Record, id: bytes): (next: Option<Builder>) {
    if !b.phase.ExpectToolResults? || r.turnId != b.currentTurn || HasNul(id) then None
    else
      var i := FindTool(b.tools, id);
      if i >= |b.tools| || b.tools[i].started || b.tools[i].resolved then None
      else Some(b.(tools := b.tools[i := b.tools[i].(started := true)]))
  }

  function ApplyPartial(b: Builder, r: Record, model: bytes): (next: Option<Builder>) {
    if !b.phase.ExpectAssistant? || r.turnId != b.currentTurn || b.partialSeen || HasNul(model) then None
    else Some(b.(partialSeen := true))
  }

  function ApplyQueued(b: Builder, r: Record, content: bytes): (next: Option<Builder>) {
    if b.phase.ExpectUser? || b.pending.Some? || b.queueConsumed || r.turnId != b.lastStarted + 1 then None
    else Some(b.(pending := Some(Pending(content, r.recordId, r.turnId))))
  }

  function ApplyQueueResolved(b: Builder, r: Record, queued: u64, resolution: Resolution): (next: Option<Builder>) {
    if !b.phase.ExpectUser? || b.pending.None? || r.turnId != b.pending.value.turnId
       || queued != b.pending.value.recordId
    then None
    else if resolution.Discarded? then Some(b.(pending := None, queueConsumed := false))
    else if b.queueConsumed then None
    else Some(b.(queueConsumed := true))
  }

  /** How many items from the front have an id up to `last`; None if one of them is below `first`. */
  function RemoveCount(context: seq<ContextItem>, range: Range): (found: Option<nat>) {
    if context == [] || context[0].recordId > range.last then Some(0)
    else if context[0].recordId < range.first then None
    else
      match RemoveCount(context[1..], range)
      case None => None
      case Some(n) => Some(n + 1)
  }

  function ApplyCheckpoint(b: Builder, r: Record): (next: Option<Builder>)
    requires r.payload.Checkpoint?
  {
    var Checkpoint(summary, model, first, last) := r.payload;
    if !b.phase.ExpectUser? || b.pending.Some? || b.queueConsumed || b.context == [] || HasNul(model) then None
    else if first > b.context[0].recordId || last < b.context[0].recordId then None
    else
      match RemoveCount(b.context, Range(first, last))
      case None => None
      case Some(n) =>
        if n == 0 || n > |b.context| then None
        else
          Some(b.(context := [ContextItem(r.recordId, Assistant(summary, []))] + b.context[n..],
                  checkpoint := Some(Range(first, last))))
  }

  function ApplySetting(b: Builder, field: SettingField, value: bytes): (next: Option<Builder>) {
    if !b.phase.ExpectUser? || b.pending.Some? || b.queueConsumed || HasNul(value) then None
    else Some(if field.ModelSetting? then b.(lastModel := Some(value)) else b.(lastCwd := Some(value)))
  }

  /** The only records that may follow a CONSUMED resolution. */
  predicate MayFollowConsumed(payload: Payload) {
    || (payload.MessageRecord? && payload.message.value.User?)
    || (payload.QueueResolved? && payload.resolution.Discarded?)
  }

  /** One typed record after the transition; None is OI_ERR_PARSE. */
  function Step(b: Builder, r: Record): (next: Option<Builder>) {
    if b.queueConsumed && !MayFollowConsumed(r.payload) then None
    else
      match r.payload
      case Transition(_) => None
      case MessageRecord(h) =>
        (match h.value
         case User(_) => ApplyUser(b, r, h.value)
         case Assistant(_, _) => ApplyAssistant(b, r, h)
         case ToolResult(_, _) => ApplyTool(b, r, h))
      case ToolStarted(id) => ApplyToolStarted(b, r, id)
      case PartialAssistant(_, model) => ApplyPartial(b, r, model)
      case QueuedInput(content) => ApplyQueued(b, r, content)
      case QueueResolved(queued, resolution) => ApplyQueueResolved(b, r, queued, resolution)
      case Checkpoint(_, _, _, _) => ApplyCheckpoint(b, r)
      case SessionSetting(field, value) => ApplySetting(b, field, value)
  }

  /** An assistant message gets as far as its calls. */
  predicate ReplyFits(b: Builder, r: Record, h: HistoryMessage) {
    && b.phase.ExpectAssistant? && r.turnId == b.currentTurn
    && !(h.model.Some? && HasNul(h.model.value))
    && (b.partialSeen ==> h.source.Repair?)
  }

  /** The status of `apply_assistant_message`: everything but a bad call is a parse error. */
  function AssistantStatus(b: Builder, r: Record, h: HistoryMessage): (status: Status)
    requires h.value.Assistant?
    ensures status == OK <==> ApplyAssistant(b, r, h).Some?
  {
    if ReplyFits(b, r, h) then CallsStatus(h.value.calls) else PARSE
  }

  /** The status of `apply_typed_record`. */
  function StepStatus(b: Builder, r: Record): (status: Status)
    ensures status == OK <==> Step(b, r).Some?
  {
    if r.payload.MessageRecord? && r.payload.message.value.Assistant? && !b.queueConsumed then
      AssistantStatus(b, r, r.payload.message)
    else if Step(b, r).Some? then OK
    else PARSE
  }

  /** Untyped messages of an old log alternate user and assistant, starting with the user. */
  predicate LegacyValid(legacy: seq<Message>) {
    && |legacy| <= U64_MAX
    && forall i :: 0 <= i < |legacy| ==>
         && MessageValid(legacy[i])
         && (if i % 2 == 0 then legacy[i].User? else legacy[i].Assistant? && legacy[i].calls == [])
  }

  function LegacyContext(legacy: seq<Message>): (result: seq<ContextItem>)
    requires |legacy| <= U64_MAX
  {
    seq(|legacy|, i requires 0 <= i < |legacy| => ContextItem(i + 1, legacy[i]))
  }

  function ApplyLegacy(legacy: seq<Message>): (next: Option<Builder>) {
    if !LegacyValid(legacy) then None
    else
      var turns := (|legacy| + 1) / 2;
      var open := |legacy| % 2 != 0;
      Some(EMPTY.(context := LegacyContext(legacy), lastStarted := turns,
                  phase := if open then ExpectAssistant else ExpectUser,
                  currentTurn := if open then turns else 0))
  }

  predicate TransitionFits(legacy: seq<Message>, r: Record) {
    RecordValid(r) && r.payload.Transition? && r.payload.legacyRecordCount == |legacy|
  }

  /** The state after every record; None once one is refused. */
  function Fold(legacy: seq<Message>, typed: seq<Record>): (next: Option<Builder>) {
    if typed == [] then ApplyLegacy(legacy)
    else if |typed| == 1 then (if TransitionFits(legacy, typed[0]) then ApplyLegacy(legacy) else None)
    else
      var last, prior := typed[|typed| - 1], typed[..|typed| - 1];
      match Fold(legacy, prior)
      case None => None
      case Some(b) =>
        if RecordValid(last) && last.recordId == prior[|prior| - 1].recordId + 1 then Step(b, last) else None
  }

  /** The status of the record loop: that of the first record refused. */
  function FoldStatus(legacy: seq<Message>, typed: seq<Record>): (status: Status)
    ensures status == OK <==> Fold(legacy, typed).Some?
  {
    hide Step, StepStatus, RecordValid, ApplyLegacy, TransitionFits;
    if |typed| <= 1 then (if Fold(legacy, typed).Some? then OK else PARSE)
    else
      var last, prior := typed[|typed| - 1], typed[..|typed| - 1];
      var before := FoldStatus(legacy, prior);
      if before != OK then before
      else if RecordValid(last) && last.recordId == prior[|prior| - 1].recordId + 1 then
        StepStatus(Fold(legacy, prior).value, last)
      else PARSE
  }

  function LastRecordId(legacy: seq<Message>, typed: seq<Record>): (n: nat) {
    if typed == [] then |legacy| else typed[|typed| - 1].recordId
  }

  datatype Unresolved = Unresolved(toolCallId: bytes, mayHaveStarted: bool)

  /** What replay publishes to the rest of the program. */
  datatype ReplayState = ReplayState(
    context: seq<ContextItem>,
    pending: Option<Pending>,
    unresolved: seq<Unresolved>,
    repairTurnId: u64,
    nextRecordId: u64,
    nextTurnId: u64,
    needsTransition: bool,
    needsRepair: bool,
    hasPartialAssistant: bool,
    lastModel: Option<bytes>,
    lastCwd: Option<bytes>,
    checkpoint: Option<Range>)

  function UnresolvedTools(tools: seq<Tool>): (result: seq<Unresolved>) {
    if tools == [] then []
    else
      (if tools[0].resolved then [] else [Unresolved(tools[0].call.id, tools[0].started)])
      + UnresolvedTools(tools[1..])
  }

  function Publish(b: Builder, lastRecordId: nat, needsTransition: bool): (result: ReplayState)
    requires lastRecordId < U64_MAX && b.lastStarted < U64_MAX
  {
    ReplayState(
      b.context, b.pending, UnresolvedTools(b.tools),
      if b.phase.ExpectUser? then 0 else b.currentTurn,
      lastRecordId + 1, b.lastStarted + 1,
      needsTransition, !b.phase.ExpectUser?, b.partialSeen,
      b.lastModel, b.lastCwd, b.checkpoint)
  }

  /** `oi_cli_history_replay`: the published state, or None for a refused history. */
  function ReplayHistory(legacy: seq<Message>, typed: seq<Record>): (result: Option<ReplayState>) {
    match Fold(legacy, typed)
    case None => None
    case Some(b) =>
      var last := LastRecordId(legacy, typed);
      if last >= U64_MAX || b.lastStarted >= U64_MAX then None
      else Some(Publish(b, last, typed == []))
  }

  /** The status of `oi_cli_history_replay`; ids that have run out are a parse error too. */
  function ReplayStatus(legacy: seq<Message>, typed: seq<Record>): (status: Status)
    ensures status == OK <==> ReplayHistory(legacy, typed).Some?
  {
    if FoldStatus(legacy, typed) != OK then FoldStatus(legacy, typed)
    else if ReplayHistory(legacy, typed).Some? then OK
    else PARSE
  }
}
