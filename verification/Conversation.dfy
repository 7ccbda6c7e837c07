/** The turn machine of src/cli_conversation.c with the persistence of src/cli.c behind its events, on values. */
module Conversation {
  import opened Basics
  import opened Messages
  import opened History
  import opened ReplayLog
  import JsonArena
  import Utf8Stream
  import Decimal

  const CANCELLED_UNKNOWN_TEXT := Ascii("[tool outcome unknown: cancelled while it may have already started]")
  const CANCELLED_NOT_EXECUTED_TEXT := Ascii("[tool not executed: cancelled before it started]")
  const STEERED_NOT_EXECUTED_TEXT := Ascii("[tool not executed: skipped because a new message was queued]")
  const DENIED_TEXT := Ascii("[tool not executed: denied by user]")
  const STEERED_TURN_TEXT := Ascii("[assistant turn ended: a new message was queued]")

  datatype ToolOutcome = ToolNone | ToolCompleted | ToolFailed | ToolDenied | ToolUnknown | ToolNotExecuted

  /** One tool call as it streams in, in fragments. */
  datatype Streamed = Streamed(index: nat, id: bytes, name: bytes, arguments: bytes)

  /** The conversation object. `request`, `tool` and `pendingPermission` say which handle is set. */
  datatype Conv = Conv(
    messages: seq<Message>,
    request: bool,
    tool: bool,
    pendingPermission: bool,
    busy: bool,
    cancelled: bool,
    steering: bool,
    lastStatus: Status,
    modelSteps: nat,
    maxModelSteps: nat,
    assistant: bytes,
    streamed: seq<Streamed>,
    assistantIndex: nat,
    toolIndex: nat,
    toolOutput: bytes,
    assistantCommitted: bool,
    model: bytes)

  /**
   * The persistence context: the log, the turn records are written for, the model partial replies are attributed
   * to, and whether a write failed; beside it the directory the process is in.
   */
  datatype Persist = Persist(log: Log, turnId: u64, model: bytes, failed: bool, cwd: bytes)

  datatype World = World(c: Conv, p: Persist)

  datatype Decision = Allow | Deny | Ask

  /** What else happens while TOOL_STARTING is delivered. */
  datatype Disturbance = Quiet | DisplayFails | CancelsInside

  /** What the outside answers during one callback. */
  datatype Env = Env(
    requestStart: Status,
    toolStart: Status,
    decision: Decision,
    awaitingShown: bool,
    awaitingCancels: bool,
    starting: Disturbance,
    resolve: Status,
    setup: Status,
    responseShown: bool)

  // ----- persistence: `persist_conversation_event` and the queue and checkpoint writers -----

  function HistoryOutcome(outcome: ToolOutcome): (result: Outcome) {
    match outcome
    case ToolCompleted => Completed
    case ToolFailed => Completed
    case ToolDenied => NotExecuted
    case ToolUnknown => OutcomeUnknown
    case ToolNotExecuted => NotExecuted
    case ToolNone => NoOutcome
  }

  function PersistRecord(p: Persist, turnId: u64, payload: Payload): (result: (Persist, Status)) {
    var r := MakeRecord(p.log.nextId, turnId, payload);
    if !RecordValid(r) then (p.(failed := true), INVAL)
    else
      match Append(p.log, r)
      case None => (p.(failed := true), AppendStatus(p.log, r))
      case Some(log) => (p.(log := log), OK)
  }

  function MessagePayload(
    w: World, m: Message, outcome: ToolOutcome, raw: Option<bytes>, isRepair: bool): (payload: Payload)
  {
    var model := if m.Assistant? && !isRepair then Some(w.c.model) else None;
    MessageRecord(HistoryMessage(m, if isRepair then Repair else Normal, HistoryOutcome(outcome), model, raw))
  }

  /** `commit_message`: the message joins the live list only once its record is written. */
  function Commit(
    w: World, m: Message, outcome: ToolOutcome, raw: Option<bytes>, isRepair: bool): (result: (World, Status))
  {
    var (p, status) := PersistRecord(w.p, w.p.turnId, MessagePayload(w, m, outcome, raw, isRepair));
    (World(if status == OK then w.c.(messages := w.c.messages + [m]) else w.c, p), status)
  }

  function NextTurnId(p: Persist): (n: u64) {
    if p.log.b.lastStarted < U64_MAX then p.log.b.lastStarted + 1 else U64_MAX
  }

  /** TURN_DONE moves the persistence context on to the next turn. */
  function FinishTurn(w: World, status: Status): (after: World) {
    if !w.c.busy then w
    else World(w.c.(busy := false, lastStatus := status), w.p.(turnId := NextTurnId(w.p)))
  }

  // ----- repairs of a turn that does not complete normally -----

  function CurrentCalls(c: Conv): (result: seq<ToolCall>) {
    if c.assistantIndex < |c.messages| && c.messages[c.assistantIndex].Assistant?
    then c.messages[c.assistantIndex].calls else []
  }

  /** The placeholder of one call: unknown if it may have started, otherwise not executed. */
  function RepairCall(w: World, call: ToolCall, started: bool): (outcome: (World, Status)) {
    if started then Commit(w, ToolResult(call.id, CANCELLED_UNKNOWN_TEXT), ToolUnknown, Some(w.c.toolOutput), false)
    else Commit(w, ToolResult(call.id, CANCELLED_NOT_EXECUTED_TEXT), ToolNotExecuted, None, false)
  }

  /** The placeholder results of calls `i` onwards; the first failure is reported, the loop goes on. */
  function RepairFrom(w: World, calls: seq<ToolCall>, i: nat, firstStarted: bool): (outcome: (World, Status))
    decreases |calls| - i
  {
    if i >= |calls| then (w, OK)
    else
      var (next, status) := RepairCall(w, calls[i], firstStarted);
      var (last, later) := RepairFrom(next, calls, i + 1, false);
      (last, if status != OK then status else later)
  }

  function RepairDanglingCalls(w: World, firstStarted: bool): (outcome: (World, Status)) {
    var (repaired, status) := RepairFrom(w, CurrentCalls(w.c), w.c.toolIndex, firstStarted);
    (repaired.(c := repaired.c.(toolOutput := [])), status)
  }

  function RepairInterruptedTurn(w: World): (outcome: (World, Status)) {
    Commit(w, Assistant(INTERRUPTED_TURN_TEXT, []), ToolNone, None, true)
  }

  function CloseOutIncompleteTurn(w: World, firstStarted: bool): (outcome: (World, Status)) {
    var (repaired, status) :=
      if w.c.assistantCommitted && w.c.toolIndex < |CurrentCalls(w.c)| then RepairDanglingCalls(w, firstStarted)
      else (w, OK);
    if status == OK then RepairInterruptedTurn(repaired) else (repaired, status)
  }

  function FinishWithRepair(w: World, status: Status, firstStarted: bool): (after: World) {
    var (closed, repair) := CloseOutIncompleteTurn(w, firstStarted);
    FinishTurn(closed, if repair != OK then repair else status)
  }

  function SkipSteeredFrom(w: World, calls: seq<ToolCall>, i: nat): (outcome: (World, Status))
    decreases |calls| - i
  {
    if i >= |calls| then (w, OK)
    else
      var (next, status) :=
        Commit(w, ToolResult(calls[i].id, STEERED_NOT_EXECUTED_TEXT), ToolNotExecuted, None, false);
      var (last, later) := SkipSteeredFrom(next, calls, i + 1);
      (last, if status != OK then status else later)
  }

  function CloseOutSteeredTurn(w: World): (outcome: (World, Status)) {
    Commit(w, Assistant(STEERED_TURN_TEXT, []), ToolNone, None, true)
  }

  function FinishSteered(w: World): (after: World) {
    var (skipped, status) := SkipSteeredFrom(w, CurrentCalls(w.c), w.c.toolIndex);
    var (closed, bookend) := if status == OK then CloseOutSteeredTurn(skipped) else (skipped, status);
    FinishTurn(closed, bookend)
  }

  /** Whatever is in flight is let go; text that streamed in is kept as a partial reply. */
  function Detached(w: World): (after: World) {
    var partial :=
      if w.c.request && w.c.assistant != [] then
        w.(p := PersistRecord(w.p, w.p.turnId, PartialAssistant(w.c.assistant, w.p.model)).0)
      else w;
    partial.(c := partial.c.(request := false, pendingPermission := false, tool := false))
  }

  /** `oi_cli_conversation_cancel`. */
  function Cancel(w: World): (after: World) {
    if !w.c.busy then w
    else
      var (closed, status) := CloseOutIncompleteTurn(Detached(w), w.c.tool);
      FinishTurn(if status == OK then closed.(c := closed.c.(cancelled := true)) else closed,
                 if status == OK then CLOSED else status)
  }

  // ----- the tool loop -----

  function StartModelRequest(w: World, env: Env): (outcome: (World, Status)) {
    var awaiting := w.(c := w.c.(assistantCommitted := false));
    if w.c.modelSteps >= w.c.maxModelSteps then (awaiting, INVAL)
    else
      var asked := awaiting.(c := awaiting.c.(modelSteps := w.c.modelSteps + 1, request := env.requestStart == OK));
      (asked, env.requestStart)
  }

  /** The process starts, gets its timeout and its closed stdin; each step may fail. */
  function Launch(w: World, env: Env): (after: World) {
    if env.resolve != OK then FinishWithRepair(w, env.resolve, true)
    else if env.setup != OK then FinishWithRepair(w, env.setup, true)
    else w.(c := w.c.(tool := true))
  }

  /** The denied call gets its own result; the ones behind it are closed as never started. */
  function DenyAndClose(w: World, call: ToolCall): (after: World) {
    var (denied, status) := Commit(w, ToolResult(call.id, DENIED_TEXT), ToolDenied, None, false);
    FinishWithRepair(denied.(c := denied.c.(toolIndex := w.c.toolIndex + 1)),
                     if status != OK then status else DENIED, false)
  }

  /** `resolve_permission_body`: the denial, or TOOL_STARTING and the start of the process. */
  function ResolvePermissionBody(w: World, call: ToolCall, allow: bool, env: Env): (after: World) {
    if !allow then DenyAndClose(w, call)
    else
      var (p, status) := PersistRecord(w.p, w.p.turnId, ToolStarted(call.id));
      var announced := w.(p := p);
      if status != OK then FinishWithRepair(announced, status, false)
      else if env.starting.DisplayFails? then FinishWithRepair(announced, IO, false)
      else if env.starting.CancelsInside? then Cancel(announced)
      else Launch(announced, env)
  }

  function RequestToolCall(w: World, call: ToolCall, env: Env): (after: World) {
    match env.decision
    case Allow => ResolvePermissionBody(w, call, true, env)
    case Deny => ResolvePermissionBody(w, call, false, env)
    case Ask =>
      if !env.awaitingShown then FinishWithRepair(w.(c := w.c.(pendingPermission := false)), IO, false)
      else
        var waiting := w.(c := w.c.(pendingPermission := true));
        if env.awaitingCancels then Cancel(waiting) else waiting
  }

  /** The block size of the session's arena, which the arguments of a call are parsed into. */
  const TURN_ARENA: nat := JsonArena.DEFAULT_BLOCK

  function StartNextTool(w: World, env: Env): (after: World) {
    if !w.c.busy then w
    else if w.c.steering then FinishSteered(w)
    else if w.c.toolIndex >= |CurrentCalls(w.c)| then
      var (asked, status) := StartModelRequest(w, env);
      if status != OK then FinishWithRepair(asked, status, false) else asked
    else
      var call := CurrentCalls(w.c)[w.c.toolIndex];
      var parsed := JsonArena.ArgumentsStatus(call.arguments, TURN_ARENA);
      if parsed != OK then FinishWithRepair(w, parsed, false)
      else if env.toolStart != OK then FinishWithRepair(w, env.toolStart, false)
      else RequestToolCall(w, call, env)
  }

  // ----- the callbacks -----

  function Limited(buffer: bytes, data: bytes): (found: Option<bytes>) {
    if |buffer| + |data| > MAX_CONTENT then None else Some(buffer + data)
  }

  /** What `oi_cli_conversation_start` resets before it commits the user message. */
  function Begun(w: World): (after: World) {
    w.(c := w.c.(
      busy := true, cancelled := false, steering := false, lastStatus := OK, modelSteps := 0,
      assistant := [], streamed := [], toolOutput := []))
  }

  /** `oi_cli_conversation_start`; content over the limit or a busy conversation changes nothing. */
  function Start(w: World, content: bytes, env: Env): (after: World) {
    if |content| > MAX_CONTENT || w.c.busy then w
    else
      var (said, status) := Commit(Begun(w), User(content), ToolNone, None, false);
      if status != OK then FinishTurn(said, status)
      else
        var (asked, request) := StartModelRequest(said, env);
        if request != OK then FinishTurn(asked, request) else asked
  }

  function OnText(w: World, data: bytes, shown: bool): (after: World) {
    var appended := Limited(w.c.assistant, data);
    var kept := if appended.Some? then w.(c := w.c.(assistant := appended.value)) else w;
    if appended.None? || !shown then
      FinishWithRepair(kept.(c := kept.c.(request := false)), if appended.None? then NOMEM else IO, false)
    else kept
  }

  function FindStreamed(streamed: seq<Streamed>, index: nat): (n: nat) {
    if streamed == [] || streamed[0].index == index then 0 else 1 + FindStreamed(streamed[1..], index)
  }

  /** The entry for this index, added at the end if it is new. */
  function WithStreamed(streamed: seq<Streamed>, index: nat): (sorted: seq<Streamed>) {
    if FindStreamed(streamed, index) < |streamed| then streamed
    else streamed + [Streamed(index, [], [], [])]
  }

  /** The fragments are appended to id, name and arguments, each only if the ones before fitted. */
  function Extend(s: Streamed, id: bytes, name: bytes, arguments: bytes): (result: (Streamed, bool)) {
    match Limited(s.id, id)
    case None => (s, false)
    case Some(newId) =>
      match Limited(s.name, name)
      case None => (s.(id := newId), false)
      case Some(newName) =>
        match Limited(s.arguments, arguments)
        case None => (s.(id := newId, name := newName), false)
        case Some(newArguments) => (s.(id := newId, name := newName, arguments := newArguments), true)
  }

  function OnCallDelta(w: World, index: nat, id: bytes, name: bytes, arguments: bytes): (after: World) {
    var streamed := WithStreamed(w.c.streamed, index);
    var i := FindStreamed(streamed, index);
    if i >= |streamed| then w
    else
      var (extended, fits) := Extend(streamed[i], id, name, arguments);
      var kept := w.(c := w.c.(streamed := streamed[i := extended]));
      if fits then kept else FinishWithRepair(kept.(c := kept.c.(request := false)), NOMEM, false)
  }

  function InsertByIndex(s: Streamed, sorted: seq<Streamed>): (result: seq<Streamed>) {
    if sorted == [] || s.index <= sorted[0].index then [s] + sorted
    else [sorted[0]] + InsertByIndex(s, sorted[1..])
  }

  function SortByIndex(streamed: seq<Streamed>): (sorted: seq<Streamed>) {
    if streamed == [] then [] else InsertByIndex(streamed[0], SortByIndex(streamed[1..]))
  }

  /** Calls numbered 0, 1, ... without a gap and without an empty field. */
  predicate CallsComplete(sorted: seq<Streamed>) {
    forall i :: 0 <= i < |sorted| ==>
      sorted[i].index == i && sorted[i].id != [] && sorted[i].name != [] && sorted[i].arguments != []
  }

  function ToCalls(sorted: seq<Streamed>): (calls: seq<ToolCall>) {
    seq(|sorted|, i requires 0 <= i < |sorted| => ToolCall(sorted[i].id, sorted[i].name, sorted[i].arguments))
  }

  function BuildAssistant(c: Conv): (result: Option<Message>) {
    var sorted := SortByIndex(c.streamed);
    if !CallsComplete(sorted) then None else Some(Assistant(c.assistant, ToCalls(sorted)))
  }

  /** The round the reply just committed opens. */
  function RoundOf(said: World): (after: World) {
    said.(c := said.c.(
      assistantIndex := if said.c.messages == [] then 0 else |said.c.messages| - 1,
      assistantCommitted := true, toolIndex := 0, assistant := [], streamed := []))
  }

  /** RESPONSE_DONE, and on to the calls, if there are any. */
  function AfterReply(round: World, env: Env): (after: World) {
    if !env.responseShown then FinishWithRepair(round, IO, false)
    else if CurrentCalls(round.c) == [] then FinishTurn(round, OK)
    else StartNextTool(round, env)
  }

  /** `on_llm_done` for a completed response. */
  function OnCompleted(w: World, env: Env): (after: World) {
    var landed := w.(c := w.c.(request := false));
    match BuildAssistant(landed.c)
    case None => FinishWithRepair(landed, PARSE, false)
    case Some(m) =>
      var (said, status) := Commit(landed, m, ToolNone, None, false);
      if status != OK then FinishWithRepair(said, status, false)
      else
        AfterReply(RoundOf(said), env)
  }

  /**
   * `on_llm_done` for a failed one: what streamed in is kept as a partial reply. `errorShown` is what MODEL_ERROR
   * answered, OK if there was no error body to show.
   */
  function OnFailed(w: World, failure: Status, errorShown: Status): (after: World) {
    var status := if errorShown != OK then errorShown else failure;
    var landed := w.(c := w.c.(request := false));
    if w.c.assistant == [] then FinishWithRepair(landed, status, false)
    else
      var (p, partial) := PersistRecord(w.p, w.p.turnId, PartialAssistant(w.c.assistant, w.p.model));
      FinishWithRepair(landed.(p := p), if partial != OK then partial else status, false)
  }

  function OnToolOutput(w: World, data: bytes, shown: bool): (after: World) {
    var appended := Limited(w.c.toolOutput, data);
    var kept := if appended.Some? then w.(c := w.c.(toolOutput := appended.value)) else w;
    if appended.None? || !shown then
      FinishWithRepair(kept.(c := kept.c.(tool := false)), if appended.None? then NOMEM else IO, true)
    else kept
  }

  function IntText(n: int): (text: bytes) {
    if n < 0 then Ascii("-") + Decimal.Digits(-n) else Decimal.Digits(n)
  }

  /** The status line of an abnormal exit; kind 0 with code 0 has none. */
  function ExitText(kind: nat, code: int): (text: bytes) {
    if kind == 0 && code == 0 then []
    else Ascii("\n[tool exit kind=") + IntText(kind) + Ascii(" code=") + IntText(code) + Ascii("]\n")
  }

  /** The result of the call in turn, with the raw output behind it, and on to the next call. */
  function AnswerCall(w: World, call: ToolCall, text: bytes, outcome: ToolOutcome, env: Env): (after: World) {
    var (said, status) := Commit(w, ToolResult(call.id, text), outcome, Some(w.c.toolOutput), false);
    AfterAnswer(said.(c := said.c.(toolOutput := [])), status, env)
  }

  function AfterAnswer(said: World, status: Status, env: Env): (after: World) {
    if status != OK then FinishWithRepair(said, status, true)
    else StartNextTool(said.(c := said.c.(toolIndex := said.c.toolIndex + 1)), env)
  }

  /** `on_tool_done`: the output is made well-formed first, and may then be too long to keep. */
  function OnToolDone(w: World, kind: nat, code: int, env: Env): (after: World) {
    var landed := w.(c := w.c.(tool := false));
    var text := Utf8Stream.Normalized(w.c.toolOutput) + ExitText(kind, code);
    if w.c.toolIndex >= |CurrentCalls(w.c)| then landed
    else if |text| > MAX_CONTENT then FinishWithRepair(landed.(c := landed.c.(toolOutput := [])), NOMEM, true)
    else
      AnswerCall(landed, CurrentCalls(w.c)[w.c.toolIndex], text,
                 if kind == 0 && code == 0 then ToolCompleted else ToolFailed, env)
  }

  /** `oi_cli_conversation_resolve_permission`. */
  function ResolvePermission(w: World, allow: bool, env: Env): (after: World) {
    if !w.c.pendingPermission || w.c.toolIndex >= |CurrentCalls(w.c)| then w
    else
      ResolvePermissionBody(w.(c := w.c.(pendingPermission := false)), CurrentCalls(w.c)[w.c.toolIndex], allow, env)
  }

  function Steer(w: World): (after: World) {
    if w.c.busy then w.(c := w.c.(steering := true)) else w
  }

  /** A message typed while busy is queued durably and then steers the turn. */
  function QueueInput(w: World, content: bytes): (after: World) {
    var (p, status) := PersistRecord(w.p, NextTurnId(w.p), QueuedInput(content));
    if status == OK then Steer(w.(p := p)) else w.(p := p)
  }

  function ResolveQueue(w: World, consumed: bool): (after: World) {
    if w.p.log.b.pending.None? then w
    else
      var pending := w.p.log.b.pending.value;
      w.(p := PersistRecord(w.p, pending.turnId,
                            QueueResolved(pending.recordId, if consumed then Consumed else Discarded)).0)
  }

  /** `persist_checkpoint`, and the live splice only once it is durable. */
  function Compact(w: World, prefix: nat, summary: bytes, model: bytes): (after: World) {
    var context := w.p.log.b.context;
    if w.c.busy || prefix == 0 || prefix > |context| then w
    else
      var (p, status) :=
        PersistRecord(w.p, 0, Checkpoint(summary, model, context[0].recordId, context[prefix - 1].recordId));
      if status != OK || prefix > |w.c.messages| then w.(p := p)
      else World(w.c.(messages := [Assistant(summary, [])] + w.c.messages[prefix..]), p)
  }

  /** The record of /model and /cwd. */
  function SettingRecord(log: Log, field: SettingField, value: bytes): (record: Record) {
    MakeRecord(log.nextId, 0, SessionSetting(field, value))
  }

  /**
   * /model and /cwd: the record first, then the live value. A refusal leaves both as they were and is no failed
   * write; of the persistence context only the log and the directory change, not the model of partial replies.
   */
  function ChangeSetting(w: World, field: SettingField, value: bytes): (result: (World, Status)) {
    var r := SettingRecord(w.p.log, field, value);
    match Append(w.p.log, r)
    case None => (w, AppendStatus(w.p.log, r))
    case Some(log) =>
      if field.ModelSetting? then (World(w.c.(model := value), w.p.(log := log)), OK)
      else (w.(p := w.p.(log := log, cwd := value)), OK)
  }

  // ----- runs -----

  datatype Event =
    | StartEvent(content: bytes, env: Env)
    | TextEvent(data: bytes, shown: bool)
    | CallDeltaEvent(index: nat, id: bytes, name: bytes, arguments: bytes)
    | CompletedEvent(env: Env)
    | FailedEvent(status: Status, errorShown: Status)
    | ToolOutputEvent(data: bytes, shown: bool)
    | ToolDoneEvent(kind: nat, code: int, env: Env)
    | PermissionEvent(allow: bool, env: Env)
    | SteerEvent
    | CancelEvent
    | QueueEvent(content: bytes)
    | ResolveQueueEvent(consumed: bool)
    | CompactEvent(prefix: nat, summary: bytes, model: bytes)
    | SettingEvent(field: SettingField, value: bytes)

  function Step(w: World, e: Event): (after: World) {
    match e
    case StartEvent(content, env) => Start(w, content, env)
    case TextEvent(data, shown) => OnText(w, data, shown)
    case CallDeltaEvent(index, id, name, arguments) => OnCallDelta(w, index, id, name, arguments)
    case CompletedEvent(env) => OnCompleted(w, env)
    case FailedEvent(status, errorShown) => OnFailed(w, status, errorShown)
    case ToolOutputEvent(data, shown) => OnToolOutput(w, data, shown)
    case ToolDoneEvent(kind, code, env) => OnToolDone(w, kind, code, env)
    case PermissionEvent(allow, env) => ResolvePermission(w, allow, env)
    case SteerEvent => Steer(w)
    case CancelEvent => Cancel(w)
    case QueueEvent(content) => QueueInput(w, content)
    case ResolveQueueEvent(consumed) => ResolveQueue(w, consumed)
    case CompactEvent(prefix, summary, model) => Compact(w, prefix, summary, model)
    case SettingEvent(field, value) => ChangeSetting(w, field, value).0
  }

  function Run(w: World, es: seq<Event>): (after: World)
    decreases es
  {
    if es == [] then w else Run(Step(w, es[0]), es[1..])
  }
}
