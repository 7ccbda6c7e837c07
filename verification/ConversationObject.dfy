/** The conversation of src/cli_conversation.c as the object its callbacks update. */
module ConversationObject {
  import opened Basics
  import opened Messages
  import opened History
  import opened ReplayLog
  import opened Conversation
  import JsonArena
  import Utf8Stream

  /** The persistence context of src/cli.c: the event sink of a durable conversation. */
  class Persistence {
    var log: Log
    var turnId: u64
    var model: bytes
    var failed: bool
    var cwd: bytes

    ghost function View(): (after: Persist)
      reads this
    {
      Persist(log, turnId, model, failed, cwd)
    }

    constructor (p: Persist)
      ensures View() == p
    {
      log, turnId, model, failed, cwd := p.log, p.turnId, p.model, p.failed, p.cwd;
    }

    /** Builds a record with the next id, appends it, and remembers a failure. */
    method Persisted(turn: u64, payload: Payload) returns (status: Status)
      modifies this
      ensures (View(), status) == PersistRecord(old(View()), turn, payload)
    {
      var r := MakeRecord(log.nextId, turn, payload);
      if !RecordValid(r) {
        failed := true;
        return INVAL;
      }
      match Append(log, r)
      case None =>
        failed := true;
        return AppendStatus(log, r);
      case Some(longer) =>
        log := longer;
        return OK;
    }

    /** `oi_cli_session_apply_setting`: the record alone; the cache file beside the log is not modelled. */
    method ApplySetting(field: SettingField, value: bytes) returns (status: Status)
      modifies this`log
      ensures
        var r := SettingRecord(old(log), field, value);
        && status == AppendStatus(old(log), r)
        && log == if status == OK then Append(old(log), r).value else old(log)
    {
      var r := SettingRecord(log, field, value);
      match Append(log, r)
      case None => return AppendStatus(log, r);
      case Some(longer) =>
        log := longer;
        return OK;
    }

    method TurnDone()
      modifies this`turnId
      ensures turnId == NextTurnId(old(View()))
    {
      turnId := if log.b.lastStarted < U64_MAX then log.b.lastStarted + 1 else U64_MAX;
    }
  }

  class Session {
    const sink: Persistence
    var messages: seq<Message>
    var request: bool
    var tool: bool
    var pendingPermission: bool
    var busy: bool
    var cancelled: bool
    var steering: bool
    var lastStatus: Status
    var modelSteps: nat
    var maxModelSteps: nat
    var assistant: bytes
    var streamed: seq<Streamed>
    var assistantIndex: nat
    var toolIndex: nat
    var toolOutput: bytes
    var assistantCommitted: bool
    var model: bytes

    ghost function View(): (after: Conv)
      reads this
    {
      Conv(messages, request, tool, pendingPermission, busy, cancelled, steering, lastStatus, modelSteps,
           maxModelSteps, assistant, streamed, assistantIndex, toolIndex, toolOutput, assistantCommitted, model)
    }

    /** Both objects together. */
    ghost function Whole(): (after: World)
      reads this, sink
    {
      World(View(), sink.View())
    }

    /** A fresh conversation over the context a replay restored. */
    constructor (sink: Persistence, initialContext: seq<Message>, model: bytes, maxModelSteps: nat)
      ensures this.sink == sink
      ensures View() == Conv(initialContext, false, false, false, false, false, false, OK, 0, maxModelSteps,
                             [], [], 0, 0, [], false, model)
    {
      this.sink, this.messages, this.model, this.maxModelSteps := sink, initialContext, model, maxModelSteps;
      request, tool, pendingPermission, busy, cancelled, steering := false, false, false, false, false, false;
      lastStatus, modelSteps, assistant, streamed := OK, 0, [], [];
      assistantIndex, toolIndex, toolOutput, assistantCommitted := 0, 0, [], false;
    }

    method CommitMessage(m: Message, outcome: ToolOutcome, raw: Option<bytes>, isRepair: bool)
      returns (status: Status)
      modifies this`messages, sink
      ensures (Whole(), status) == Commit(old(Whole()), m, outcome, raw, isRepair)
    {
      hide PersistRecord;
      var attributed := if m.Assistant? && !isRepair then Some(model) else None;
      var payload := MessageRecord(HistoryMessage(
        m, if isRepair then Repair else Normal, HistoryOutcome(outcome), attributed, raw));
      status := sink.Persisted(sink.turnId, payload);
      if status == OK { messages := messages + [m]; }
    }

    method Finish(status: Status)
      modifies this`busy, this`lastStatus, sink`turnId
      ensures Whole() == FinishTurn(old(Whole()), status)
    {
      if !busy { return; }
      busy, lastStatus := false, status;
      sink.TurnDone();
    }

    function Calls(): (calls: seq<ToolCall>)
      reads this
      ensures calls == CurrentCalls(View())
    {
      if assistantIndex < |messages| && messages[assistantIndex].Assistant? then messages[assistantIndex].calls else []
    }

    method Placeholder(call: ToolCall, started: bool) returns (status: Status)
      modifies this`messages, sink
      ensures (Whole(), status) == RepairCall(old(Whole()), call, started)
    {
      if started {
        status := CommitMessage(ToolResult(call.id, CANCELLED_UNKNOWN_TEXT), ToolUnknown, Some(toolOutput), false);
      } else {
        status := CommitMessage(ToolResult(call.id, CANCELLED_NOT_EXECUTED_TEXT), ToolNotExecuted, None, false);
      }
    }

    method RepairDangling(firstStarted: bool) returns (first: Status)
      modifies this`messages, this`toolOutput, sink
      ensures (Whole(), first) == RepairDanglingCalls(old(Whole()), firstStarted)
    {
      hide RepairCall;
      var calls := Calls();
      var start := toolIndex;
      var i := start;
      first := OK;
      while i < |calls|
        invariant start <= i
        invariant toolIndex == start && toolOutput == old(toolOutput)
        invariant
          var rest := RepairFrom(Whole(), calls, i, i == start && firstStarted);
          RepairFrom(old(Whole()), calls, start, firstStarted) == (rest.0, if first != OK then first else rest.1)
        decreases |calls| - i
      {
        var status := Placeholder(calls[i], i == start && firstStarted);
        if status != OK && first == OK { first := status; }
        i := i + 1;
      }
      toolOutput := [];
    }

    method CloseOut(firstStarted: bool) returns (status: Status)
      modifies this`messages, this`toolOutput, sink
      ensures (Whole(), status) == CloseOutIncompleteTurn(old(Whole()), firstStarted)
    {
      status := OK;
      if assistantCommitted {
        var calls := Calls();
        if toolIndex < |calls| { status := RepairDangling(firstStarted); }
      }
      if status == OK {
        status := CommitMessage(Assistant(INTERRUPTED_TURN_TEXT, []), ToolNone, None, true);
      }
    }

    method FinishRepaired(status: Status, firstStarted: bool)
      modifies this, sink
      ensures Whole() == FinishWithRepair(old(Whole()), status, firstStarted)
    {
      var repair := CloseOut(firstStarted);
      Finish(if repair != OK then repair else status);
    }

    method SkipSteered() returns (first: Status)
      modifies this`messages, sink
      ensures (Whole(), first) == SkipSteeredFrom(old(Whole()), CurrentCalls(old(View())), old(toolIndex))
    {
      var calls := Calls();
      var i := toolIndex;
      first := OK;
      while i < |calls|
        invariant toolIndex == old(toolIndex)
        invariant
          var rest := SkipSteeredFrom(Whole(), calls, i);
          SkipSteeredFrom(old(Whole()), calls, old(toolIndex)) == (rest.0, if first != OK then first else rest.1)
        decreases |calls| - i
      {
        var status := CommitMessage(ToolResult(calls[i].id, STEERED_NOT_EXECUTED_TEXT), ToolNotExecuted, None, false);
        if status != OK && first == OK { first := status; }
        i := i + 1;
      }
    }

    method EndSteered()
      modifies this, sink
      ensures Whole() == FinishSteered(old(Whole()))
    {
      var status := SkipSteered();
      if status == OK {
        status := CommitMessage(Assistant(STEERED_TURN_TEXT, []), ToolNone, None, true);
      }
      Finish(status);
    }

    method Detach() returns (started: bool)
      modifies this`request, this`pendingPermission, this`tool, sink
      ensures Whole() == Detached(old(Whole())) && started == old(tool)
    {
      if request {
        request := false;
        if |assistant| > 0 {
          var ignored := sink.Persisted(sink.turnId, PartialAssistant(assistant, sink.model));
        }
      }
      pendingPermission := false;
      started := tool;
      tool := false;
    }

    method CancelTurn()
      modifies this, sink
      ensures Whole() == Cancel(old(Whole()))
    {
      hide Detached, CloseOutIncompleteTurn;
      if !busy { return; }
      var started := Detach();
      var status := CloseOut(started);
      if status == OK {
        cancelled := true;
        status := CLOSED;
      }
      Finish(status);
    }

    method RequestModel(env: Env) returns (status: Status)
      modifies this
      ensures (Whole(), status) == StartModelRequest(old(Whole()), env)
    {
      assistantCommitted := false;
      if modelSteps >= maxModelSteps { return INVAL; }
      modelSteps := modelSteps + 1;
      request := env.requestStart == OK;
      return env.requestStart;
    }

    method LaunchTool(env: Env)
      modifies this, sink
      ensures Whole() == Launch(old(Whole()), env)
    {
      if env.resolve != OK {
        FinishRepaired(env.resolve, true);
      } else if env.setup != OK {
        FinishRepaired(env.setup, true);
      } else {
        tool := true;
      }
    }

    method DenyCall(call: ToolCall)
      modifies this, sink
      ensures Whole() == DenyAndClose(old(Whole()), call)
    {
      hide Commit, FinishWithRepair;
      var status := CommitMessage(ToolResult(call.id, DENIED_TEXT), ToolDenied, None, false);
      toolIndex := toolIndex + 1;
      FinishRepaired(if status != OK then status else DENIED, false);
    }

    method Decide(call: ToolCall, allow: bool, env: Env)
      modifies this, sink
      ensures Whole() == ResolvePermissionBody(old(Whole()), call, allow, env)
    {
      hide PersistRecord, FinishWithRepair, Cancel, Launch, DenyAndClose;
      if !allow {
        DenyCall(call);
        return;
      }
      var status := sink.Persisted(sink.turnId, ToolStarted(call.id));
      if status == OK && env.starting.DisplayFails? { status := IO; }
      if status != OK {
        FinishRepaired(status, false);
      } else if env.starting.CancelsInside? {
        CancelTurn();
      } else {
        LaunchTool(env);
      }
    }

    method RequestCall(call: ToolCall, env: Env)
      modifies this, sink
      ensures Whole() == RequestToolCall(old(Whole()), call, env)
    {
      if env.decision.Ask? {
        pendingPermission := true;
        if !env.awaitingShown {
          pendingPermission := false;
          FinishRepaired(IO, false);
        } else if env.awaitingCancels {
          CancelTurn();
        }
      } else {
        Decide(call, env.decision.Allow?, env);
      }
    }

    method NextTool(env: Env)
      modifies this, sink
      ensures Whole() == StartNextTool(old(Whole()), env)
    {
      if !busy { return; }
      if steering {
        EndSteered();
        return;
      }
      var calls := Calls();
      if toolIndex >= |calls| {
        var status := RequestModel(env);
        if status != OK { FinishRepaired(status, false); }
        return;
      }
      var call := calls[toolIndex];
      var parsed := JsonArena.ArgumentsStatus(call.arguments, TURN_ARENA);
      if parsed != OK {
        FinishRepaired(parsed, false);
      } else if env.toolStart != OK {
        FinishRepaired(env.toolStart, false);
      } else {
        RequestCall(call, env);
      }
    }

    method ClearTurn()
      modifies this`assistant, this`streamed, this`toolOutput, this`modelSteps
      ensures View() == old(View()).(assistant := [], streamed := [], toolOutput := [], modelSteps := 0)
    {
      assistant, streamed, toolOutput, modelSteps := [], [], [], 0;
    }

    method BeginTurn()
      modifies this
      ensures Whole() == Begun(old(Whole()))
    {
      ClearTurn();
      assert sink.View() == old(sink.View());
      lastStatus, cancelled, steering, busy := OK, false, false, true;
    }

    method StartTurn(content: bytes, env: Env)
      modifies this, sink
      ensures Whole() == Start(old(Whole()), content, env)
    {
      hide Commit, StartModelRequest, FinishTurn;
      if |content| > MAX_CONTENT || busy { return; }
      BeginTurn();
      var status := CommitMessage(User(content), ToolNone, None, false);
      if status == OK { status := RequestModel(env); }
      if status != OK { Finish(status); }
    }

    method HandleText(data: bytes, shown: bool)
      modifies this, sink
      ensures Whole() == OnText(old(Whole()), data, shown)
    {
      hide FinishWithRepair;
      var status := OK;
      if |assistant| + |data| > MAX_CONTENT {
        status := NOMEM;
      } else {
        assistant := assistant + data;
        if !shown { status := IO; }
      }
      if status != OK {
        request := false;
        FinishRepaired(status, false);
      }
    }

    method FindOrAdd(index: nat) returns (i: nat)
      modifies this`streamed
      ensures streamed == WithStreamed(old(streamed), index) && i == FindStreamed(streamed, index)
      ensures i < |streamed|
    {
      i := 0;
      assert streamed[0..] == streamed;
      while i < |streamed| && streamed[i].index != index
        invariant i <= |streamed| && streamed == old(streamed)
        invariant i + FindStreamed(streamed[i..], index) == FindStreamed(streamed, index)
        invariant forall k :: 0 <= k < i ==> streamed[k].index != index
      {
        assert streamed[i..][1..] == streamed[i + 1..];
        i := i + 1;
      }
      if i == |streamed| {
        streamed := streamed + [Streamed(index, [], [], [])];
        FindAdded(streamed, index, i);
      }
    }

    method HandleCallDelta(index: nat, id: bytes, name: bytes, arguments: bytes)
      modifies this, sink
      ensures Whole() == OnCallDelta(old(Whole()), index, id, name, arguments)
    {
      hide FinishWithRepair;
      var i := FindOrAdd(index);
      var call := streamed[i];
      var fits := false;
      if |call.id| + |id| <= MAX_CONTENT {
        call := call.(id := call.id + id);
        if |call.name| + |name| <= MAX_CONTENT {
          call := call.(name := call.name + name);
          if |call.arguments| + |arguments| <= MAX_CONTENT {
            call := call.(arguments := call.arguments + arguments);
            fits := true;
          }
        }
      }
      streamed := streamed[i := call];
      if !fits {
        request := false;
        FinishRepaired(NOMEM, false);
      }
    }

    /** `build_assistant_message`: the streamed calls in index order, if none is missing or empty. */
    method BuildReply() returns (m: Option<Message>)
      ensures m == BuildAssistant(View())
    {
      var sorted := SortByIndex(streamed);
      var i := 0;
      var calls := [];
      while i < |sorted|
        invariant i <= |sorted| && calls == ToCalls(sorted[..i]) && CallsComplete(sorted[..i])
      {
        var call := sorted[i];
        if call.index != i || |call.id| == 0 || |call.name| == 0 || |call.arguments| == 0 { return None; }
        calls := calls + [ToolCall(call.id, call.name, call.arguments)];
        i := i + 1;
      }
      assert sorted[..i] == sorted;
      return Some(Assistant(assistant, calls));
    }

    method HandleCompleted(env: Env)
      modifies this, sink
      ensures Whole() == OnCompleted(old(Whole()), env)
    {
      hide Commit, FinishWithRepair, AfterReply, BuildAssistant, RoundOf;
      request := false;
      var built := BuildReply();
      if built.None? {
        FinishRepaired(PARSE, false);
        return;
      }
      var status := CommitMessage(built.value, ToolNone, None, false);
      if status != OK {
        FinishRepaired(status, false);
        return;
      }
      OpenRound();
      ReplyDone(env);
    }

    method ClearReply()
      modifies this`assistant, this`streamed
      ensures View() == old(View()).(assistant := [], streamed := [])
    {
      assistant, streamed := [], [];
    }

    method OpenRound()
      modifies this`assistantIndex, this`assistantCommitted, this`toolIndex, this`assistant, this`streamed
      ensures Whole() == RoundOf(old(Whole()))
    {
      var index := if |messages| == 0 then 0 else |messages| - 1;
      ClearReply();
      assert sink.View() == old(sink.View());
      assistantIndex, assistantCommitted, toolIndex := index, true, 0;
    }

    method ReplyDone(env: Env)
      modifies this, sink
      ensures Whole() == AfterReply(old(Whole()), env)
    {
      var calls := Calls();
      if !env.responseShown {
        FinishRepaired(IO, false);
      } else if |calls| == 0 {
        Finish(OK);
      } else {
        NextTool(env);
      }
    }

    method HandleFailed(status: Status, errorShown: Status)
      modifies this, sink
      ensures Whole() == OnFailed(old(Whole()), status, errorShown)
    {
      hide PersistRecord, FinishWithRepair;
      var final := if errorShown != OK then errorShown else status;
      request := false;
      if |assistant| > 0 {
        var partial := sink.Persisted(sink.turnId, PartialAssistant(assistant, sink.model));
        if partial != OK { final := partial; }
      }
      FinishRepaired(final, false);
    }

    method HandleToolOutput(data: bytes, shown: bool)
      modifies this, sink
      ensures Whole() == OnToolOutput(old(Whole()), data, shown)
    {
      hide FinishWithRepair;
      var status := OK;
      if |toolOutput| + |data| > MAX_CONTENT {
        status := NOMEM;
      } else {
        toolOutput := toolOutput + data;
        if !shown { status := IO; }
      }
      if status != OK {
        tool := false;
        FinishRepaired(status, true);
      }
    }

    method Answer(call: ToolCall, text: bytes, outcome: ToolOutcome, env: Env)
      modifies this, sink
      ensures Whole() == AnswerCall(old(Whole()), call, text, outcome, env)
    {
      hide Commit, AfterAnswer;
      var status := CommitMessage(ToolResult(call.id, text), outcome, Some(toolOutput), false);
      toolOutput := [];
      Answered(status, env);
    }

    method Answered(status: Status, env: Env)
      modifies this, sink
      ensures Whole() == AfterAnswer(old(Whole()), status, env)
    {
      hide FinishWithRepair, StartNextTool;
      if status != OK {
        FinishRepaired(status, true);
      } else {
        toolIndex := toolIndex + 1;
        NextTool(env);
      }
    }

    method HandleToolDone(kind: nat, code: int, env: Env)
      requires toolIndex < |CurrentCalls(View())|
      modifies this, sink
      ensures Whole() == OnToolDone(old(Whole()), kind, code, env)
    {
      hide FinishWithRepair, AnswerCall;
      tool := false;
      var calls := Calls();
      var status, text := Utf8Stream.NormalizeUtf8(toolOutput, MAX_CONTENT);
      if status == OK {
        text := text + ExitText(kind, code);
        if |text| > MAX_CONTENT { status := NOMEM; }
      }
      if status != OK {
        toolOutput := [];
        FinishRepaired(status, true);
      } else {
        Answer(calls[toolIndex], text, if kind == 0 && code == 0 then ToolCompleted else ToolFailed, env);
      }
    }

    method HandlePermission(allow: bool, env: Env) returns (status: Status)
      requires pendingPermission ==> toolIndex < |CurrentCalls(View())|
      modifies this, sink
      ensures Whole() == ResolvePermission(old(Whole()), allow, env)
      ensures status == if old(pendingPermission) then OK else INVAL
    {
      if !pendingPermission { return INVAL; }
      pendingPermission := false;
      var calls := Calls();
      Decide(calls[toolIndex], allow, env);
      return OK;
    }

    method SteerTurn()
      modifies this`steering
      ensures Whole() == Steer(old(Whole()))
    {
      if busy { steering := true; }
    }

    method Queue(content: bytes)
      modifies this`steering, sink
      ensures Whole() == QueueInput(old(Whole()), content)
    {
      hide PersistRecord;
      var next := if sink.log.b.lastStarted < U64_MAX then sink.log.b.lastStarted + 1 else U64_MAX;
      var status := sink.Persisted(next, QueuedInput(content));
      if status == OK { SteerTurn(); }
    }

    method Resolve(consumed: bool)
      modifies sink
      ensures Whole() == ResolveQueue(old(Whole()), consumed)
    {
      if sink.log.b.pending.None? { return; }
      var pending := sink.log.b.pending.value;
      var ignored := sink.Persisted(
        pending.turnId, QueueResolved(pending.recordId, if consumed then Consumed else Discarded));
    }

    /** The directory is entered first and left again if its record is refused. */
    method Change(field: SettingField, value: bytes) returns (status: Status)
      modifies this`model, sink
      ensures (Whole(), status) == ChangeSetting(old(Whole()), field, value)
    {
      hide Append, AppendStatus, SettingRecord;
      var previous := sink.cwd;
      if field.CwdSetting? { sink.cwd := value; }
      status := sink.ApplySetting(field, value);
      if status == OK {
        if field.ModelSetting? { model := value; }
      } else {
        sink.cwd := previous;
      }
    }

    method CompactPrefix(prefix: nat, summary: bytes, summaryModel: bytes)
      modifies this`messages, sink
      ensures Whole() == Compact(old(Whole()), prefix, summary, summaryModel)
    {
      var context := sink.log.b.context;
      if busy || prefix == 0 || prefix > |context| { return; }
      var status := sink.Persisted(
        0, Checkpoint(summary, summaryModel, context[0].recordId, context[prefix - 1].recordId));
      if status == OK && prefix <= |messages| {
        messages := [Assistant(summary, [])] + messages[prefix..];
      }
    }
  }

  lemma {:induction false} FindAdded(streamed: seq<Streamed>, index: nat, i: nat)
    requires i < |streamed| && streamed[i].index == index
    requires forall k :: 0 <= k < i ==> streamed[k].index != index
    ensures FindStreamed(streamed, index) == i
    decreases i
  {
    if i > 0 {
      FindAdded(streamed[1..], index, i - 1);
    }
  }
}
