/** Each callback keeps the live turn and the log together; refusals happen exactly where the code allows them. */
module TurnSteps {
  import opened Basics
  import opened Messages
  import opened History
  import opened ReplayLog
  import opened Conversation
  import opened Simulation
  import Replay
  import JsonArena
  import Recovery
  import Utf8Stream

  /** A queued input is always meant for the next turn. */
  predicate QueueNext(w: World) {
    w.p.log.b.pending.Some? ==> w.p.log.b.pending.value.turnId == w.p.log.b.lastStarted + 1
  }

  predicate IdsFit(calls: seq<ToolCall>) {
    forall i :: 0 <= i < |calls| ==> |calls[i].id| <= MAX_CONTENT
  }

  /** Between callbacks a busy conversation has exactly one handle set, and it says what the log waits for. */
  predicate Running(w: World) {
    && Live(w)
    && w.c.modelSteps <= w.c.maxModelSteps
    && if w.c.request then
         && !w.c.tool && !w.c.pendingPermission && !w.c.assistantCommitted
         && ReplyDue(w) && !w.p.log.b.partialSeen
       else
         && w.c.tool != w.c.pendingPermission && w.c.assistantCommitted
         && InRound(w, w.c.toolIndex, w.c.tool) && IdsFit(CurrentCalls(w.c))
  }

  predicate Inv(w: World) {
    (Idle(w) || Running(w)) && QueueNext(w) && 0 < w.c.maxModelSteps
  }

  /** Ids left for the records one callback can write. */
  predicate Roomy(w: World) {
    && Room(w, |CurrentCalls(w.c)| + |w.c.streamed| + 4)
    && w.p.log.b.lastStarted + 1 < U64_MAX
  }

  /** A callback's outcome: the invariant again, and the same records refused as before. */
  predicate Kept(w: World, after: World) {
    && (Idle(after) || Running(after))
    && after.p.failed == w.p.failed
    && after.p.log.b.pending == w.p.log.b.pending
    && after.p.log.b.lastStarted == w.p.log.b.lastStarted
    && after.c.maxModelSteps == w.c.maxModelSteps
  }

  /** Inside a callback, with nothing in flight and a reply due for a new round. */
  predicate RoundDone(w: World) {
    NothingInFlight(w.c) && ReplyDue(w) && !w.p.log.b.partialSeen && w.c.toolIndex >= |CurrentCalls(w.c)|
  }

  /** Inside a callback, with the call at `toolIndex` next. */
  predicate CallNext(w: World, started: bool) {
    && NothingInFlight(w.c) && w.c.assistantCommitted
    && InRound(w, w.c.toolIndex, started) && IdsFit(CurrentCalls(w.c))
  }

  lemma RepairKeeps(w: World, status: Status, started: bool)
    requires Closable(w, started)
    ensures Kept(w, FinishWithRepair(w, status, started)) && Idle(FinishWithRepair(w, status, started))
  {
    RepairCloses(w, status, started);
  }

  // ----- single records -----

  lemma StartedMoves(tools: seq<Replay.Tool>, calls: seq<ToolCall>, i: nat)
    requires ToolsAt(tools, calls, i, false)
    ensures ToolsAt(tools[i := tools[i].(started := true)], calls, i, true)
  {
  }

  /** TOOL_STARTED is accepted for the call in turn and marks it started. */
  lemma StartedTaken(w: World, call: ToolCall)
    requires CallNext(w, false) && Room(w, 1) && call == CurrentCalls(w.c)[w.c.toolIndex]
    ensures
      var (p, status) := PersistRecord(w.p, w.p.turnId, ToolStarted(call.id));
      var after := w.(p := p);
      && status == OK && CallNext(after, true)
      && p == w.p.(log := p.log) && p.log.nextId == w.p.log.nextId + 1
      && p.log.b.pending == w.p.log.b.pending && p.log.b.lastStarted == w.p.log.b.lastStarted
  {
    var b, i := w.p.log.b, w.c.toolIndex;
    var r := MakeRecord(w.p.log.nextId, w.p.turnId, ToolStarted(call.id));
    assert b.tools[i].call == call;
    Recovery.FindDistinct(b.tools, i);
    StartedMoves(b.tools, CurrentCalls(w.c), i);
    assert Replay.Step(b, r) == Some(b.(tools := b.tools[i := b.tools[i].(started := true)]));
    AppendKeepsSound(w.p.log, r);
  }

  /** A partial reply is accepted once while the reply is due. */
  lemma PartialTaken(w: World, content: bytes)
    requires ReplyDue(w) && !w.p.log.b.partialSeen && Room(w, 1) && |content| <= MAX_CONTENT
    ensures
      var (p, status) := PersistRecord(w.p, w.p.turnId, PartialAssistant(content, w.p.model));
      && status == OK && ReplyDue(w.(p := p))
      && p == w.p.(log := Log(w.p.log.b.(partialSeen := true), w.p.log.nextId + 1))
  {
    var r := MakeRecord(w.p.log.nextId, w.p.turnId, PartialAssistant(content, w.p.model));
    AppendKeepsSound(w.p.log, r);
  }

  // ----- the tool loop -----

  /** Cancelling without a partial reply to write. */
  lemma CancelCloses(w: World, detached: World)
    requires w.c.busy && !(w.c.request && w.c.assistant != [])
    requires detached == w.(c := w.c.(request := false, pendingPermission := false, tool := false))
    requires Closable(detached, w.c.tool)
    ensures ClosedFrom(w, Cancel(w)) && Cancel(w).c.cancelled && Cancel(w).c.lastStatus == CLOSED
  {
    CloseOutShuts(detached, w.c.tool);
    FinishIdles(detached, CloseOutIncompleteTurn(detached, w.c.tool).0, CLOSED);
  }

  lemma DenialKeeps(w: World, call: ToolCall, env: Env)
    requires CallNext(w, false) && Room(w, |CurrentCalls(w.c)| + 2) && call == CurrentCalls(w.c)[w.c.toolIndex]
    ensures ClosedFrom(w, ResolvePermissionBody(w, call, false, env))
  {
    hide Commit, PersistRecord, FinishWithRepair, Sound;
    var i := w.c.toolIndex;
    ResultTaken(w, i, false, DENIED_TEXT, ToolDenied, None);
    var denied := Commit(w, ToolResult(call.id, DENIED_TEXT), ToolDenied, None, false).0;
    var moved := denied.(c := denied.c.(toolIndex := i + 1));
    assert if i + 1 < |CurrentCalls(w.c)| then InRound(moved, i + 1, false) else ReplyDue(moved);
    RepairCloses(moved, DENIED, false);
  }

  lemma LaunchKeeps(w: World, env: Env)
    requires CallNext(w, true) && Room(w, |CurrentCalls(w.c)| + 1) && w.c.modelSteps <= w.c.maxModelSteps
    ensures Kept(w, Launch(w, env))
  {
    hide FinishWithRepair, Sound;
    RepairKeeps(w, env.resolve, true);
    RepairKeeps(w, env.setup, true);
  }

  lemma AllowKeeps(w: World, call: ToolCall, env: Env)
    requires CallNext(w, false) && Room(w, |CurrentCalls(w.c)| + 2) && call == CurrentCalls(w.c)[w.c.toolIndex]
    requires env.starting.Quiet? && w.c.modelSteps <= w.c.maxModelSteps
    ensures Kept(w, ResolvePermissionBody(w, call, true, env))
  {
    StartedTaken(w, call);
    LaunchKeeps(w.(p := PersistRecord(w.p, w.p.turnId, ToolStarted(call.id)).0), env);
  }

  lemma RequestKeeps(w: World, call: ToolCall, env: Env)
    requires CallNext(w, false) && Room(w, |CurrentCalls(w.c)| + 2) && call == CurrentCalls(w.c)[w.c.toolIndex]
    requires env.starting.Quiet? && w.c.modelSteps <= w.c.maxModelSteps
    ensures Kept(w, RequestToolCall(w, call, env))
  {
    match env.decision
    case Allow => AllowKeeps(w, call, env);
    case Deny => DenialKeeps(w, call, env);
    case Ask =>
      if !env.awaitingShown {
        RepairKeeps(w, IO, false);
      } else if env.awaitingCancels {
        CancelCloses(w.(c := w.c.(pendingPermission := true)), w);
      }
  }

  /** A new round, refused at the step limit or by the client, or under way. */
  lemma NewRoundKeeps(w: World, env: Env)
    requires RoundDone(w) && Room(w, |CurrentCalls(w.c)| + 2) && w.c.modelSteps <= w.c.maxModelSteps
    ensures
      var (asked, status) := StartModelRequest(w, env);
      Kept(w, if status != OK then FinishWithRepair(asked, status, false) else asked)
  {
    var (asked, status) := StartModelRequest(w, env);
    if status != OK { RepairKeeps(asked, status, false); }
  }

  /** The tool loop, entered with the next call or the end of the round in front of it. */
  lemma NextToolKeeps(w: World, env: Env)
    requires RoundDone(w) || CallNext(w, false)
    requires Room(w, |CurrentCalls(w.c)| + 2)
    requires env.starting.Quiet? && w.c.modelSteps <= w.c.maxModelSteps
    ensures Kept(w, StartNextTool(w, env))
  {
    if w.c.steering {
      SteeredCloses(w);
    } else if w.c.toolIndex >= |CurrentCalls(w.c)| {
      NewRoundKeeps(w, env);
    } else {
      var call := CurrentCalls(w.c)[w.c.toolIndex];
      RepairKeeps(w, JsonArena.ArgumentsStatus(call.arguments, TURN_ARENA), false);
      RepairKeeps(w, env.toolStart, false);
      RequestKeeps(w, call, env);
    }
  }

  // ----- the callbacks -----

  lemma TextKeeps(w: World, data: bytes, shown: bool)
    requires Running(w) && w.c.request && Roomy(w)
    ensures Kept(w, OnText(w, data, shown))
  {
    var appended := Limited(w.c.assistant, data);
    var kept := if appended.Some? then w.(c := w.c.(assistant := appended.value)) else w;
    RepairKeeps(kept.(c := kept.c.(request := false)), if appended.None? then NOMEM else IO, false);
  }

  lemma {:induction false} FindStreamedBound(streamed: seq<Streamed>, index: nat)
    ensures FindStreamed(streamed, index) <= |streamed|
    ensures FindStreamed(WithStreamed(streamed, index), index) < |WithStreamed(streamed, index)|
    decreases streamed
  {
    if streamed != [] && streamed[0].index != index {
      FindStreamedBound(streamed[1..], index);
      assert WithStreamed(streamed, index)[1..] == WithStreamed(streamed[1..], index);
    }
  }

  lemma CallDeltaKeeps(w: World, index: nat, id: bytes, name: bytes, arguments: bytes)
    requires Running(w) && w.c.request && Roomy(w)
    ensures Kept(w, OnCallDelta(w, index, id, name, arguments))
  {
    hide FinishWithRepair, Sound;
    FindStreamedBound(w.c.streamed, index);
    var streamed := WithStreamed(w.c.streamed, index);
    var i := FindStreamed(streamed, index);
    var extended := Extend(streamed[i], id, name, arguments).0;
    assert StreamedFit(streamed[i := extended]);
    var kept := w.(c := w.c.(streamed := streamed[i := extended]));
    RepairKeeps(kept.(c := kept.c.(request := false)), NOMEM, false);
  }

  lemma FailedKeeps(w: World, status: Status, errorShown: Status)
    requires Running(w) && w.c.request && Roomy(w)
    ensures Kept(w, OnFailed(w, status, errorShown)) && Idle(OnFailed(w, status, errorShown))
    ensures OnFailed(w, status, errorShown).c.lastStatus == if errorShown != OK then errorShown else status
  {
    var final := if errorShown != OK then errorShown else status;
    var landed := w.(c := w.c.(request := false));
    if w.c.assistant == [] {
      RepairCloses(landed, final, false);
    } else {
      PartialTaken(landed, w.c.assistant);
      var p := PersistRecord(w.p, w.p.turnId, PartialAssistant(w.c.assistant, w.p.model)).0;
      RepairCloses(landed.(p := p), final, false);
    }
  }

  lemma ToolOutputKeeps(w: World, data: bytes, shown: bool)
    requires Running(w) && w.c.tool && Roomy(w)
    ensures Kept(w, OnToolOutput(w, data, shown))
  {
    var appended := Limited(w.c.toolOutput, data);
    var kept := if appended.Some? then w.(c := w.c.(toolOutput := appended.value)) else w;
    RepairKeeps(kept.(c := kept.c.(tool := false)), if appended.None? then NOMEM else IO, true);
  }

  /** A finished tool's result is accepted, and the loop stands before the next call or the end of the round. */
  lemma AnswerMoves(w: World, text: bytes, outcome: ToolOutcome) returns (moved: World)
    requires CallNext(w, true) && Room(w, 1) && |text| <= MAX_CONTENT
    requires outcome.ToolCompleted? || outcome.ToolFailed?
    ensures
      var (said, status) :=
        Commit(w, ToolResult(CurrentCalls(w.c)[w.c.toolIndex].id, text), outcome, Some(w.c.toolOutput), false);
      status == OK && moved == said.(c := said.c.(toolOutput := [], toolIndex := w.c.toolIndex + 1))
    ensures RoundDone(moved) || CallNext(moved, false)
    ensures CurrentCalls(moved.c) == CurrentCalls(w.c)
    ensures moved.c.modelSteps == w.c.modelSteps && moved.c.maxModelSteps == w.c.maxModelSteps
    ensures Answered(w.(c := moved.c), moved, 1)
  {
    var i := w.c.toolIndex;
    ResultTaken(w, i, true, text, outcome, Some(w.c.toolOutput));
    var said := Commit(w, ToolResult(CurrentCalls(w.c)[i].id, text), outcome, Some(w.c.toolOutput), false).0;
    moved := said.(c := said.c.(toolOutput := [], toolIndex := i + 1));
    assert if i + 1 < |CurrentCalls(w.c)| then InRound(moved, i + 1, false) else ReplyDue(moved);
  }

  lemma AnswerContinues(w: World, text: bytes, outcome: ToolOutcome, env: Env) returns (moved: World)
    requires CallNext(w, true) && Room(w, 1) && |text| <= MAX_CONTENT
    requires outcome.ToolCompleted? || outcome.ToolFailed?
    ensures AnswerCall(w, CurrentCalls(w.c)[w.c.toolIndex], text, outcome, env) == StartNextTool(moved, env)
    ensures RoundDone(moved) || CallNext(moved, false)
    ensures CurrentCalls(moved.c) == CurrentCalls(w.c) && moved.c.toolIndex == w.c.toolIndex + 1
    ensures moved.c.modelSteps == w.c.modelSteps && moved.c.maxModelSteps == w.c.maxModelSteps
    ensures Answered(w.(c := moved.c), moved, 1)
  {
    hide StartNextTool, FinishWithRepair, PersistRecord, CurrentCalls, RoundDone, Answered, InRound;
    moved := AnswerMoves(w, text, outcome);
  }

  lemma AnsweredKeeps(w: World, text: bytes, outcome: ToolOutcome, env: Env)
    requires CallNext(w, true) && Room(w, |CurrentCalls(w.c)| + 3) && |text| <= MAX_CONTENT
    requires outcome.ToolCompleted? || outcome.ToolFailed?
    requires env.starting.Quiet? && w.c.modelSteps <= w.c.maxModelSteps
    ensures Kept(w, AnswerCall(w, CurrentCalls(w.c)[w.c.toolIndex], text, outcome, env))
  {
    hide AnswerCall, StartNextTool, CallNext, RoundDone, CurrentCalls, Idle, Running;
    var moved := AnswerContinues(w, text, outcome, env);
    NextToolKeeps(moved, env);
  }

  lemma ToolDoneKeeps(w: World, kind: nat, code: int, env: Env)
    requires Running(w) && w.c.tool && Roomy(w) && env.starting.Quiet?
    ensures Kept(w, OnToolDone(w, kind, code, env))
  {
    var landed := w.(c := w.c.(tool := false));
    var text := Utf8Stream.Normalized(w.c.toolOutput) + ExitText(kind, code);
    if |text| > MAX_CONTENT {
      RepairKeeps(landed.(c := landed.c.(toolOutput := [])), NOMEM, true);
    } else {
      AnsweredKeeps(landed, text, if kind == 0 && code == 0 then ToolCompleted else ToolFailed, env);
    }
  }

  lemma PermissionKeeps(w: World, allow: bool, env: Env)
    requires Running(w) && Roomy(w) && env.starting.Quiet?
    ensures Kept(w, ResolvePermission(w, allow, env))
  {
    if w.c.pendingPermission {
      var taken := w.(c := w.c.(pendingPermission := false));
      var call := CurrentCalls(w.c)[w.c.toolIndex];
      if allow { AllowKeeps(taken, call, env); } else { DenialKeeps(taken, call, env); }
    }
  }

  lemma CancelKeeps(w: World)
    requires Running(w) && Roomy(w)
    ensures ClosedFrom(w, Cancel(w)) && Cancel(w).c.cancelled && Cancel(w).c.lastStatus == CLOSED
  {
    var detached := w.(c := w.c.(request := false, pendingPermission := false, tool := false));
    if w.c.request && w.c.assistant != [] {
      PartialTaken(detached, w.c.assistant);
      var p := PersistRecord(w.p, w.p.turnId, PartialAssistant(w.c.assistant, w.p.model)).0;
      CloseOutShuts(detached.(p := p), false);
      FinishIdles(detached.(p := p), CloseOutIncompleteTurn(detached.(p := p), false).0, CLOSED);
    } else {
      CancelCloses(w, detached);
    }
  }
}
