/** How far a turn can go, and what TOOL_STARTING must not do. */
module TurnProgress {
  import opened Basics
  import opened Messages
  import opened History
  import opened Conversation
  import opened Simulation
  import opened TurnSteps
  import Replay
  import Utf8Stream
  import Recovery

  /** What the tool loop can leave: an ended turn, a new request, or the call in turn waiting or running. */
  lemma NextToolOutcome(w: World, env: Env)
    requires NothingInFlight(w.c)
    ensures
      var after := StartNextTool(w, env).c;
      || !after.busy
      || (after == w.c.(assistantCommitted := false, modelSteps := w.c.modelSteps + 1, request := true)
          && w.c.modelSteps < w.c.maxModelSteps && w.c.toolIndex >= |CurrentCalls(w.c)|)
      || (after == w.c.(tool := true) && w.c.toolIndex < |CurrentCalls(w.c)|)
      || (after == w.c.(pendingPermission := true) && w.c.toolIndex < |CurrentCalls(w.c)|)
  {
    hide PersistRecord, Commit, CloseOutIncompleteTurn;
  }

  function StepsLeft(c: Conv): (n: int) {
    c.maxModelSteps - c.modelSteps
  }

  function CallsLeft(c: Conv): (n: int) {
    2 * (|CurrentCalls(c)| - c.toolIndex) + (if c.pendingPermission then 1 else 0)
  }

  /** Lexicographically: model steps left, then whether the reply is still out, then calls left. */
  predicate Decreases(before: Conv, after: Conv) {
    || 0 <= StepsLeft(after) < StepsLeft(before)
    || (StepsLeft(after) == StepsLeft(before) && before.request && !after.request)
    || (StepsLeft(after) == StepsLeft(before) && before.request == after.request
        && 0 <= CallsLeft(after) < CallsLeft(before))
  }

  lemma PermissionProgress(w: World, allow: bool, env: Env)
    requires Running(w) && w.c.pendingPermission
    ensures var after := ResolvePermission(w, allow, env).c; !after.busy || Decreases(w.c, after)
  {
    var taken := w.(c := w.c.(pendingPermission := false));
    var call := CurrentCalls(w.c)[w.c.toolIndex];
    assert !allow ==> !ResolvePermissionBody(taken, call, allow, env).c.busy;
  }

  lemma AnswerProgress(w: World, text: bytes, outcome: ToolOutcome, env: Env)
    requires CallNext(w, true) && Room(w, 1) && |text| <= MAX_CONTENT
    requires outcome.ToolCompleted? || outcome.ToolFailed?
    ensures
      var after := AnswerCall(w, CurrentCalls(w.c)[w.c.toolIndex], text, outcome, env).c;
      || !after.busy
      || 0 <= StepsLeft(after) < StepsLeft(w.c)
      || (StepsLeft(after) == StepsLeft(w.c) && !after.request && CurrentCalls(after) == CurrentCalls(w.c)
          && after.toolIndex == w.c.toolIndex + 1 < |CurrentCalls(w.c)|)
  {
    hide AnswerCall, StartNextTool, Live;
    var moved := AnswerContinues(w, text, outcome, env);
    NextToolOutcome(moved, env);
  }

  lemma ToolDoneProgress(w: World, kind: nat, code: int, env: Env)
    requires Running(w) && w.c.tool && Roomy(w)
    ensures var after := OnToolDone(w, kind, code, env).c; !after.busy || Decreases(w.c, after)
  {
    hide PersistRecord, AnswerCall;
    var landed := w.(c := w.c.(tool := false));
    var text := Utf8Stream.Normalized(w.c.toolOutput) + ExitText(kind, code);
    if |text| <= MAX_CONTENT {
      AnswerProgress(landed, text, if kind == 0 && code == 0 then ToolCompleted else ToolFailed, env);
    }
  }

  lemma CompletedProgress(w: World, env: Env)
    requires Running(w) && w.c.request
    ensures var after := OnCompleted(w, env).c; !after.busy || Decreases(w.c, after)
  {
    hide StartNextTool, PersistRecord, CloseOutIncompleteTurn, BuildAssistant;
    var landed := w.(c := w.c.(request := false));
    if BuildAssistant(landed.c).Some? {
      var said := Commit(landed, BuildAssistant(landed.c).value, ToolNone, None, false).0;
      NextToolOutcome(RoundOf(said), env);
    }
  }

  // ----- a disturbed TOOL_STARTING -----

  /** Tool results, written or refused, never close a turn. */
  lemma {:induction false} ResultsStayOpen(w: World, calls: seq<ToolCall>, i: nat, started: bool)
    requires !w.p.log.b.phase.ExpectUser?
    ensures !RepairFrom(w, calls, i, started).0.p.log.b.phase.ExpectUser?
    decreases |calls| - i
  {
    if i < |calls| {
      var text := if started then CANCELLED_UNKNOWN_TEXT else CANCELLED_NOT_EXECUTED_TEXT;
      var outcome := if started then ToolUnknown else ToolNotExecuted;
      var raw := if started then Some(w.c.toolOutput) else None;
      var next := Commit(w, ToolResult(calls[i].id, text), outcome, raw, false).0;
      assert !next.p.log.b.phase.ExpectUser?;
      ResultsStayOpen(next, calls, i + 1, false);
    }
  }

  /** NOT_EXECUTED for a call already recorded as started is refused. */
  lemma UnstartedRefused(w: World)
    requires CallNext(w, true)
    ensures
      var (after, status) := CloseOutIncompleteTurn(w, false);
      status != OK && !after.p.log.b.phase.ExpectUser?
  {
    var i, calls := w.c.toolIndex, CurrentCalls(w.c);
    var m := ToolResult(calls[i].id, CANCELLED_NOT_EXECUTED_TEXT);
    var r := MakeRecord(w.p.log.nextId, w.p.turnId, MessagePayload(w, m, ToolNotExecuted, None, false));
    assert w.p.log.b.tools[i].call == calls[i];
    Recovery.FindDistinct(w.p.log.b.tools, i);
    assert Replay.Step(w.p.log.b, r).None?;
    ResultsStayOpen(w, calls, i, false);
  }

  lemma DisturbedEndsOpen(w: World, call: ToolCall, env: Env)
    requires CallNext(w, false) && Room(w, 1) && call == CurrentCalls(w.c)[w.c.toolIndex]
    requires !env.starting.Quiet?
    ensures
      var after := ResolvePermissionBody(w, call, true, env);
      !after.c.busy && !after.p.log.b.phase.ExpectUser?
  {
    hide Commit, CloseOutIncompleteTurn, PersistRecord, Launch, InStep;
    StartedTaken(w, call);
    var announced := w.(p := PersistRecord(w.p, w.p.turnId, ToolStarted(call.id)).0);
    UnstartedRefused(announced);
    assert Detached(announced) == announced;
  }

  /** An allowed call keeps the turn in step exactly when nothing disturbs TOOL_STARTING once it is recorded. */
  lemma DisturbedStartLeavesTurnOpen(w: World, call: ToolCall, env: Env)
    requires CallNext(w, false) && Room(w, |CurrentCalls(w.c)| + 2) && call == CurrentCalls(w.c)[w.c.toolIndex]
    requires w.c.modelSteps <= w.c.maxModelSteps
    ensures
      var after := ResolvePermissionBody(w, call, true, env);
      && (env.starting.Quiet? <==> Kept(w, after))
      && (!env.starting.Quiet? ==> !after.c.busy && !after.p.log.b.phase.ExpectUser?)
  {
    hide ResolvePermissionBody, InStep;
    if env.starting.Quiet? { AllowKeeps(w, call, env); } else { DisturbedEndsOpen(w, call, env); }
  }
}
