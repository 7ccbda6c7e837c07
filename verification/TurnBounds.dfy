/** How many callbacks one turn can have: a bound over whole runs, by step limit and calls asked for. */
module TurnBounds {
  import opened Basics
  import opened Messages
  import opened History
  import opened ReplayLog
  import opened Conversation
  import opened Simulation
  import opened TurnSteps
  import opened TurnClosure
  import opened TurnProgress
  import JsonArena
  import Utf8Stream

  // ----- what is counted -----

  /** The calls of the reply that has streamed in. */
  function CallsOfReply(c: Conv): (n: nat) {
    var sorted := SortByIndex(c.streamed);
    if CallsComplete(sorted) then |sorted| else 0
  }

  /** A model reply that arrives whole. */
  function Reply(e: Event): (n: nat) {
    if e.CompletedEvent? then 1 else 0
  }

  /** A tool that ends. */
  function Result(e: Event): (n: nat) {
    if e.ToolDoneEvent? then 1 else 0
  }

  /** An answer to a permission that is waited for. */
  function Decided(w: World, e: Event): (n: nat) {
    if e.PermissionEvent? && w.c.pendingPermission then 1 else 0
  }

  /** The calls this event's reply asks for. */
  function Asked(w: World, e: Event): (n: nat) {
    if e.CompletedEvent? then CallsOfReply(w.c) else 0
  }

  datatype Tally = Tally(replies: nat, results: nat, decisions: nat, asked: nat)

  /** The four counts over a run. */
  function Tallied(w: World, es: seq<Event>): (t: Tally)
    decreases es
  {
    if es == [] then Tally(0, 0, 0, 0)
    else
      var rest := Tallied(Step(w, es[0]), es[1..]);
      Tally(Reply(es[0]) + rest.replies, Result(es[0]) + rest.results,
            Decided(w, es[0]) + rest.decisions, Asked(w, es[0]) + rest.asked)
  }

  // ----- what is left -----

  /** Replies that can still arrive: one per step left, and the one a request is out for. */
  function RepliesLeft(c: Conv): (n: int) {
    if !c.busy then 0 else c.maxModelSteps - c.modelSteps + (if c.request then 1 else 0)
  }

  /** Calls of the current reply without a result. */
  function ResultsLeft(c: Conv): (n: int) {
    if !c.busy || c.request then 0 else |CurrentCalls(c)| - c.toolIndex
  }

  /** Calls of the current reply not yet decided on. */
  function DecisionsLeft(c: Conv): (n: int) {
    ResultsLeft(c) - (if c.busy && !c.request && c.tool then 1 else 0)
  }

  /** The counts of one event are paid for by what is left, and by the calls its reply asks for. */
  predicate Paid(w: World, e: Event, after: Conv) {
    && RepliesLeft(after) + Reply(e) <= RepliesLeft(w.c)
    && ResultsLeft(after) + Result(e) <= ResultsLeft(w.c) + Asked(w, e)
    && DecisionsLeft(after) + Decided(w, e) <= DecisionsLeft(w.c) + Asked(w, e)
  }

  lemma InvLeft(w: World)
    requires Inv(w)
    ensures RepliesLeft(w.c) >= 0 && ResultsLeft(w.c) >= 0 && DecisionsLeft(w.c) >= 0
    ensures w.c.busy && w.c.request ==> RepliesLeft(w.c) >= 1
    ensures w.c.busy && w.c.tool ==> ResultsLeft(w.c) >= 1 && !w.c.request
    ensures w.c.busy && w.c.pendingPermission ==> DecisionsLeft(w.c) >= 1
  {
  }

  lemma CompletedPays(w: World, e: Event)
    requires Running(w) && w.c.request && e.CompletedEvent?
    ensures Paid(w, e, Step(w, e).c)
  {
    hide Commit, StartNextTool, PersistRecord, CloseOutIncompleteTurn, SortByIndex, CallsComplete;
    var landed := w.(c := w.c.(request := false));
    assert BuildAssistant(landed.c) == BuildAssistant(w.c);
    if BuildAssistant(landed.c).Some? {
      var m := BuildAssistant(landed.c).value;
      CommitSays(landed, m);
      var said := Commit(landed, m, ToolNone, None, false).0;
      NextToolOutcome(RoundOf(said), e.env);
    }
  }

  lemma CommitSays(w: World, m: Message)
    ensures
      var (said, status) := Commit(w, m, ToolNone, None, false);
      said.c == if status == OK then w.c.(messages := w.c.messages + [m]) else w.c
  {
    hide PersistRecord;
  }

  lemma ToolDonePays(w: World, e: Event)
    requires Running(w) && w.c.tool && Roomy(w) && e.ToolDoneEvent?
    ensures Paid(w, e, Step(w, e).c)
  {
    hide AnswerCall, FinishWithRepair, Utf8Stream.Normalized, ExitText, CurrentCalls;
    var landed := w.(c := w.c.(tool := false));
    var text := Utf8Stream.Normalized(w.c.toolOutput) + ExitText(e.kind, e.code);
    var outcome := if e.kind == 0 && e.code == 0 then ToolCompleted else ToolFailed;
    if |text| <= MAX_CONTENT {
      AnswerPays(w, landed, text, outcome, e.env);
    } else {
      FinishedIdle(landed.(c := landed.c.(toolOutput := [])), NOMEM, true);
    }
  }

  lemma FinishedIdle(w: World, status: Status, firstStarted: bool)
    ensures !FinishWithRepair(w, status, firstStarted).c.busy
  {
    hide CloseOutIncompleteTurn;
  }

  /** One answer spends one call, and at most a request is made behind it. */
  lemma AnswerPays(w: World, landed: World, text: bytes, outcome: ToolOutcome, env: Env)
    requires Running(w) && w.c.tool && Roomy(w) && landed == w.(c := w.c.(tool := false))
    requires |text| <= MAX_CONTENT && (outcome.ToolCompleted? || outcome.ToolFailed?)
    ensures
      var after := AnswerCall(landed, CurrentCalls(w.c)[w.c.toolIndex], text, outcome, env).c;
      && RepliesLeft(after) <= RepliesLeft(w.c)
      && ResultsLeft(after) + 1 <= ResultsLeft(w.c)
      && DecisionsLeft(after) <= DecisionsLeft(w.c)
  {
    LandedNext(w, landed);
    hide AnswerCall, StartNextTool, CallNext, RoundDone, Running, Roomy, Room, Answered;
    var moved := AnswerContinues(landed, text, outcome, env);
    MovedClear(moved);
    NextToolOutcome(moved, env);
  }

  lemma LandedNext(w: World, landed: World)
    requires Running(w) && w.c.tool && Roomy(w) && landed == w.(c := w.c.(tool := false))
    ensures w.c.busy && !w.c.request && CallNext(landed, true) && Room(landed, 1)
    ensures CurrentCalls(landed.c) == CurrentCalls(w.c)
  {
  }

  lemma MovedClear(moved: World)
    requires RoundDone(moved) || CallNext(moved, false)
    ensures NothingInFlight(moved.c)
  {
  }

  lemma PermissionPays(w: World, e: Event)
    requires Running(w) && w.c.pendingPermission && e.PermissionEvent?
    ensures Paid(w, e, Step(w, e).c)
  {
    hide PersistRecord, CloseOutIncompleteTurn, Commit;
    InvLeftRunning(w);
  }

  lemma InvLeftRunning(w: World)
    requires Running(w)
    ensures RepliesLeft(w.c) >= 0 && ResultsLeft(w.c) >= 0 && DecisionsLeft(w.c) >= 0
    ensures w.c.pendingPermission ==> DecisionsLeft(w.c) >= 1
  {
  }

  lemma StepPays(w: World, e: Event)
    requires Inv(w) && Roomy(w) && Enabled(w, e) && !e.StartEvent?
    ensures Paid(w, e, Step(w, e).c)
  {
    InvLeft(w);
    if e.CompletedEvent? {
      CompletedPays(w, e);
    } else if e.ToolDoneEvent? {
      ToolDonePays(w, e);
    } else if e.PermissionEvent? && w.c.pendingPermission {
      PermissionPays(w, e);
    } else if e.TextEvent? || e.CallDeltaEvent? || e.ToolOutputEvent? {
      StreamPays(w, e);
    } else if e.FailedEvent? || e.CancelEvent? {
      EndPays(w, e);
    } else {
      QuietPays(w, e);
    }
  }

  /** Text and call fragments leave the request out, output leaves the tool running, or the turn ends. */
  lemma StreamPays(w: World, e: Event)
    requires e.TextEvent? || e.CallDeltaEvent? || e.ToolOutputEvent?
    requires RepliesLeft(w.c) >= 0 && ResultsLeft(w.c) >= 0 && DecisionsLeft(w.c) >= 0
    ensures Paid(w, e, Step(w, e).c)
  {
    hide CloseOutIncompleteTurn, Extend, FindStreamed, WithStreamed;
  }

  lemma EndPays(w: World, e: Event)
    requires e.FailedEvent? || e.CancelEvent?
    requires RepliesLeft(w.c) >= 0 && ResultsLeft(w.c) >= 0 && DecisionsLeft(w.c) >= 0
    ensures Paid(w, e, Step(w, e).c)
  {
    hide CloseOutIncompleteTurn, PersistRecord, Detached;
  }

  /** Nothing in flight moves. */
  lemma QuietPays(w: World, e: Event)
    requires e.SteerEvent? || e.QueueEvent? || e.ResolveQueueEvent? || e.SettingEvent? || (e.CompactEvent? && !w.c.busy)
             || (e.PermissionEvent? && !w.c.pendingPermission)
    ensures Paid(w, e, Step(w, e).c)
  {
    hide PersistRecord, Append, AppendStatus;
  }

  // ----- model requests -----

  /** Requests are counted by `modelSteps`, which the limit stops; a steer stays. */
  predicate StepsKept(before: Conv, after: Conv) {
    && after.modelSteps == before.modelSteps && after.maxModelSteps == before.maxModelSteps
    && (before.steering ==> after.steering)
  }

  predicate HandlesKept(before: Conv, after: Conv) {
    && StepsKept(before, after)
    && after.request == before.request && after.tool == before.tool
    && after.pendingPermission == before.pendingPermission
  }

  predicate StepsWithin(before: Conv, after: Conv) {
    && after.maxModelSteps == before.maxModelSteps
    && (before.steering ==> after.steering)
    && before.modelSteps <= after.modelSteps
    && (before.modelSteps <= before.maxModelSteps ==> after.modelSteps <= after.maxModelSteps)
  }

  lemma CommitSteps(w: World, m: Message, outcome: ToolOutcome, raw: Option<bytes>, isRepair: bool)
    ensures HandlesKept(w.c, Commit(w, m, outcome, raw, isRepair).0.c)
  {
    hide PersistRecord;
  }

  lemma {:induction false} RepairFromSteps(w: World, calls: seq<ToolCall>, i: nat, started: bool)
    ensures HandlesKept(w.c, RepairFrom(w, calls, i, started).0.c)
    decreases |calls| - i
  {
    hide Commit;
    if i < |calls| {
      CommitSteps(w, ToolResult(calls[i].id, CANCELLED_UNKNOWN_TEXT), ToolUnknown, Some(w.c.toolOutput), false);
      CommitSteps(w, ToolResult(calls[i].id, CANCELLED_NOT_EXECUTED_TEXT), ToolNotExecuted, None, false);
      RepairFromSteps(RepairCall(w, calls[i], started).0, calls, i + 1, false);
    }
  }

  lemma {:induction false} SkipSteps(w: World, calls: seq<ToolCall>, i: nat)
    ensures HandlesKept(w.c, SkipSteeredFrom(w, calls, i).0.c)
    decreases |calls| - i
  {
    hide Commit;
    if i < |calls| {
      var m := ToolResult(calls[i].id, STEERED_NOT_EXECUTED_TEXT);
      CommitSteps(w, m, ToolNotExecuted, None, false);
      SkipSteps(Commit(w, m, ToolNotExecuted, None, false).0, calls, i + 1);
    }
  }

  lemma CloseOutSteps(w: World, started: bool)
    ensures HandlesKept(w.c, CloseOutIncompleteTurn(w, started).0.c)
  {
    hide Commit, RepairFrom, CurrentCalls;
    RepairFromSteps(w, CurrentCalls(w.c), w.c.toolIndex, started);
    CommitSteps(RepairDanglingCalls(w, started).0, Assistant(INTERRUPTED_TURN_TEXT, []), ToolNone, None, true);
    CommitSteps(w, Assistant(INTERRUPTED_TURN_TEXT, []), ToolNone, None, true);
  }

  lemma FinishSteps(w: World, status: Status, started: bool)
    ensures HandlesKept(w.c, FinishWithRepair(w, status, started).c)
  {
    hide CloseOutIncompleteTurn;
    CloseOutSteps(w, started);
  }

  lemma SteeredSteps(w: World)
    ensures HandlesKept(w.c, FinishSteered(w).c)
  {
    hide Commit, SkipSteeredFrom, CurrentCalls;
    SkipSteps(w, CurrentCalls(w.c), w.c.toolIndex);
    var skipped := SkipSteeredFrom(w, CurrentCalls(w.c), w.c.toolIndex).0;
    CommitSteps(skipped, Assistant(STEERED_TURN_TEXT, []), ToolNone, None, true);
  }

  lemma FinishTurnSteps(w: World, status: Status)
    ensures HandlesKept(w.c, FinishTurn(w, status).c)
  {
  }

  lemma DetachedSteps(w: World)
    ensures StepsKept(w.c, Detached(w).c)
  {
    hide PersistRecord;
  }

  lemma CancelSteps(w: World)
    ensures StepsKept(w.c, Cancel(w).c)
  {
    hide CloseOutIncompleteTurn, Detached, FinishTurn;
    DetachedSteps(w);
    CloseOutSteps(Detached(w), w.c.tool);
    var (closed, status) := CloseOutIncompleteTurn(Detached(w), w.c.tool);
    FinishTurnSteps(closed, status);
    FinishTurnSteps(closed.(c := closed.c.(cancelled := true)), CLOSED);
  }

  lemma DecisionSteps(w: World, call: ToolCall, allow: bool, env: Env)
    ensures StepsKept(w.c, ResolvePermissionBody(w, call, allow, env).c)
  {
    hide Commit, PersistRecord, FinishWithRepair, Cancel;
    if !allow {
      CommitSteps(w, ToolResult(call.id, DENIED_TEXT), ToolDenied, None, false);
      var (denied, status) := Commit(w, ToolResult(call.id, DENIED_TEXT), ToolDenied, None, false);
      var next := denied.(c := denied.c.(toolIndex := w.c.toolIndex + 1));
      FinishSteps(next, if status != OK then status else DENIED, false);
    } else {
      var (p, status) := PersistRecord(w.p, w.p.turnId, ToolStarted(call.id));
      var announced := w.(p := p);
      FinishSteps(announced, status, false);
      FinishSteps(announced, IO, false);
      CancelSteps(announced);
      FinishSteps(announced, env.resolve, true);
      FinishSteps(announced, env.setup, true);
    }
  }

  lemma CallSteps(w: World, call: ToolCall, env: Env)
    ensures StepsKept(w.c, RequestToolCall(w, call, env).c)
  {
    hide ResolvePermissionBody, FinishWithRepair, Cancel;
    DecisionSteps(w, call, true, env);
    DecisionSteps(w, call, false, env);
    FinishSteps(w.(c := w.c.(pendingPermission := false)), IO, false);
    CancelSteps(w.(c := w.c.(pendingPermission := true)));
  }

  lemma NextToolSteps(w: World, env: Env)
    ensures StepsWithin(w.c, StartNextTool(w, env).c)
  {
    hide FinishWithRepair, FinishSteered, RequestToolCall, CurrentCalls;
    SteeredSteps(w);
    var (asked, status) := StartModelRequest(w, env);
    FinishSteps(asked, status, false);
    if w.c.toolIndex < |CurrentCalls(w.c)| {
      var call := CurrentCalls(w.c)[w.c.toolIndex];
      FinishSteps(w, JsonArena.ArgumentsStatus(call.arguments, TURN_ARENA), false);
      FinishSteps(w, env.toolStart, false);
      CallSteps(w, call, env);
    }
  }

  lemma CompletedSteps(w: World, env: Env)
    ensures StepsWithin(w.c, OnCompleted(w, env).c)
  {
    hide Commit, StartNextTool, FinishWithRepair, BuildAssistant, CurrentCalls;
    var landed := w.(c := w.c.(request := false));
    FinishSteps(landed, PARSE, false);
    if BuildAssistant(landed.c).Some? {
      var m := BuildAssistant(landed.c).value;
      CommitSteps(landed, m, ToolNone, None, false);
      var (said, status) := Commit(landed, m, ToolNone, None, false);
      FinishSteps(said, status, false);
      FinishSteps(RoundOf(said), IO, false);
      NextToolSteps(RoundOf(said), env);
    }
  }

  lemma AnswerSteps(w: World, call: ToolCall, text: bytes, outcome: ToolOutcome, env: Env)
    ensures StepsWithin(w.c, AnswerCall(w, call, text, outcome, env).c)
  {
    hide Commit, StartNextTool, FinishWithRepair;
    CommitSteps(w, ToolResult(call.id, text), outcome, Some(w.c.toolOutput), false);
    var (said, status) := Commit(w, ToolResult(call.id, text), outcome, Some(w.c.toolOutput), false);
    var cleared := said.(c := said.c.(toolOutput := []));
    FinishSteps(cleared, status, true);
    NextToolSteps(cleared.(c := cleared.c.(toolIndex := cleared.c.toolIndex + 1)), env);
  }

  lemma ToolDoneSteps(w: World, kind: nat, code: int, env: Env)
    ensures StepsWithin(w.c, OnToolDone(w, kind, code, env).c)
  {
    hide AnswerCall, FinishWithRepair, CurrentCalls, Utf8Stream.Normalized, ExitText;
    var landed := w.(c := w.c.(tool := false));
    var text := Utf8Stream.Normalized(w.c.toolOutput) + ExitText(kind, code);
    FinishSteps(landed.(c := landed.c.(toolOutput := [])), NOMEM, true);
    if w.c.toolIndex < |CurrentCalls(w.c)| {
      AnswerSteps(landed, CurrentCalls(w.c)[w.c.toolIndex], text,
                  if kind == 0 && code == 0 then ToolCompleted else ToolFailed, env);
    }
  }

  lemma PermissionSteps(w: World, allow: bool, env: Env)
    ensures StepsKept(w.c, ResolvePermission(w, allow, env).c)
  {
    hide ResolvePermissionBody, CurrentCalls;
    if w.c.toolIndex < |CurrentCalls(w.c)| {
      DecisionSteps(w.(c := w.c.(pendingPermission := false)), CurrentCalls(w.c)[w.c.toolIndex], allow, env);
    }
  }

  lemma TextSteps(w: World, data: bytes, shown: bool)
    ensures StepsKept(w.c, OnText(w, data, shown).c) && StepsKept(w.c, OnToolOutput(w, data, shown).c)
  {
    hide FinishWithRepair;
    var kept := if Limited(w.c.assistant, data).Some? then w.(c := w.c.(assistant := w.c.assistant + data)) else w;
    FinishSteps(kept.(c := kept.c.(request := false)), NOMEM, false);
    FinishSteps(kept.(c := kept.c.(request := false)), IO, false);
    var held := if Limited(w.c.toolOutput, data).Some? then w.(c := w.c.(toolOutput := w.c.toolOutput + data)) else w;
    FinishSteps(held.(c := held.c.(tool := false)), NOMEM, true);
    FinishSteps(held.(c := held.c.(tool := false)), IO, true);
  }

  lemma DeltaSteps(w: World, index: nat, id: bytes, name: bytes, arguments: bytes)
    ensures StepsKept(w.c, OnCallDelta(w, index, id, name, arguments).c)
  {
    hide FinishWithRepair, WithStreamed, FindStreamed, Extend;
    var streamed := WithStreamed(w.c.streamed, index);
    var i := FindStreamed(streamed, index);
    if i < |streamed| {
      var kept := w.(c := w.c.(streamed := streamed[i := Extend(streamed[i], id, name, arguments).0]));
      FinishSteps(kept.(c := kept.c.(request := false)), NOMEM, false);
    }
  }

  lemma FailedSteps(w: World, failure: Status, errorShown: Status)
    ensures StepsKept(w.c, OnFailed(w, failure, errorShown).c)
  {
    hide FinishWithRepair, PersistRecord;
    var status := if errorShown != OK then errorShown else failure;
    var landed := w.(c := w.c.(request := false));
    FinishSteps(landed, status, false);
    var (p, partial) := PersistRecord(w.p, w.p.turnId, PartialAssistant(w.c.assistant, w.p.model));
    FinishSteps(landed.(p := p), if partial != OK then partial else status, false);
  }

  lemma QuietSteps(w: World, e: Event)
    requires e.SteerEvent? || e.QueueEvent? || e.ResolveQueueEvent? || e.CompactEvent? || e.SettingEvent?
    ensures StepsKept(w.c, Step(w, e).c)
  {
    hide PersistRecord, Append, AppendStatus;
  }

  /** Any callback but a start leaves the count of requests within the limit. */
  lemma StepSteps(w: World, e: Event)
    requires !e.StartEvent?
    ensures StepsWithin(w.c, Step(w, e).c)
  {
    hide OnText, OnCallDelta, OnCompleted, OnFailed, OnToolOutput, OnToolDone, ResolvePermission, Cancel;
    match e
    case TextEvent(data, shown) => TextSteps(w, data, shown);
    case CallDeltaEvent(index, id, name, arguments) => DeltaSteps(w, index, id, name, arguments);
    case CompletedEvent(env) => CompletedSteps(w, env);
    case FailedEvent(status, errorShown) => FailedSteps(w, status, errorShown);
    case ToolOutputEvent(data, shown) => TextSteps(w, data, shown);
    case ToolDoneEvent(kind, code, env) => ToolDoneSteps(w, kind, code, env);
    case PermissionEvent(allow, env) => PermissionSteps(w, allow, env);
    case CancelEvent => CancelSteps(w);
    case _ => QuietSteps(w, e);
  }

  lemma {:induction false} RunSteps(w: World, es: seq<Event>)
    requires NoStart(es)
    ensures StepsWithin(w.c, Run(w, es).c)
    decreases es
  {
    hide Step;
    if es != [] {
      StepSteps(w, es[0]);
      assert forall i :: 0 <= i < |es[1..]| ==> es[1..][i] == es[i + 1];
      RunSteps(Step(w, es[0]), es[1..]);
    }
  }

  // ----- whole runs -----

  predicate NoStart(es: seq<Event>) {
    forall i :: 0 <= i < |es| ==> !es[i].StartEvent?
  }

  /** Over any run within one turn, what has been counted and what is left stay within what there was. */
  lemma {:induction false} RunPays(w: World, es: seq<Event>)
    requires Inv(w) && RunEnabled(w, es) && NoStart(es)
    ensures
      var t, after := Tallied(w, es), Run(w, es).c;
      && t.replies + RepliesLeft(after) <= RepliesLeft(w.c)
      && t.results + ResultsLeft(after) <= ResultsLeft(w.c) + t.asked
      && t.decisions + DecisionsLeft(after) <= DecisionsLeft(w.c) + t.asked
    decreases es
  {
    if es != [] {
      StepKeepsInv(w, es[0]);
      StepPays(w, es[0]);
      assert forall i :: 0 <= i < |es[1..]| ==> es[1..][i] == es[i + 1];
      RunPays(Step(w, es[0]), es[1..]);
    }
  }

  /**
   * One turn, from the user's message on: no more requests and no more replies than model steps, and no more tool
   * results and no more permission answers than calls the replies asked for.
   */
  lemma TurnIsBounded(w: World, content: bytes, env: Env, es: seq<Event>)
    requires Inv(w) && RunEnabled(w, [StartEvent(content, env)] + es) && NoStart(es)
    ensures
      var begun := Start(w, content, env);
      var t, after := Tallied(begun, es), Run(begun, es).c;
      && after.modelSteps <= w.c.maxModelSteps
      && t.replies <= w.c.maxModelSteps
      && t.results <= t.asked
      && t.decisions <= t.asked
  {
    var e := StartEvent(content, env);
    var begun := Start(w, content, env);
    assert ([e] + es)[1..] == es && ([e] + es)[0] == e;
    StepKeepsInv(w, e);
    BegunLeft(w, content, env);
    hide Inv, Run, Step, Start, Tallied, RunEnabled, Roomy, Enabled, NoStart, RepliesLeft, ResultsLeft, DecisionsLeft;
    RunSteps(begun, es);
    RunPays(begun, es);
    RunKeepsInv(begun, es);
    InvLeft(Run(begun, es));
  }

  lemma BegunLeft(w: World, content: bytes, env: Env)
    requires Inv(w) && Roomy(w) && Enabled(w, StartEvent(content, env))
    ensures
      var begun := Start(w, content, env);
      && begun.c.modelSteps <= begun.c.maxModelSteps == w.c.maxModelSteps
      && RepliesLeft(begun.c) <= w.c.maxModelSteps && ResultsLeft(begun.c) == DecisionsLeft(begun.c) == 0
  {
    StartRuns(w, content, env);
  }
}
