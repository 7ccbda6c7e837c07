/** What a steer stops: nothing new starts behind it, but for the one call whose permission is waited for. */
module Steering {
  import opened Basics
  import opened Messages
  import opened History
  import opened ReplayLog
  import opened Conversation
  import opened TurnBounds
  import opened TurnSteps
  import Utf8Stream

  /** A request, a process or a permission wait that was not there before, or one behind another that just ended. */
  predicate Starts(w: World, e: Event) {
    var after := Step(w, e).c;
    || (after.request && (!w.c.request || e.CompletedEvent?))
    || (after.tool && (!w.c.tool || e.ToolDoneEvent?))
    || (after.pendingPermission && !w.c.pendingPermission)
  }

  predicate NothingNew(before: Conv, after: Conv) {
    && (after.request ==> before.request) && (after.tool ==> before.tool)
    && (after.pendingPermission ==> before.pendingPermission)
  }

  lemma NextToolSteered(w: World, env: Env)
    requires w.c.steering
    ensures HandlesKept(w.c, StartNextTool(w, env).c)
  {
    hide FinishSteered;
    SteeredSteps(w);
  }

  lemma CompletedSteered(w: World, env: Env)
    requires w.c.steering
    ensures NothingNew(w.c.(request := false), OnCompleted(w, env).c)
  {
    hide Commit, StartNextTool, FinishWithRepair, BuildAssistant, CurrentCalls;
    var landed := w.(c := w.c.(request := false));
    FinishSteps(landed, PARSE, false);
    if BuildAssistant(landed.c).Some? {
      var m := BuildAssistant(landed.c).value;
      CommitSteps(landed, m, ToolNone, None, false);
      var (said, status) := Commit(landed, m, ToolNone, None, false);
      FinishSteps(said, status, false);
      FinishSteps(RoundOf(said), IO, false);
      NextToolSteered(RoundOf(said), env);
    }
  }

  lemma AnswerSteered(w: World, call: ToolCall, text: bytes, outcome: ToolOutcome, env: Env)
    requires w.c.steering
    ensures NothingNew(w.c, AnswerCall(w, call, text, outcome, env).c)
  {
    hide Commit, StartNextTool, FinishWithRepair;
    CommitSteps(w, ToolResult(call.id, text), outcome, Some(w.c.toolOutput), false);
    var (said, status) := Commit(w, ToolResult(call.id, text), outcome, Some(w.c.toolOutput), false);
    var cleared := said.(c := said.c.(toolOutput := []));
    FinishSteps(cleared, status, true);
    NextToolSteered(cleared.(c := cleared.c.(toolIndex := cleared.c.toolIndex + 1)), env);
  }

  lemma ToolDoneSteered(w: World, kind: nat, code: int, env: Env)
    requires w.c.steering
    ensures NothingNew(w.c.(tool := false), OnToolDone(w, kind, code, env).c)
  {
    hide AnswerCall, FinishWithRepair, CurrentCalls, Utf8Stream.Normalized, ExitText;
    var landed := w.(c := w.c.(tool := false));
    var text := Utf8Stream.Normalized(w.c.toolOutput) + ExitText(kind, code);
    FinishSteps(landed.(c := landed.c.(toolOutput := [])), NOMEM, true);
    if w.c.toolIndex < |CurrentCalls(w.c)| {
      AnswerSteered(landed, CurrentCalls(w.c)[w.c.toolIndex], text,
                    if kind == 0 && code == 0 then ToolCompleted else ToolFailed, env);
    }
  }

  lemma StreamStarts(w: World, e: Event)
    requires e.TextEvent? || e.CallDeltaEvent? || e.ToolOutputEvent?
    ensures NothingNew(w.c, Step(w, e).c)
  {
    hide FinishWithRepair, WithStreamed, FindStreamed, Extend, Limited;
    match e
    case TextEvent(data, shown) =>
      var longer := Limited(w.c.assistant, data);
      var kept := if longer.Some? then w.(c := w.c.(assistant := longer.value)) else w;
      FinishSteps(kept.(c := kept.c.(request := false)), if longer.None? then NOMEM else IO, false);
    case CallDeltaEvent(index, id, name, arguments) =>
      var streamed := WithStreamed(w.c.streamed, index);
      var i := FindStreamed(streamed, index);
      if i < |streamed| {
        var kept := w.(c := w.c.(streamed := streamed[i := Extend(streamed[i], id, name, arguments).0]));
        FinishSteps(kept.(c := kept.c.(request := false)), NOMEM, false);
      }
    case ToolOutputEvent(data, shown) =>
      var longer := Limited(w.c.toolOutput, data);
      var kept := if longer.Some? then w.(c := w.c.(toolOutput := longer.value)) else w;
      FinishSteps(kept.(c := kept.c.(tool := false)), if longer.None? then NOMEM else IO, true);
  }

  lemma FailedStarts(w: World, failure: Status, errorShown: Status)
    ensures NothingNew(w.c, OnFailed(w, failure, errorShown).c)
  {
    hide FinishWithRepair, PersistRecord;
    var status := if errorShown != OK then errorShown else failure;
    var landed := w.(c := w.c.(request := false));
    FinishSteps(landed, status, false);
    var (p, partial) := PersistRecord(w.p, w.p.turnId, PartialAssistant(w.c.assistant, w.p.model));
    FinishSteps(landed.(p := p), if partial != OK then partial else status, false);
  }

  lemma CancelStarts(w: World)
    ensures NothingNew(w.c, Cancel(w).c)
  {
    hide CloseOutIncompleteTurn, PersistRecord, FinishTurn;
    CloseOutSteps(Detached(w), w.c.tool);
    var (closed, status) := CloseOutIncompleteTurn(Detached(w), w.c.tool);
    FinishTurnSteps(closed, status);
    FinishTurnSteps(closed.(c := closed.c.(cancelled := true)), CLOSED);
  }

  lemma QuietStarts(w: World, e: Event)
    requires e.SteerEvent? || e.QueueEvent? || e.ResolveQueueEvent? || e.CompactEvent? || e.SettingEvent?
    ensures NothingNew(w.c, Step(w, e).c)
  {
    hide PersistRecord, Append, AppendStatus;
  }

  /** A permission decision starts no request and no other wait, and no process unless it allows the call. */
  lemma PermissionStarts(w: World, allow: bool, env: Env)
    ensures
      var after := ResolvePermission(w, allow, env).c;
      && (after.request ==> w.c.request)
      && (w.c.pendingPermission && after.pendingPermission ==> after == w.c)
      && (after.pendingPermission ==> w.c.pendingPermission)
      && (after.tool ==> w.c.tool || (allow && w.c.pendingPermission))
  {
    hide ResolvePermissionBody, CurrentCalls;
    if w.c.pendingPermission && w.c.toolIndex < |CurrentCalls(w.c)| {
      DecisionStarts(w.(c := w.c.(pendingPermission := false)), CurrentCalls(w.c)[w.c.toolIndex], allow, env);
    }
  }

  lemma DecisionStarts(w: World, call: ToolCall, allow: bool, env: Env)
    ensures
      var after := ResolvePermissionBody(w, call, allow, env).c;
      && (after.request ==> w.c.request) && (after.pendingPermission ==> w.c.pendingPermission)
      && (after.tool ==> w.c.tool || allow)
  {
    hide Commit, PersistRecord, FinishWithRepair, Cancel;
    if !allow {
      CommitSteps(w, ToolResult(call.id, DENIED_TEXT), ToolDenied, None, false);
      var (denied, status) := Commit(w, ToolResult(call.id, DENIED_TEXT), ToolDenied, None, false);
      var next := denied.(c := denied.c.(toolIndex := w.c.toolIndex + 1));
      FinishSteps(next, if status != OK then status else DENIED, false);
    } else {
      var (p, status) := PersistRecord(w.p, w.p.turnId, ToolStarted(call.id));
      var announced := w.(p := p);
      FinishSteps(announced, status, false);
      FinishSteps(announced, IO, false);
      CancelStarts(announced);
      FinishSteps(announced, env.resolve, true);
      FinishSteps(announced, env.setup, true);
    }
  }

  /** Behind a steer only allowing the pending call starts anything. */
  lemma SteeredStarts(w: World, e: Event)
    requires w.c.steering && !e.StartEvent?
    ensures Starts(w, e) ==> e.PermissionEvent? && e.allow && w.c.pendingPermission
    ensures Step(w, e).c.steering
    ensures Step(w, e).c.pendingPermission ==> w.c.pendingPermission && !Starts(w, e)
  {
    hide OnText, OnCallDelta, OnCompleted, OnFailed, OnToolOutput, OnToolDone, ResolvePermission, Cancel;
    StepSteps(w, e);
    match e
    case CompletedEvent(env) => CompletedSteered(w, env);
    case FailedEvent(status, errorShown) => FailedStarts(w, status, errorShown);
    case ToolDoneEvent(kind, code, env) => ToolDoneSteered(w, kind, code, env);
    case PermissionEvent(allow, env) => PermissionStarts(w, allow, env);
    case CancelEvent => CancelStarts(w);
    case TextEvent(_, _) => StreamStarts(w, e);
    case CallDeltaEvent(_, _, _, _) => StreamStarts(w, e);
    case ToolOutputEvent(_, _) => StreamStarts(w, e);
    case _ => QuietStarts(w, e);
  }

  function Started(w: World, es: seq<Event>): (n: nat)
    decreases es
  {
    if es == [] then 0 else (if Starts(w, es[0]) then 1 else 0) + Started(Step(w, es[0]), es[1..])
  }

  /** Over any run of the turn behind a steer, at most the one call whose permission is waited for starts. */
  lemma {:induction false} SteeredRun(w: World, es: seq<Event>)
    requires w.c.steering && NoStart(es)
    ensures Started(w, es) <= if w.c.pendingPermission then 1 else 0
    decreases es
  {
    if es != [] {
      SteeredStarts(w, es[0]);
      assert forall i :: 0 <= i < |es[1..]| ==> es[1..][i] == es[i + 1];
      hide Step, Starts;
      SteeredRun(Step(w, es[0]), es[1..]);
    }
  }

  /** That call starts exactly when it is allowed, undisturbed, and its process can be launched, steered or not. */
  lemma PendingStarts(w: World, allow: bool, env: Env)
    requires Running(w) && w.c.pendingPermission && Roomy(w)
    ensures
      ResolvePermission(w, allow, env).c.tool
      <==> allow && env.starting.Quiet? && env.resolve == OK && env.setup == OK
  {
    hide Commit, CloseOutIncompleteTurn, PersistRecord;
    var call := CurrentCalls(w.c)[w.c.toolIndex];
    var decided := w.(c := w.c.(pendingPermission := false));
    StartedTaken(decided, call);
    LaunchSays(decided, call, allow, env);
  }

  lemma LaunchSays(w: World, call: ToolCall, allow: bool, env: Env)
    requires !w.c.tool
    requires PersistRecord(w.p, w.p.turnId, ToolStarted(call.id)).1 == OK
    ensures
      ResolvePermissionBody(w, call, allow, env).c.tool
      <==> allow && env.starting.Quiet? && env.resolve == OK && env.setup == OK
  {
    hide Commit, PersistRecord, FinishWithRepair, Cancel;
    if !allow {
      DecisionStarts(w, call, allow, env);
    } else {
      var announced := w.(p := PersistRecord(w.p, w.p.turnId, ToolStarted(call.id)).0);
      FinishSteps(announced, IO, false);
      CancelStarts(announced);
      FinishSteps(announced, env.resolve, true);
      FinishSteps(announced, env.setup, true);
    }
  }
}
