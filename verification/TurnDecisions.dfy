/** Who decides what in a turn: the policy on each call, the step limit on each round, the steer on both. */
module TurnDecisions {
  import opened Basics
  import opened Messages
  import opened History
  import opened Conversation
  import opened Simulation
  import opened TurnEffects
  import opened TurnSteps
  import JsonArena

  function CallInTurn(c: Conv): (call: ToolCall)
    requires c.toolIndex < |CurrentCalls(c)|
  {
    CurrentCalls(c)[c.toolIndex]
  }

  /** The calls from `i` on were never started, and the turn is interrupted. */
  function Interrupted(calls: seq<ToolCall>, i: nat): (ps: seq<Payload>) {
    AllUnstarted(calls, i, CANCELLED_NOT_EXECUTED_TEXT) + [Bookend(INTERRUPTED_TURN_TEXT)]
  }

  lemma ClosingUnstarted(c: Conv)
    requires c.assistantCommitted
    ensures Closing(c, false) == Interrupted(CurrentCalls(c), c.toolIndex)
  {
  }

  lemma ClosingStarted(c: Conv)
    requires c.assistantCommitted && c.toolIndex < |CurrentCalls(c)|
    ensures
      Closing(c, true)
      == [CutOff(CallInTurn(c), c.toolOutput)] + Interrupted(CurrentCalls(c), c.toolIndex + 1)
  {
    var rest := AllUnstarted(CurrentCalls(c), c.toolIndex + 1, CANCELLED_NOT_EXECUTED_TEXT);
    assert [CutOff(CallInTurn(c), c.toolOutput)] + rest + [Bookend(INTERRUPTED_TURN_TEXT)]
        == [CutOff(CallInTurn(c), c.toolOutput)] + (rest + [Bookend(INTERRUPTED_TURN_TEXT)]);
  }

  // ----- a decision on the call in turn -----

  /** A denied call: its own result says so, nothing was started, and the turn is over. */
  predicate DeniedEnd(w: World, after: World)
    requires w.c.toolIndex < |CurrentCalls(w.c)|
  {
    EndedWith(w, after, DENIED,
              [Unstarted(CallInTurn(w.c), DENIED_TEXT)] + Interrupted(CurrentCalls(w.c), w.c.toolIndex + 1))
  }

  /** What setting up the process comes to. */
  function LaunchStatus(env: Env): (status: Status) {
    if env.resolve != OK then env.resolve else env.setup
  }

  /** An allowed call: recorded as started, then running, unless its process cannot be set up. */
  predicate AllowedStart(w: World, after: World, env: Env)
    requires w.c.toolIndex < |CurrentCalls(w.c)|
  {
    var call := CallInTurn(w.c);
    if LaunchStatus(env) == OK then
      after.c == w.c.(tool := true) && Did(w, after, [ToolStarted(call.id)])
    else
      EndedWith(w, after, LaunchStatus(env),
                [ToolStarted(call.id), CutOff(call, w.c.toolOutput)]
                + Interrupted(CurrentCalls(w.c), w.c.toolIndex + 1))
  }

  lemma DenialDoes(w: World, call: ToolCall, env: Env)
    requires CallNext(w, false) && Room(w, |CurrentCalls(w.c)| + 2) && call == CallInTurn(w.c)
    ensures DeniedEnd(w, ResolvePermissionBody(w, call, false, env))
  {
    var moved := DenialMoves(w, call);
    hide Commit, FinishWithRepair, InRound, ReplyDue, Did, Idle, CurrentCalls, Interrupted, Closing;
    RepairDoes(moved, DENIED, false);
    ClosingUnstarted(moved.c);
    EndedBehind(w, moved, FinishWithRepair(moved, DENIED, false), DENIED,
                [Unstarted(call, DENIED_TEXT)], Interrupted(CurrentCalls(w.c), w.c.toolIndex + 1));
  }

  /** The denial's own record, after which the calls behind it are open. */
  lemma DenialMoves(w: World, call: ToolCall) returns (moved: World)
    requires CallNext(w, false) && Room(w, |CurrentCalls(w.c)| + 2) && call == CallInTurn(w.c)
    ensures DenyAndClose(w, call) == FinishWithRepair(moved, DENIED, false)
    ensures Did(w, moved, [Unstarted(call, DENIED_TEXT)]) && Closable(moved, false)
    ensures moved.p == w.p.(log := moved.p.log)
    ensures moved.c.assistantCommitted && moved.c.toolIndex == w.c.toolIndex + 1
    ensures CurrentCalls(moved.c) == CurrentCalls(w.c)
  {
    hide Did, FinishWithRepair, PersistRecord;
    var i := w.c.toolIndex;
    ResultTaken(w, i, false, DENIED_TEXT, ToolDenied, None);
    ResultDoes(w, i, false, DENIED_TEXT, ToolDenied, None);
    var denied := Commit(w, ToolResult(call.id, DENIED_TEXT), ToolDenied, None, false).0;
    hide Commit;
    moved := denied.(c := denied.c.(toolIndex := i + 1));
    assert if i + 1 < |CurrentCalls(w.c)| then InRound(moved, i + 1, false) else ReplyDue(moved);
    DidAlike(w, denied, w, moved, [Unstarted(call, DENIED_TEXT)]);
  }

  lemma LaunchFails(w: World, started: World, status: Status)
    requires w.c.toolIndex < |CurrentCalls(w.c)|
    requires CallNext(started, true) && Room(started, |CurrentCalls(w.c)| + 1)
    requires started == w.(p := w.p.(log := started.p.log)) && Did(w, started, [ToolStarted(CallInTurn(w.c).id)])
    ensures
      var call := CallInTurn(w.c);
      EndedWith(w, FinishWithRepair(started, status, true), status,
                [ToolStarted(call.id), CutOff(call, w.c.toolOutput)]
                + Interrupted(CurrentCalls(w.c), w.c.toolIndex + 1))
  {
    hide FinishWithRepair, Did, Idle, InRound, CurrentCalls, Interrupted, ReplyDue, IdsFit, Closing;
    var call := CallInTurn(w.c);
    RepairDoes(started, status, true);
    ClosingStarted(started.c);
    EndedBehind(w, started, FinishWithRepair(started, status, true), status,
                [ToolStarted(call.id)], Closing(started.c, true));
    assert [ToolStarted(call.id)]
           + ([CutOff(call, w.c.toolOutput)] + Interrupted(CurrentCalls(w.c), w.c.toolIndex + 1))
        == [ToolStarted(call.id), CutOff(call, w.c.toolOutput)] + Interrupted(CurrentCalls(w.c), w.c.toolIndex + 1);
  }

  lemma StartMoves(w: World, call: ToolCall, env: Env) returns (started: World)
    requires CallNext(w, false) && Room(w, |CurrentCalls(w.c)| + 2) && call == CallInTurn(w.c)
    requires env.starting.Quiet?
    ensures ResolvePermissionBody(w, call, true, env) == Launch(started, env)
    ensures CallNext(started, true) && Room(started, |CurrentCalls(w.c)| + 1)
    ensures started == w.(p := w.p.(log := started.p.log)) && Did(w, started, [ToolStarted(call.id)])
  {
    hide PersistRecord, Launch, Did;
    StartedTaken(w, call);
    hide CallNext, InRound;
    PersistDoes(w, ToolStarted(call.id));
    started := w.(p := PersistRecord(w.p, w.p.turnId, ToolStarted(call.id)).0);
  }

  lemma AllowanceDoes(w: World, call: ToolCall, env: Env)
    requires CallNext(w, false) && Room(w, |CurrentCalls(w.c)| + 2) && call == CallInTurn(w.c)
    requires env.starting.Quiet?
    ensures AllowedStart(w, ResolvePermissionBody(w, call, true, env), env)
  {
    assert w.c.toolIndex < |CurrentCalls(w.c)|;
    hide ResolvePermissionBody, CallNext, Room, FinishWithRepair, Launch, Did, Interrupted, CurrentCalls, EndedWith,
         AllowedStart;
    var started := StartMoves(w, call, env);
    LaunchFails(w, started, LaunchStatus(env));
    DidAlike(w, started, w, started.(c := started.c.(tool := true)), [ToolStarted(call.id)]);
    LaunchSays(w, started, env);
  }

  lemma LaunchSays(w: World, started: World, env: Env)
    requires w.c.toolIndex < |CurrentCalls(w.c)| && started.c == w.c
    requires
      EndedWith(w, FinishWithRepair(started, LaunchStatus(env), true), LaunchStatus(env),
                [ToolStarted(CallInTurn(w.c).id), CutOff(CallInTurn(w.c), w.c.toolOutput)]
                + Interrupted(CurrentCalls(w.c), w.c.toolIndex + 1))
    requires Did(w, started.(c := started.c.(tool := true)), [ToolStarted(CallInTurn(w.c).id)])
    ensures AllowedStart(w, Launch(started, env), env)
  {
    hide FinishWithRepair, EndedWith, Did, Interrupted;
  }

  // ----- the tool loop -----

  /** Why the call in turn cannot even be decided on: its arguments, or the registry. */
  function StagingStatus(c: Conv, env: Env): (status: Status)
    requires c.toolIndex < |CurrentCalls(c)|
  {
    var parsed := JsonArena.ArgumentsStatus(CallInTurn(c).arguments, TURN_ARENA);
    if parsed != OK then parsed else env.toolStart
  }

  /** What the next round comes to. */
  function RoundStatus(c: Conv, env: Env): (status: Status) {
    if c.modelSteps >= c.maxModelSteps then INVAL else env.requestStart
  }

  /** The status the loop ends the turn with; None if the turn goes on. */
  function LoopEnd(c: Conv, env: Env): (end: Option<Status>) {
    if c.steering then Some(OK)
    else if c.toolIndex >= |CurrentCalls(c)| then
      if RoundStatus(c, env) == OK then None else Some(RoundStatus(c, env))
    else if StagingStatus(c, env) != OK then Some(StagingStatus(c, env))
    else
      match env.decision
      case Allow => if LaunchStatus(env) == OK then None else Some(LaunchStatus(env))
      case Deny => Some(DENIED)
      case Ask => if !env.awaitingShown then Some(IO) else if env.awaitingCancels then Some(CLOSED) else None
  }

  /** What it writes. */
  function LoopRecords(c: Conv, env: Env): (ps: seq<Payload>) {
    var calls, i := CurrentCalls(c), c.toolIndex;
    if c.steering then AllUnstarted(calls, i, STEERED_NOT_EXECUTED_TEXT) + [Bookend(STEERED_TURN_TEXT)]
    else if i >= |calls| then (if LoopEnd(c, env).None? then [] else [Bookend(INTERRUPTED_TURN_TEXT)])
    else if StagingStatus(c, env) != OK then Interrupted(calls, i)
    else
      match env.decision
      case Allow =>
        if LoopEnd(c, env).None? then [ToolStarted(calls[i].id)]
        else [ToolStarted(calls[i].id), CutOff(calls[i], c.toolOutput)] + Interrupted(calls, i + 1)
      case Deny => [Unstarted(calls[i], DENIED_TEXT)] + Interrupted(calls, i + 1)
      case Ask => if LoopEnd(c, env).None? then [] else Interrupted(calls, i)
  }

  /** The handle it leaves set: a request, a process, or a permission wait. */
  function GoingOn(c: Conv, env: Env): (after: Conv) {
    if c.toolIndex >= |CurrentCalls(c)| then
      c.(assistantCommitted := false, modelSteps := c.modelSteps + 1, request := true)
    else if env.decision.Allow? then c.(tool := true)
    else c.(pendingPermission := true)
  }

  predicate LoopDid(w: World, after: World, env: Env) {
    match LoopEnd(w.c, env)
    case Some(status) => EndedWith(w, after, status, LoopRecords(w.c, env))
    case None => after.c == GoingOn(w.c, env) && Did(w, after, LoopRecords(w.c, env))
  }

  /** A new round: the request goes out within the step limit if the client takes it, or the turn is interrupted. */
  lemma RoundDoes(w: World, env: Env)
    requires RoundDone(w) && Room(w, |CurrentCalls(w.c)| + 2) && !w.c.steering
    ensures LoopDid(w, StartNextTool(w, env), env)
  {
    hide FinishWithRepair, Did, Idle;
    var (asked, status) := StartModelRequest(w, env);
    if status != OK {
      RepairDoes(asked, status, false);
      DidAlike(asked, FinishWithRepair(asked, status, false), w, FinishWithRepair(asked, status, false),
               Closing(asked.c, false));
      assert [] + [Bookend(INTERRUPTED_TURN_TEXT)] == [Bookend(INTERRUPTED_TURN_TEXT)];
    } else {
      DidNothing(w, asked);
    }
  }

  lemma AskingDoes(w: World, env: Env)
    requires CallNext(w, false) && Room(w, |CurrentCalls(w.c)| + 2)
    requires env.decision.Ask?
    ensures
      var after, calls := RequestToolCall(w, CallInTurn(w.c), env), CurrentCalls(w.c);
      if !env.awaitingShown then EndedWith(w, after, IO, Interrupted(calls, w.c.toolIndex))
      else if env.awaitingCancels then
        EndedWith(w, after, CLOSED, Interrupted(calls, w.c.toolIndex)) && after.c.cancelled
      else after == w.(c := w.c.(pendingPermission := true))
  {
    hide FinishWithRepair, Did, Idle, Interrupted, Closing;
    ClosingUnstarted(w.c);
    if !env.awaitingShown {
      assert w.(c := w.c.(pendingPermission := false)) == w;
      RepairDoes(w, IO, false);
    } else if env.awaitingCancels {
      CancelDoes(w.(c := w.c.(pendingPermission := true)), w);
    }
  }

  /** Cancelling without a partial reply to write. */
  lemma CancelDoes(w: World, detached: World)
    requires w.c.busy && !(w.c.request && w.c.assistant != [])
    requires detached == w.(c := w.c.(request := false, pendingPermission := false, tool := false))
    requires Closable(detached, w.c.tool)
    ensures EndedWith(detached, Cancel(w), CLOSED, Closing(detached.c, w.c.tool)) && Cancel(w).c.cancelled
  {
    CancelCloses(w, detached);
    CloseOutShuts(detached, w.c.tool);
    CloseOutDoes(detached, w.c.tool);
    hide CloseOutIncompleteTurn, Closing, Did, Idle, Closable;
    DidAlike(detached, CloseOutIncompleteTurn(detached, w.c.tool).0, detached, Cancel(w),
             Closing(detached.c, w.c.tool));
  }

  lemma RequestDoes(w: World, env: Env)
    requires CallNext(w, false) && Room(w, |CurrentCalls(w.c)| + 2) && env.starting.Quiet?
    requires !w.c.steering && w.c.toolIndex < |CurrentCalls(w.c)| && StagingStatus(w.c, env) == OK
    ensures LoopDid(w, RequestToolCall(w, CallInTurn(w.c), env), env)
  {
    hide CallNext, Did, EndedWith, Interrupted, Cancel, ResolvePermissionBody, FinishWithRepair, CurrentCalls,
         StagingStatus;
    match env.decision
    case Allow => AllowanceDoes(w, CallInTurn(w.c), env);
    case Deny => DenialDoes(w, CallInTurn(w.c), env);
    case Ask =>
      AskingDoes(w, env);
      DidNothing(w, w.(c := w.c.(pendingPermission := true)));
  }

  /** The loop before a call: what it does with it is the policy's, the registry's and the process's to say. */
  lemma CallDoes(w: World, env: Env)
    requires CallNext(w, false) && Room(w, |CurrentCalls(w.c)| + 2) && !w.c.steering && env.starting.Quiet?
    ensures LoopDid(w, StartNextTool(w, env), env)
  {
    assert w.c.busy && w.c.toolIndex < |CurrentCalls(w.c)| && w.c.assistantCommitted;
    RepairDoes(w, StagingStatus(w.c, env), false);
    ClosingUnstarted(w.c);
    hide CallNext, Did, EndedWith, FinishWithRepair, Interrupted, Closing, RequestToolCall, CurrentCalls;
    if StagingStatus(w.c, env) == OK { RequestDoes(w, env); }
  }

  /** The whole loop. */
  lemma LoopDoes(w: World, env: Env)
    requires RoundDone(w) || CallNext(w, false)
    requires Room(w, |CurrentCalls(w.c)| + 2) && env.starting.Quiet?
    ensures LoopDid(w, StartNextTool(w, env), env)
  {
    hide Did, Idle, FinishSteered;
    if w.c.steering {
      SteeredDoes(w);
    } else if w.c.toolIndex >= |CurrentCalls(w.c)| {
      RoundDoes(w, env);
    } else {
      CallDoes(w, env);
    }
  }
}
