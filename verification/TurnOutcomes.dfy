/** What each callback comes to: the records it writes, the handle it leaves, or the status it ends the turn with. */
module TurnOutcomes {
  import opened Basics
  import opened Messages
  import opened History
  import opened Conversation
  import opened Simulation
  import opened TurnClosure
  import opened TurnDecisions
  import opened TurnEffects
  import opened TurnSteps
  import Decimal
  import Replay
  import Utf8Stream

  /** `ps` first, and then what the tool loop does from `c` on. */
  predicate WentOn(w: World, after: World, ps: seq<Payload>, c: Conv, env: Env) {
    match LoopEnd(c, env)
    case Some(status) => EndedWith(w, after, status, ps + LoopRecords(c, env))
    case None => after.c == GoingOn(c, env) && Did(w, after, ps + LoopRecords(c, env))
  }

  lemma EndedIdle(w: World, after: World, status: Status, ps: seq<Payload>)
    requires EndedWith(w, after, status, ps)
    ensures Idle(after) && !after.c.busy && NothingInFlight(after.c)
  {
    hide Did, InStep;
  }

  /** The turn is over, or the loop's handle is set and nothing else is changed. */
  lemma WentOnLeaves(w: World, after: World, ps: seq<Payload>, c: Conv, env: Env)
    requires WentOn(w, after, ps, c, env)
    ensures if LoopEnd(c, env).Some? then !after.c.busy && NothingInFlight(after.c) else after.c == GoingOn(c, env)
  {
    hide Did, LoopEnd, LoopRecords, GoingOn, EndedWith;
    match LoopEnd(c, env)
    case Some(status) => EndedIdle(w, after, status, ps + LoopRecords(c, env));
    case None =>
  }

  lemma LoopBehind(a: World, b: World, c: World, ps: seq<Payload>, env: Env)
    requires Did(a, b, ps) && LoopDid(b, c, env)
    requires b.p.turnId == a.p.turnId && b.p.failed == a.p.failed
    ensures WentOn(a, c, ps, b.c, env)
  {
    hide Did, EndedWith, LoopRecords, GoingOn;
    match LoopEnd(b.c, env)
    case Some(status) => EndedBehind(a, b, c, status, ps, LoopRecords(b.c, env));
    case None => DidBoth(a, b, c, ps, LoopRecords(b.c, env));
  }

  // ----- a tool that ended -----

  /** The decimal text of a number, with its sign. */
  function Signed(n: int): (text: bytes) {
    if n < 0 then Ascii("-") + Decimal.Digits(-n) else Decimal.Digits(n)
  }

  /** What the model is told: the output made well-formed, and how the tool ended unless it ended well. */
  function ToolText(output: bytes, kind: nat, code: int): (text: bytes) {
    Utf8Stream.Normalized(output)
    + if kind == 0 && code == 0 then []
      else Ascii("\n[tool exit kind=") + Decimal.Digits(kind) + Ascii(" code=") + Signed(code) + Ascii("]\n")
  }

  /** The record of a finished call: its text for the model, and beside it the output as it came. */
  function Finished(call: ToolCall, text: bytes, output: bytes): (payload: Payload) {
    MessageRecord(HistoryMessage(ToolResult(call.id, text), Normal, Completed, None, Some(output)))
  }

  /** The conversation behind the result of the call in turn. */
  function BehindResult(c: Conv, text: bytes): (after: Conv)
    requires c.toolIndex < |CurrentCalls(c)|
  {
    c.(tool := false, toolOutput := [], toolIndex := c.toolIndex + 1,
       messages := c.messages + [ToolResult(CallInTurn(c).id, text)])
  }

  lemma ResultMoves(w: World, landed: World, text: bytes, outcome: ToolOutcome, env: Env) returns (moved: World)
    requires Running(w) && w.c.tool && Roomy(w) && |text| <= MAX_CONTENT
    requires landed == w.(c := w.c.(tool := false)) && (outcome.ToolCompleted? || outcome.ToolFailed?)
    ensures AnswerCall(landed, CallInTurn(w.c), text, outcome, env) == StartNextTool(moved, env)
    ensures RoundDone(moved) || CallNext(moved, false)
    ensures Room(moved, |CurrentCalls(moved.c)| + 2) && CurrentCalls(moved.c) == CurrentCalls(w.c)
    ensures moved.c == BehindResult(w.c, text) && moved.p == w.p.(log := moved.p.log)
    ensures Did(w, moved, [Finished(CallInTurn(w.c), text, w.c.toolOutput)])
  {
    hide StartNextTool, FinishWithRepair, PersistRecord, Did;
    moved := AnswerMoves(landed, text, outcome);
    ResultDoes(landed, w.c.toolIndex, true, text, outcome, Some(w.c.toolOutput));
    var said := Commit(landed, ToolResult(CallInTurn(w.c).id, text), outcome, Some(w.c.toolOutput), false).0;
    DidAlike(landed, said, w, moved, [Finished(CallInTurn(w.c), text, w.c.toolOutput)]);
  }

  lemma TextIs(output: bytes, kind: nat, code: int)
    ensures ToolText(output, kind, code) == Utf8Stream.Normalized(output) + ExitText(kind, code)
  {
  }

  lemma AnsweredDoes(w: World, landed: World, text: bytes, outcome: ToolOutcome, env: Env)
    requires Running(w) && w.c.tool && Roomy(w) && |text| <= MAX_CONTENT && env.starting.Quiet?
    requires landed == w.(c := w.c.(tool := false)) && (outcome.ToolCompleted? || outcome.ToolFailed?)
    ensures
      WentOn(w, AnswerCall(landed, CallInTurn(w.c), text, outcome, env),
             [Finished(CallInTurn(w.c), text, w.c.toolOutput)], BehindResult(w.c, text), env)
  {
    hide RoundDone, CallNext, StartNextTool, AnswerCall, Did, LoopDid, WentOn, CurrentCalls, Room;
    var moved := ResultMoves(w, landed, text, outcome, env);
    LoopDoes(moved, env);
    LoopBehind(w, moved, StartNextTool(moved, env), [Finished(CallInTurn(w.c), text, w.c.toolOutput)], env);
  }

  /** A running tool that is stopped: its call is cut off and the turn interrupted. */
  lemma StoppedDoes(w: World, stopped: World, status: Status)
    requires Running(w) && w.c.tool && Roomy(w) && stopped.p == w.p && |stopped.c.toolOutput| <= MAX_CONTENT
    requires stopped.c == w.c.(tool := false, toolOutput := stopped.c.toolOutput)
    ensures
      EndedWith(w, FinishWithRepair(stopped, status, true), status,
                [CutOff(CallInTurn(w.c), stopped.c.toolOutput)]
                + Interrupted(CurrentCalls(w.c), w.c.toolIndex + 1))
  {
    hide FinishWithRepair, Did, Idle, Interrupted, Closing;
    assert Closable(stopped, true);
    hide Running, InRound, CurrentCalls, Closable;
    RepairDoes(stopped, status, true);
    ClosingStarted(stopped.c);
    DidAlike(stopped, FinishWithRepair(stopped, status, true), w, FinishWithRepair(stopped, status, true),
             Closing(stopped.c, true));
  }

  /** A finished tool: its result is recorded and the loop goes on behind it, unless the text is too long to keep. */
  lemma ToolDoneDoes(w: World, kind: nat, code: int, env: Env)
    requires Running(w) && w.c.tool && Roomy(w) && env.starting.Quiet?
    ensures
      var after, call, text := OnToolDone(w, kind, code, env), CallInTurn(w.c), ToolText(w.c.toolOutput, kind, code);
      if |text| > MAX_CONTENT then
        EndedWith(w, after, NOMEM, [CutOff(call, [])] + Interrupted(CurrentCalls(w.c), w.c.toolIndex + 1))
      else WentOn(w, after, [Finished(call, text, w.c.toolOutput)], BehindResult(w.c, text), env)
  {
    assert w.c.toolIndex < |CurrentCalls(w.c)|;
    var landed := w.(c := w.c.(tool := false));
    var text := ToolText(w.c.toolOutput, kind, code);
    TextIs(w.c.toolOutput, kind, code);
    hide AnswerCall, FinishWithRepair, Utf8Stream.Normalized, ExitText, ToolText, CurrentCalls, Running, Roomy,
         EndedWith, WentOn;
    if |text| > MAX_CONTENT {
      StoppedDoes(w, landed.(c := landed.c.(toolOutput := [])), NOMEM);
    } else {
      AnsweredDoes(w, landed, text, if kind == 0 && code == 0 then ToolCompleted else ToolFailed, env);
    }
  }

  // ----- a reply that is complete -----

  /** The record of a reply, attributed to the live model. */
  function Reply(model: bytes, m: Message): (payload: Payload) {
    MessageRecord(HistoryMessage(m, Normal, NoOutcome, Some(model), None))
  }

  /** The conversation behind a reply. */
  function BehindReply(c: Conv, m: Message): (after: Conv) {
    c.(request := false, messages := c.messages + [m], assistantIndex := |c.messages|, assistantCommitted := true,
       toolIndex := 0, assistant := [], streamed := [])
  }

  /** A failed write is remembered. */
  function Failing(w: World): (after: World) {
    w.(p := w.p.(failed := true))
  }

  lemma ReplyMoves(w: World, landed: World, m: Message) returns (round: World)
    requires ReplyOpen(landed) && Room(w, 1) && landed == w.(c := w.c.(request := false))
    requires m.Assistant? && |m.content| <= MAX_CONTENT && CallsFit(m.calls)
    requires m.calls == [] || Replay.CallsAcceptable(m.calls)
    ensures var (said, status) := Commit(landed, m, ToolNone, None, false); status == OK && round == RoundOf(said)
    ensures round.c == BehindReply(w.c, m) && CurrentCalls(round.c) == m.calls
    ensures round.p == w.p.(log := round.p.log) && round.p.log.nextId == w.p.log.nextId + 1
    ensures Did(w, round, [Reply(w.c.model, m)])
    ensures if m.calls == [] then Shut(landed, round) else CallNext(round, false)
  {
    hide Did, PersistRecord, Replay.CallsAcceptable;
    ReplyTaken(landed, m);
    if m.calls == [] { ReplyShuts(landed, m); } else { RoundOpens(landed, m); }
    CommitDoes(landed, m, ToolNone, None, false);
    var said := Commit(landed, m, ToolNone, None, false).0;
    round := RoundOf(said);
    hide Commit, Shut, CallNext;
    DidAlike(landed, said, w, round, [Reply(w.c.model, m)]);
  }

  /** A reply without calls ends the turn as a success once it is shown. */
  lemma PlainReplyDoes(w: World, landed: World, m: Message, env: Env)
    requires ReplyOpen(landed) && Roomy(landed) && landed == w.(c := w.c.(request := false))
    requires BuildAssistant(landed.c) == Some(m) && m.Assistant? && |m.content| <= MAX_CONTENT && m.calls == []
    ensures
      var after := OnCompleted(w, env);
      if env.responseShown then EndedWith(w, after, OK, [Reply(w.c.model, m)])
      else
        && Idle(after) && after.c.lastStatus == PARSE && after.p.failed && Did(w, after, [Reply(w.c.model, m)])
  {
    var round := ReplyMoves(w, landed, m);
    assert CurrentCalls(round.c) == [];
    if env.responseShown {
      FinishIdles(landed, round, OK);
      FinishDoes(w, round, OK, [Reply(w.c.model, m)]);
    } else {
      ShutRepairRefused(landed, round, IO);
      ShutRepairSays(landed, round);
      FinishDoes(w, round, OK, [Reply(w.c.model, m)]);
      hide Shut, FinishWithRepair, Did, Commit;
      DidAlike(w, FinishTurn(round, OK), w, OnCompleted(w, env), [Reply(w.c.model, m)]);
    }
  }

  /** The refused repair writes nothing. */
  lemma ShutRepairSays(w: World, round: World)
    requires Shut(w, round) && CurrentCalls(round.c) == []
    ensures
      var after := FinishWithRepair(round, IO, false);
      after.p.log == round.p.log && after.c.messages == round.c.messages
  {
  }

  /** A reply with calls opens its round: the loop decides on the first of them, once the reply is shown. */
  lemma CallReplyDoes(w: World, landed: World, m: Message, env: Env)
    requires ReplyOpen(landed) && Roomy(landed) && landed == w.(c := w.c.(request := false))
    requires BuildAssistant(landed.c) == Some(m) && m.Assistant? && |m.content| <= MAX_CONTENT
    requires CallsFit(m.calls) && m.calls != [] && |m.calls| == |w.c.streamed| && Replay.CallsAcceptable(m.calls)
    requires env.starting.Quiet?
    ensures
      var after := OnCompleted(w, env);
      if env.responseShown then WentOn(w, after, [Reply(w.c.model, m)], BehindReply(w.c, m), env)
      else EndedWith(w, after, IO, [Reply(w.c.model, m)] + Interrupted(m.calls, 0))
  {
    var round := ReplyMoves(w, landed, m);
    assert OnCompleted(w, env) == AfterReply(round, env);
    assert Room(round, |CurrentCalls(round.c)| + 2);
    hide OnCompleted, Commit, Did, CallNext, StartNextTool, FinishWithRepair, WentOn, EndedWith, LoopDid, CurrentCalls,
         Roomy, ReplyOpen, BuildAssistant, Interrupted, Replay.CallsAcceptable, CallsFit;
    if env.responseShown {
      LoopDoes(round, env);
      LoopBehind(w, round, StartNextTool(round, env), [Reply(w.c.model, m)], env);
    } else {
      UnshownDoes(w, round, [Reply(w.c.model, m)]);
    }
  }

  lemma UnshownDoes(w: World, round: World, ps: seq<Payload>)
    requires CallNext(round, false) && Room(round, |CurrentCalls(round.c)| + 2) && Did(w, round, ps)
    requires round.p == w.p.(log := round.p.log)
    ensures
      EndedWith(w, FinishWithRepair(round, IO, false), IO,
                ps + Interrupted(CurrentCalls(round.c), round.c.toolIndex))
  {
    hide Did, FinishWithRepair, InRound, Closing, Interrupted, CurrentCalls;
    RepairDoes(round, IO, false);
    ClosingUnstarted(round.c);
    EndedBehind(w, round, FinishWithRepair(round, IO, false), IO, ps, Closing(round.c, false));
  }

  /** A reply the log refuses leaves no trace but the status and the failed write, and the turn is interrupted. */
  lemma RefusedReplyDoes(w: World, landed: World, m: Message, env: Env)
    requires ReplyOpen(landed) && Roomy(landed) && landed == w.(c := w.c.(request := false))
    requires BuildAssistant(landed.c) == Some(m) && m.Assistant? && |m.content| <= MAX_CONTENT
    requires CallsFit(m.calls) && m.calls != [] && !Replay.CallsAcceptable(m.calls)
    ensures
      EndedWith(Failing(w), OnCompleted(w, env), Replay.CallsStatus(m.calls), [Bookend(INTERRUPTED_TURN_TEXT)])
  {
    ReplyRefused(landed, m);
    assert OnCompleted(w, env) == FinishWithRepair(Failing(landed), Replay.CallsStatus(m.calls), false);
    hide OnCompleted, Commit, Replay.CallsStatus, Replay.CallsAcceptable, CallsFit, BuildAssistant;
    InterruptedDoes(Failing(w), Failing(landed), Replay.CallsStatus(m.calls));
  }

  /** A turn that ends while its reply is due writes the bookend alone. */
  lemma InterruptedDoes(w: World, landed: World, status: Status)
    requires ReplyDue(landed) && NothingInFlight(landed.c) && !landed.c.assistantCommitted
    requires Room(landed, |CurrentCalls(landed.c)| + 1)
    requires landed.p == w.p && landed.c.messages == w.c.messages
    ensures EndedWith(w, FinishWithRepair(landed, status, false), status, [Bookend(INTERRUPTED_TURN_TEXT)])
  {
    RepairDoes(landed, status, false);
    assert [] + [Bookend(INTERRUPTED_TURN_TEXT)] == [Bookend(INTERRUPTED_TURN_TEXT)];
    hide FinishWithRepair, Did, Idle, ReplyDue;
    DidAlike(landed, FinishWithRepair(landed, status, false), w, FinishWithRepair(landed, status, false),
             Closing(landed.c, false));
  }

  /** A completed response: the reply is recorded, and the loop goes on with its calls or the turn is over. */
  predicate ReplyOutcome(w: World, after: World, built: Option<Message>, env: Env) {
    match built
    case None => EndedWith(w, after, PARSE, [Bookend(INTERRUPTED_TURN_TEXT)])
    case Some(m) =>
      m.Assistant? &&
      if m.calls == [] then
        if env.responseShown then EndedWith(w, after, OK, [Reply(w.c.model, m)])
        else Idle(after) && after.c.lastStatus == PARSE && after.p.failed && Did(w, after, [Reply(w.c.model, m)])
      else if !Replay.CallsAcceptable(m.calls) then
        EndedWith(Failing(w), after, Replay.CallsStatus(m.calls), [Bookend(INTERRUPTED_TURN_TEXT)])
      else if !env.responseShown then EndedWith(w, after, IO, [Reply(w.c.model, m)] + Interrupted(m.calls, 0))
      else WentOn(w, after, [Reply(w.c.model, m)], BehindReply(w.c, m), env)
  }

  lemma CompletedDoes(w: World, env: Env)
    requires Running(w) && w.c.request && Roomy(w) && env.starting.Quiet?
    ensures ReplyOutcome(w, OnCompleted(w, env), BuildAssistant(w.c), env)
  {
    var landed := w.(c := w.c.(request := false));
    assert BuildAssistant(landed.c) == BuildAssistant(w.c);
    assert ReplyOpen(landed) && Roomy(landed);
    if BuildAssistant(landed.c).None? {
      InterruptedDoes(w, landed, PARSE);
    } else {
      BuiltFits(landed.c);
      var m := BuildAssistant(landed.c).value;
      hide BuildAssistant, OnCompleted, Running, Roomy, ReplyOpen, EndedWith, WentOn, Did, Idle, CallsFit,
           Replay.CallsAcceptable;
      if m.calls == [] {
        PlainReplyDoes(w, landed, m, env);
      } else if Replay.CallsAcceptable(m.calls) {
        CallReplyDoes(w, landed, m, env);
      } else {
        RefusedReplyDoes(w, landed, m, env);
      }
    }
  }

  // ----- the other callbacks -----

  /** The user's answer to a permission that was asked for. */
  lemma PermissionDoes(w: World, allow: bool, env: Env)
    requires Running(w) && w.c.pendingPermission && Roomy(w) && env.starting.Quiet?
    ensures
      var after, decided := ResolvePermission(w, allow, env), w.(c := w.c.(pendingPermission := false));
      && w.c.toolIndex < |CurrentCalls(w.c)|
      && if allow then AllowedStart(decided, after, env) else DeniedEnd(decided, after)
  {
    var decided := w.(c := w.c.(pendingPermission := false));
    assert CallNext(decided, false) && Room(decided, |CurrentCalls(decided.c)| + 2);
    assert decided.c.toolIndex < |CurrentCalls(decided.c)|;
    hide Running, Roomy, CallNext, ResolvePermissionBody, AllowedStart, DeniedEnd;
    if allow { AllowanceDoes(decided, CallInTurn(w.c), env); } else { DenialDoes(decided, CallInTurn(w.c), env); }
  }

  /** Text that streamed in before the reply was complete is kept as a partial reply. */
  function Partial(w: World): (ps: seq<Payload>) {
    if w.c.request && w.c.assistant != [] then [PartialAssistant(w.c.assistant, w.p.model)] else []
  }

  /** The calls a turn still owes results for when it is cut off, and its bookend. */
  function Owed(c: Conv): (ps: seq<Payload>) {
    if c.request || c.toolIndex >= |CurrentCalls(c)| then [Bookend(INTERRUPTED_TURN_TEXT)]
    else if c.tool then [CutOff(CallInTurn(c), c.toolOutput)] + Interrupted(CurrentCalls(c), c.toolIndex + 1)
    else Interrupted(CurrentCalls(c), c.toolIndex)
  }

  lemma PartialMoves(w: World, landed: World) returns (kept: World)
    requires Running(w) && w.c.request && Roomy(w)
    requires landed == w.(c := w.c.(request := false, pendingPermission := false, tool := false))
    ensures Did(w, kept, Partial(w)) && kept == landed.(p := w.p.(log := kept.p.log))
    ensures Closable(kept, false) && !kept.c.assistantCommitted
    ensures w.c.assistant == [] ==> kept == landed
    ensures
      w.c.assistant != [] ==>
        PersistRecord(w.p, w.p.turnId, PartialAssistant(w.c.assistant, w.p.model)) == (kept.p, OK)
  {
    if w.c.assistant == [] {
      kept := landed;
      DidNothing(w, landed);
    } else {
      PartialTaken(landed, w.c.assistant);
      PersistDoes(landed, PartialAssistant(w.c.assistant, w.p.model));
      kept := landed.(p := PersistRecord(w.p, w.p.turnId, PartialAssistant(w.c.assistant, w.p.model)).0);
      hide Did, PersistRecord;
      DidAlike(landed, kept, w, kept, [PartialAssistant(w.c.assistant, w.p.model)]);
    }
  }

  /** A failed response: what streamed in is kept, and the turn ends with the failure or with MODEL_ERROR's own. */
  lemma FailedDoes(w: World, failure: Status, errorShown: Status)
    requires Running(w) && w.c.request && Roomy(w)
    ensures
      EndedWith(w, OnFailed(w, failure, errorShown), if errorShown != OK then errorShown else failure,
                Partial(w) + [Bookend(INTERRUPTED_TURN_TEXT)])
  {
    var status := if errorShown != OK then errorShown else failure;
    var landed := w.(c := w.c.(request := false));
    assert landed == w.(c := w.c.(request := false, pendingPermission := false, tool := false));
    var kept := PartialMoves(w, landed);
    assert OnFailed(w, failure, errorShown) == FinishWithRepair(kept, status, false);
    hide OnFailed, FinishWithRepair, PersistRecord, Did, Running, Closable, Idle;
    RepairDoes(kept, status, false);
    assert [] + [Bookend(INTERRUPTED_TURN_TEXT)] == [Bookend(INTERRUPTED_TURN_TEXT)];
    EndedBehind(w, kept, FinishWithRepair(kept, status, false), status, Partial(w), [Bookend(INTERRUPTED_TURN_TEXT)]);
  }

  lemma ClosedByCancel(w: World, kept: World, started: bool)
    requires w.c.busy && kept == Detached(w) && started == w.c.tool && Closable(kept, started)
    ensures EndedWith(kept, Cancel(w), CLOSED, Closing(kept.c, started)) && Cancel(w).c.cancelled
  {
    CloseOutShuts(kept, started);
    CloseOutDoes(kept, started);
    FinishIdles(kept, CloseOutIncompleteTurn(kept, started).0, CLOSED);
    hide CloseOutIncompleteTurn, Detached, Closing, Did, Closable;
    DidAlike(kept, CloseOutIncompleteTurn(kept, started).0, kept, Cancel(w), Closing(kept.c, started));
  }

  /** Cancelling, wherever the turn stands: the partial reply, the open calls, the bookend. */
  lemma CancelledDoes(w: World)
    requires Running(w) && Roomy(w)
    ensures EndedWith(w, Cancel(w), CLOSED, Partial(w) + Owed(w.c)) && Cancel(w).c.cancelled
  {
    var landed := w.(c := w.c.(request := false, pendingPermission := false, tool := false));
    if w.c.request {
      var kept := PartialMoves(w, landed);
      assert Detached(w) == kept;
      hide Detached, PersistRecord, Did, Running, Closable, Idle;
      ClosedByCancel(w, kept, false);
      assert [] + [Bookend(INTERRUPTED_TURN_TEXT)] == [Bookend(INTERRUPTED_TURN_TEXT)];
      EndedBehind(w, kept, Cancel(w), CLOSED, Partial(w), [Bookend(INTERRUPTED_TURN_TEXT)]);
    } else {
      assert Closable(landed, w.c.tool);
      ClosedByCancel(w, landed, w.c.tool);
      if w.c.tool { ClosingStarted(landed.c); } else { ClosingUnstarted(landed.c); }
      assert [] + Owed(w.c) == Owed(w.c);
      hide Did, Running, Closable, Idle, Cancel, Closing, Interrupted;
      DidAlike(landed, Cancel(w), w, Cancel(w), Owed(w.c));
    }
  }

  /** The record of what the user typed. */
  function Asked(content: bytes): (payload: Payload) {
    MessageRecord(HistoryMessage(User(content), Normal, NoOutcome, None, None))
  }

  /** A turn starts with the user's message on record and a request out, or ends at once with the client's status. */
  lemma StartDoes(w: World, content: bytes, env: Env)
    requires Idle(w) && 0 < w.c.maxModelSteps && Roomy(w) && |content| <= MAX_CONTENT
    requires w.p.log.b.pending.Some? ==>
      w.p.log.b.queueConsumed && content == w.p.log.b.pending.value.content
      && w.p.log.b.pending.value.turnId == w.p.turnId
    ensures
      var after := Start(w, content, env);
      && Did(w, after, [Asked(content)])
      && (after.c.request <==> env.requestStart == OK)
      && after.c.busy == after.c.request && after.c.modelSteps == 1
      && !after.c.cancelled && !after.c.steering
      && after.c.lastStatus == env.requestStart
      && after.c.assistant == [] && after.c.streamed == [] && after.c.toolOutput == []
  {
    var begun := Begun(w);
    UserTaken(begun, content);
    CommitDoes(begun, User(content), ToolNone, None, false);
    var said := Commit(begun, User(content), ToolNone, None, false).0;
    hide Did, PersistRecord, Idle, Commit;
    DidAlike(begun, said, w, Start(w, content, env), [Asked(content)]);
  }

  /** Text that streams in is appended; too much of it, or a failing display, interrupts the turn. */
  lemma TextDoes(w: World, data: bytes, shown: bool)
    requires Running(w) && w.c.request && Roomy(w)
    ensures
      var after, fits := OnText(w, data, shown), |w.c.assistant| + |data| <= MAX_CONTENT;
      if fits && shown then after == w.(c := w.c.(assistant := w.c.assistant + data))
      else EndedWith(w, after, if fits then IO else NOMEM, [Bookend(INTERRUPTED_TURN_TEXT)])
  {
    var appended := Limited(w.c.assistant, data);
    var kept := if appended.Some? then w.(c := w.c.(assistant := appended.value)) else w;
    InterruptedDoes(w, kept.(c := kept.c.(request := false)), if appended.None? then NOMEM else IO);
    hide FinishWithRepair, Did, Idle;
  }

  /** Tool output is appended; too much of it, or a failing display, stops the tool and cuts its call off. */
  lemma OutputDoes(w: World, data: bytes, shown: bool)
    requires Running(w) && w.c.tool && Roomy(w)
    ensures
      var after, fits := OnToolOutput(w, data, shown), |w.c.toolOutput| + |data| <= MAX_CONTENT;
      var kept := if fits then w.c.toolOutput + data else w.c.toolOutput;
      if fits && shown then after == w.(c := w.c.(toolOutput := kept))
      else
        EndedWith(w, after, if fits then IO else NOMEM,
                  [CutOff(CallInTurn(w.c), kept)] + Interrupted(CurrentCalls(w.c), w.c.toolIndex + 1))
  {
    assert w.c.toolIndex < |CurrentCalls(w.c)| && |w.c.toolOutput| <= MAX_CONTENT;
    var appended := Limited(w.c.toolOutput, data);
    var kept := if appended.Some? then w.(c := w.c.(toolOutput := appended.value)) else w;
    hide FinishWithRepair, Running, Roomy, EndedWith, Interrupted, CurrentCalls;
    StoppedDoes(w, kept.(c := kept.c.(tool := false)), if appended.None? then NOMEM else IO);
  }
}
