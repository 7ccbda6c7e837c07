/** The live turn and the replayed log stay in step: every way a turn can end closes it durably. */
module Simulation {
  import opened Basics
  import opened Messages
  import opened History
  import opened ReplayLog
  import opened ReplayShape
  import opened Conversation
  import Replay
  import ReplayInvariants
  import Recovery

  predicate ModelOk(model: bytes) {
    0 < |model| <= MAX_CONTENT && !HasNul(model)
  }

  predicate StreamedFit(streamed: seq<Streamed>) {
    forall i :: 0 <= i < |streamed| ==> |streamed[i].id| <= MAX_CONTENT && |streamed[i].arguments| <= MAX_CONTENT
  }

  /** Lock-step: the live messages are the replayed ones, and the log is sound. */
  predicate InStep(w: World) {
    && w.c.messages == ContextMessages(w.p.log.b.context)
    && Sound(w.p.log)
    && ModelOk(w.c.model) && ModelOk(w.p.model)
    && |w.c.assistant| <= MAX_CONTENT
    && |w.c.toolOutput| <= MAX_CONTENT
    && StreamedFit(w.c.streamed)
  }

  predicate NothingInFlight(c: Conv) {
    !c.request && !c.tool && !c.pendingPermission
  }

  /** Between turns. */
  predicate Idle(w: World) {
    && InStep(w)
    && !w.c.busy && NothingInFlight(w.c)
    && w.p.log.b.phase.ExpectUser?
    && w.p.turnId == NextTurnId(w.p)
  }

  /** Inside a turn whose user message is written. */
  predicate Live(w: World) {
    && InStep(w)
    && w.c.busy
    && !w.p.log.b.phase.ExpectUser?
    && w.p.turnId == w.p.log.b.currentTurn
  }

  /** The log waits for an assistant message. */
  predicate ReplyDue(w: World) {
    Live(w) && w.p.log.b.phase.ExpectAssistant?
  }

  /** Calls before `i` are answered, those behind it untouched; `started` says whether call `i` started. */
  predicate ToolsAt(tools: seq<Replay.Tool>, calls: seq<ToolCall>, i: nat, started: bool) {
    && |tools| == |calls| && i < |calls|
    && forall k :: 0 <= k < |calls| ==>
         && tools[k].call == calls[k]
         && tools[k].resolved == (k < i)
         && (k >= i ==> tools[k].started == (k == i && started))
  }

  /** The log waits for the results of the current calls from `i` on. */
  predicate InRound(w: World, i: nat, started: bool) {
    && Live(w)
    && w.p.log.b.phase.ExpectToolResults?
    && w.c.assistantIndex < |w.c.messages|
    && w.c.messages[w.c.assistantIndex].Assistant?
    && ToolsAt(w.p.log.b.tools, CurrentCalls(w.c), i, started)
  }

  predicate Room(w: World, n: nat) {
    w.p.log.nextId + n < U64_MAX
  }

  /** The same world with more history: nothing refused, the conversation otherwise unchanged. */
  predicate Grown(w: World, after: World, m: Message) {
    && after.c == w.c.(messages := w.c.messages + [m])
    && after.p == w.p.(log := after.p.log)
    && after.p.log.nextId == w.p.log.nextId + 1
    && after.p.log.b.pending == w.p.log.b.pending
  }

  // ----- single records -----

  /** A message record that replay takes joins both sides. */
  lemma CommitTaken(w: World, m: Message, outcome: ToolOutcome, raw: Option<bytes>, isRepair: bool)
    requires InStep(w) && Room(w, 1)
    requires
      var r := MakeRecord(w.p.log.nextId, w.p.turnId, MessagePayload(w, m, outcome, raw, isRepair));
      && RecordValid(r)
      && Replay.Step(w.p.log.b, r).Some?
      && Replay.Step(w.p.log.b, r).value.lastStarted < U64_MAX
      && Replay.Step(w.p.log.b, r).value.context == w.p.log.b.context + [Replay.ContextItem(r.recordId, m)]
    ensures
      var r := MakeRecord(w.p.log.nextId, w.p.turnId, MessagePayload(w, m, outcome, raw, isRepair));
      var (after, status) := Commit(w, m, outcome, raw, isRepair);
      && status == OK
      && InStep(after)
      && after.c == w.c.(messages := w.c.messages + [m])
      && after.p == w.p.(log := Log(Replay.Step(w.p.log.b, r).value, w.p.log.nextId + 1))
  {
    var r := MakeRecord(w.p.log.nextId, w.p.turnId, MessagePayload(w, m, outcome, raw, isRepair));
    AppendKeepsSound(w.p.log, r);
    MessagesSnoc(w.p.log.b.context, Replay.ContextItem(r.recordId, m));
  }

  /** The placeholder that closes a turn is always accepted while a reply is due. */
  lemma BookendCloses(w: World, text: bytes)
    requires ReplyDue(w) && Room(w, 1) && |text| <= MAX_CONTENT
    ensures
      var (after, status) := Commit(w, Assistant(text, []), ToolNone, None, true);
      && status == OK
      && InStep(after) && Grown(w, after, Assistant(text, []))
      && after.p.log.b.phase.ExpectUser?
      && after.p.log.b.lastStarted == w.p.log.b.lastStarted
  {
    CommitTaken(w, Assistant(text, []), ToolNone, None, true);
  }

  predicate ResultFits(outcome: ToolOutcome, raw: Option<bytes>, started: bool) {
    if started then
      (outcome.ToolCompleted? || outcome.ToolFailed? || outcome.ToolUnknown?) && raw.Some? && |raw.value| <= MAX_CONTENT
    else (outcome.ToolDenied? || outcome.ToolNotExecuted?) && raw.None?
  }

  /** Answering call `i` moves a tool list on to `i + 1`. */
  lemma ResolveMoves(tools: seq<Replay.Tool>, calls: seq<ToolCall>, i: nat, started: bool)
    requires ToolsAt(tools, calls, i, started)
    ensures
      var resolved := tools[i := tools[i].(resolved := true)];
      if i + 1 < |calls| then ToolsAt(resolved, calls, i + 1, false) && !Replay.AllResolved(resolved)
      else Replay.AllResolved(resolved)
  {
    if i + 1 < |calls| {
      assert !tools[i := tools[i].(resolved := true)][i + 1].resolved;
    }
  }

  lemma ResultStep(b: Replay.Builder, r: Record, calls: seq<ToolCall>, i: nat, started: bool)
    requires ReplayInvariants.Coherent(b) && ToolsNamed(b.tools)
    requires b.phase.ExpectToolResults? && ToolsAt(b.tools, calls, i, started)
    requires r.payload.MessageRecord? && r.payload.message.value.ToolResult?
    requires r.turnId == b.currentTurn && r.payload.message.value.toolCallId == calls[i].id
    requires Replay.OutcomeFits(r.payload.message.outcome, started)
    ensures Replay.Step(b, r).Some?
    ensures
      var after := Replay.Step(b, r).value;
      && after.context == b.context + [Replay.ContextItem(r.recordId, r.payload.message.value)]
      && after.lastStarted == b.lastStarted && after.currentTurn == b.currentTurn && after.pending == b.pending
      && if i + 1 < |calls| then after.phase.ExpectToolResults? && ToolsAt(after.tools, calls, i + 1, false)
         else after.phase.ExpectAssistant? && !after.partialSeen
  {
    ResolveMoves(b.tools, calls, i, started);
    Recovery.FindDistinct(b.tools, i);
    assert b.tools[i].call.id == calls[i].id;
  }

  /** A fitting result for the call in turn is accepted and moves the round on. */
  lemma ResultTaken(w: World, i: nat, started: bool, text: bytes, outcome: ToolOutcome, raw: Option<bytes>)
    requires InRound(w, i, started) && Room(w, 1) && |text| <= MAX_CONTENT && ResultFits(outcome, raw, started)
    ensures
      var m := ToolResult(CurrentCalls(w.c)[i].id, text);
      var (after, status) := Commit(w, m, outcome, raw, false);
      && status == OK
      && Grown(w, after, m)
      && CurrentCalls(after.c) == CurrentCalls(w.c)
      && after.p.log.b.lastStarted == w.p.log.b.lastStarted
      && if i + 1 < |CurrentCalls(w.c)| then InRound(after, i + 1, false)
         else ReplyDue(after) && !after.p.log.b.partialSeen
  {
    var calls := CurrentCalls(w.c);
    var m := ToolResult(calls[i].id, text);
    var r := MakeRecord(w.p.log.nextId, w.p.turnId, MessagePayload(w, m, outcome, raw, false));
    assert w.p.log.b.tools[i].call == calls[i];
    ResultStep(w.p.log.b, r, calls, i, started);
    CommitTaken(w, m, outcome, raw, false);
  }

  // ----- closing a turn -----

  /** `n` records further on, nothing refused, nothing changed but the messages. */
  predicate Answered(w: World, after: World, n: nat) {
    && after.c == w.c.(messages := after.c.messages)
    && after.p == w.p.(log := after.p.log)
    && after.p.log.nextId == w.p.log.nextId + n
    && after.p.log.b.pending == w.p.log.b.pending
    && after.p.log.b.lastStarted == w.p.log.b.lastStarted
  }

  /** One placeholder: the round moves on, or the reply is due. */
  predicate Moved(after: World, calls: seq<ToolCall>, i: nat) {
    && CurrentCalls(after.c) == calls
    && if i + 1 < |calls| then InRound(after, i + 1, false) else ReplyDue(after)
  }

  lemma RepairOne(w: World, calls: seq<ToolCall>, i: nat, started: bool) returns (next: World)
    requires InRound(w, i, started) && Room(w, 1) && calls == CurrentCalls(w.c)
    ensures RepairFrom(w, calls, i, started) == RepairFrom(next, calls, i + 1, false)
    ensures Answered(w, next, 1) && Moved(next, calls, i)
  {
    var text := if started then CANCELLED_UNKNOWN_TEXT else CANCELLED_NOT_EXECUTED_TEXT;
    var outcome := if started then ToolUnknown else ToolNotExecuted;
    var raw := if started then Some(w.c.toolOutput) else None;
    ResultTaken(w, i, started, text, outcome, raw);
    next := Commit(w, ToolResult(calls[i].id, text), outcome, raw, false).0;
  }

  lemma SkipOne(w: World, calls: seq<ToolCall>, i: nat) returns (next: World)
    requires InRound(w, i, false) && Room(w, 1) && calls == CurrentCalls(w.c)
    ensures SkipSteeredFrom(w, calls, i) == SkipSteeredFrom(next, calls, i + 1)
    ensures Answered(w, next, 1) && Moved(next, calls, i)
  {
    ResultTaken(w, i, false, STEERED_NOT_EXECUTED_TEXT, ToolNotExecuted, None);
    next := Commit(w, ToolResult(calls[i].id, STEERED_NOT_EXECUTED_TEXT), ToolNotExecuted, None, false).0;
  }

  /** Every call from `i` on gets a placeholder, after which only the reply is due. */
  lemma {:induction false} RepairFromAnswers(w: World, calls: seq<ToolCall>, i: nat, started: bool)
    returns (after: World)
    requires i < |calls| && InRound(w, i, started) && Room(w, |calls| - i) && calls == CurrentCalls(w.c)
    ensures RepairFrom(w, calls, i, started) == (after, OK)
    ensures ReplyDue(after)
    ensures Answered(w, after, |calls| - i)
    decreases |calls| - i
  {
    hide InRound, ReplyDue, RepairCall, CurrentCalls;
    after := RepairOne(w, calls, i, started);
    if i + 1 < |calls| {
      after := RepairFromAnswers(after, calls, i + 1, false);
    }
  }

  lemma {:induction false} SkipSteeredAnswers(w: World, calls: seq<ToolCall>, i: nat) returns (after: World)
    requires i < |calls| && InRound(w, i, false) && Room(w, |calls| - i) && calls == CurrentCalls(w.c)
    ensures SkipSteeredFrom(w, calls, i) == (after, OK)
    ensures ReplyDue(after)
    ensures Answered(w, after, |calls| - i)
    decreases |calls| - i
  {
    hide InRound, ReplyDue, Commit, CurrentCalls;
    after := SkipOne(w, calls, i);
    if i + 1 < |calls| {
      after := SkipSteeredAnswers(after, calls, i + 1);
    }
  }

  /** Where the closing functions may be called: a reply is due, or the round is at `toolIndex`. */
  predicate Closable(w: World, started: bool) {
    && NothingInFlight(w.c)
    && Room(w, |CurrentCalls(w.c)| + 1)
    && (|| (ReplyDue(w) && (w.c.assistantCommitted ==> w.c.toolIndex >= |CurrentCalls(w.c)|))
        || (w.c.assistantCommitted && InRound(w, w.c.toolIndex, started)))
  }

  /** Still busy, but the log is back at EXPECT_USER with every call answered and nothing refused since `w`. */
  predicate Shut(w: World, closed: World) {
    && InStep(closed)
    && closed.c.busy && NothingInFlight(closed.c)
    && closed.p.log.b.phase.ExpectUser?
    && closed.p == w.p.(log := closed.p.log)
    && closed.p.log.b.pending == w.p.log.b.pending
    && closed.p.log.b.lastStarted == w.p.log.b.lastStarted
    && closed.c.maxModelSteps == w.c.maxModelSteps
  }

  /** What a closed turn leaves: idle, in step, and nothing refused since `w`. */
  predicate ClosedFrom(w: World, after: World) {
    && Idle(after)
    && after.p.failed == w.p.failed
    && after.p.log.b.pending == w.p.log.b.pending
    && after.p.log.b.lastStarted == w.p.log.b.lastStarted
    && after.c.maxModelSteps == w.c.maxModelSteps
  }

  lemma FinishIdles(w: World, closed: World, status: Status)
    requires Shut(w, closed)
    ensures ClosedFrom(w, FinishTurn(closed, status)) && FinishTurn(closed, status).c.lastStatus == status
    ensures ClosedFrom(w, FinishTurn(closed.(c := closed.c.(cancelled := true)), status))
  {
  }

  /** The repair functions succeed wherever they are called from, and close the turn. */
  lemma CloseOutShuts(w: World, started: bool)
    requires Closable(w, started)
    ensures CloseOutIncompleteTurn(w, started).1 == OK
    ensures Shut(w, CloseOutIncompleteTurn(w, started).0)
  {
    if w.c.assistantCommitted && w.c.toolIndex < |CurrentCalls(w.c)| {
      var answered := RepairFromAnswers(w, CurrentCalls(w.c), w.c.toolIndex, started);
      BookendCloses(answered.(c := answered.c.(toolOutput := [])), INTERRUPTED_TURN_TEXT);
    } else {
      BookendCloses(w, INTERRUPTED_TURN_TEXT);
    }
  }

  /** `finish_turn_with_repair` closes the turn with every call answered and no record refused. */
  lemma RepairCloses(w: World, status: Status, started: bool)
    requires Closable(w, started)
    ensures ClosedFrom(w, FinishWithRepair(w, status, started))
    ensures FinishWithRepair(w, status, started).c.lastStatus == status
  {
    CloseOutShuts(w, started);
    FinishIdles(w, CloseOutIncompleteTurn(w, started).0, status);
  }

  /** A steered turn closes the same way, and counts as a success. */
  lemma SteeredCloses(w: World)
    requires NothingInFlight(w.c) && Room(w, |CurrentCalls(w.c)| + 1)
    requires
      || (ReplyDue(w) && w.c.toolIndex >= |CurrentCalls(w.c)|)
      || InRound(w, w.c.toolIndex, false)
    ensures ClosedFrom(w, FinishSteered(w)) && FinishSteered(w).c.lastStatus == OK
  {
    var skipped := w;
    if w.c.toolIndex < |CurrentCalls(w.c)| {
      skipped := SkipSteeredAnswers(w, CurrentCalls(w.c), w.c.toolIndex);
    }
    BookendCloses(skipped, STEERED_TURN_TEXT);
    FinishIdles(w, CloseOutSteeredTurn(skipped).0, OK);
  }
}
