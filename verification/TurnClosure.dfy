/** Turn closure over whole runs: the simulation theorem between the live turn machine and replay. */
module TurnClosure {
  import opened Basics
  import opened Messages
  import opened History
  import opened ReplayLog
  import opened ReplayShape
  import opened ContextShape
  import opened Conversation
  import opened Simulation
  import opened TurnSteps
  import Replay
  import ReplayInvariants

  // ----- the model's reply -----

  lemma {:induction false} InsertKeeps(s: Streamed, sorted: seq<Streamed>)
    ensures |InsertByIndex(s, sorted)| == |sorted| + 1
    ensures forall x :: x in InsertByIndex(s, sorted) ==> x == s || x in sorted
  {
    if sorted != [] && s.index > sorted[0].index {
      InsertKeeps(s, sorted[1..]);
    }
  }

  lemma {:induction false} SortKeeps(streamed: seq<Streamed>)
    ensures |SortByIndex(streamed)| == |streamed|
    ensures forall x :: x in SortByIndex(streamed) ==> x in streamed
  {
    if streamed != [] {
      SortKeeps(streamed[1..]);
      InsertKeeps(streamed[0], SortByIndex(streamed[1..]));
    }
  }

  predicate CallsFit(calls: seq<ToolCall>) {
    forall i :: 0 <= i < |calls| ==>
      CallValid(calls[i]) && |calls[i].id| <= MAX_CONTENT && |calls[i].arguments| <= MAX_CONTENT
  }

  lemma BuiltFits(c: Conv)
    requires StreamedFit(c.streamed) && BuildAssistant(c).Some?
    ensures BuildAssistant(c).value.Assistant? && BuildAssistant(c).value.content == c.assistant
    ensures CallsFit(BuildAssistant(c).value.calls) && |BuildAssistant(c).value.calls| == |c.streamed|
  {
    var sorted := SortByIndex(c.streamed);
    SortKeeps(c.streamed);
    forall i | 0 <= i < |sorted| ensures |sorted[i].id| <= MAX_CONTENT && |sorted[i].arguments| <= MAX_CONTENT {
      assert sorted[i] in c.streamed;
    }
  }

  /** A reply may be committed: nothing in flight and the log waiting for it. */
  predicate ReplyOpen(w: World) {
    NothingInFlight(w.c) && ReplyDue(w) && !w.p.log.b.partialSeen && !w.c.assistantCommitted
  }

  lemma NewToolsAt(calls: seq<ToolCall>)
    requires calls != []
    ensures ToolsAt(Replay.NewTools(calls), calls, 0, false)
  {
  }

  /** A reply is accepted if it has no calls, or calls replay can take. */
  lemma ReplyTaken(w: World, m: Message)
    requires ReplyOpen(w) && Room(w, 1) && m.Assistant? && |m.content| <= MAX_CONTENT && CallsFit(m.calls)
    requires m.calls == [] || Replay.CallsAcceptable(m.calls)
    ensures
      var (said, status) := Commit(w, m, ToolNone, None, false);
      && status == OK && InStep(said) && Grown(w, said, m)
      && said.p.log.b.lastStarted == w.p.log.b.lastStarted
      && if m.calls == [] then said.p.log.b.phase.ExpectUser?
         else
           && said.p.log.b.phase.ExpectToolResults? && said.p.log.b.currentTurn == w.p.log.b.currentTurn
           && said.p.log.b.tools == Replay.NewTools(m.calls)
  {
    CommitTaken(w, m, ToolNone, None, false);
  }

  lemma ReplyRefused(w: World, m: Message)
    requires ReplyOpen(w) && m.Assistant? && |m.content| <= MAX_CONTENT && CallsFit(m.calls)
    requires m.calls != [] && !Replay.CallsAcceptable(m.calls)
    ensures Commit(w, m, ToolNone, None, false) == (w.(p := w.p.(failed := true)), Replay.CallsStatus(m.calls))
  {
    var r := MakeRecord(w.p.log.nextId, w.p.turnId, MessagePayload(w, m, ToolNone, None, false));
    assert RecordValid(r);
    assert Replay.Step(w.p.log.b, r).None?;
  }

  lemma RoundOpens(w: World, m: Message)
    requires ReplyOpen(w) && Room(w, 1) && m.Assistant? && |m.content| <= MAX_CONTENT && CallsFit(m.calls)
    requires m.calls != [] && Replay.CallsAcceptable(m.calls)
    ensures
      var round := RoundOf(Commit(w, m, ToolNone, None, false).0);
      CallNext(round, false) && CurrentCalls(round.c) == m.calls
  {
    ReplyTaken(w, m);
    NewToolsAt(m.calls);
  }

  lemma ReplyShuts(w: World, m: Message)
    requires ReplyOpen(w) && Room(w, 1) && m.Assistant? && |m.content| <= MAX_CONTENT && m.calls == []
    ensures
      var round := RoundOf(Commit(w, m, ToolNone, None, false).0);
      Shut(w, round) && CurrentCalls(round.c) == []
  {
    ReplyTaken(w, m);
  }

  /** RESPONSE_DONE failing on a closed turn tries to close it again, which replay refuses. */
  lemma ShutRepairRefused(w: World, round: World, status: Status)
    requires Shut(w, round) && CurrentCalls(round.c) == [] && w.p.turnId > 0
    ensures
      var after := FinishWithRepair(round, status, false);
      && ClosedFrom(w.(p := w.p.(failed := true)), after)
      && after.c.lastStatus == PARSE
  {
    var r := MakeRecord(round.p.log.nextId, round.p.turnId,
                        MessagePayload(round, Assistant(INTERRUPTED_TURN_TEXT, []), ToolNone, None, true));
    assert RecordValid(r) && Replay.Step(round.p.log.b, r).None?;
    assert CloseOutIncompleteTurn(round, false) == (round.(p := round.p.(failed := true)), PARSE);
    var refused := round.(p := round.p.(failed := true));
    FinishIdles(w.(p := w.p.(failed := true)), refused, PARSE);
  }

  /** The reply replay refuses: calls with bad, duplicate or non-object arguments, or a second closing. */
  predicate ReplyRefusal(c: Conv, env: Env) {
    && BuildAssistant(c).Some? && BuildAssistant(c).value.Assistant?
    && var calls := BuildAssistant(c).value.calls;
    if calls == [] then !env.responseShown else !Replay.CallsAcceptable(calls)
  }

  predicate KeptOrRefused(w: World, after: World, refused: bool) {
    Kept(w.(p := w.p.(failed := w.p.failed || refused)), after)
  }

  lemma PlainReplyKeeps(w: World, landed: World, m: Message, env: Env)
    requires ReplyOpen(landed) && Roomy(landed) && landed == w.(c := w.c.(request := false))
    requires BuildAssistant(landed.c) == Some(m) && m.Assistant? && |m.content| <= MAX_CONTENT && m.calls == []
    ensures KeptOrRefused(w, OnCompleted(w, env), !env.responseShown)
  {
    ReplyShuts(landed, m);
    ReplyTaken(landed, m);
    var round := RoundOf(Commit(landed, m, ToolNone, None, false).0);
    if env.responseShown {
      FinishIdles(landed, round, OK);
    } else {
      ShutRepairRefused(landed, round, IO);
    }
  }

  lemma CallReplyKeeps(w: World, landed: World, m: Message, env: Env)
    requires ReplyOpen(landed) && Roomy(landed) && landed == w.(c := w.c.(request := false))
    requires BuildAssistant(landed.c) == Some(m) && m.Assistant? && |m.content| <= MAX_CONTENT
    requires CallsFit(m.calls) && m.calls != [] && |m.calls| == |w.c.streamed| && Replay.CallsAcceptable(m.calls)
    requires env.starting.Quiet? && w.c.modelSteps <= w.c.maxModelSteps
    ensures Kept(w, OnCompleted(w, env))
  {
    RoundOpens(landed, m);
    ReplyTaken(landed, m);
    var round := RoundOf(Commit(landed, m, ToolNone, None, false).0);
    if env.responseShown {
      NextToolKeeps(round, env);
    } else {
      RepairKeeps(round, IO, false);
    }
  }

  lemma CompletedKeeps(w: World, env: Env)
    requires Running(w) && w.c.request && Roomy(w) && env.starting.Quiet?
    ensures KeptOrRefused(w, OnCompleted(w, env), ReplyRefusal(w.c, env))
  {
    var landed := w.(c := w.c.(request := false));
    var built := BuildAssistant(landed.c);
    if built.None? {
      RepairKeeps(landed, PARSE, false);
    } else {
      BuiltFits(landed.c);
      var m := built.value;
      if m.calls == [] {
        PlainReplyKeeps(w, landed, m, env);
      } else if Replay.CallsAcceptable(m.calls) {
        CallReplyKeeps(w, landed, m, env);
      } else {
        ReplyRefused(landed, m);
        RepairKeeps(landed.(p := landed.p.(failed := true)), Replay.CallsStatus(m.calls), false);
      }
    }
  }

  // ----- starting a turn, the queue, and checkpoints -----

  /** The user message is accepted between turns, and delivers the queued input if one waits. */
  lemma UserTaken(w: World, content: bytes)
    requires InStep(w) && w.p.log.b.phase.ExpectUser? && w.p.turnId == NextTurnId(w.p)
    requires Room(w, 1) && w.p.log.b.lastStarted + 1 < U64_MAX && |content| <= MAX_CONTENT
    requires w.p.log.b.queueConsumed ==>
               w.p.log.b.pending.value.turnId == w.p.turnId && content == w.p.log.b.pending.value.content
    ensures
      var (said, status) := Commit(w, User(content), ToolNone, None, false);
      && status == OK && InStep(said)
      && said.c == w.c.(messages := w.c.messages + [User(content)])
      && said.p == w.p.(log := said.p.log)
      && said.p.log.b.phase.ExpectAssistant? && !said.p.log.b.partialSeen && !said.p.log.b.queueConsumed
      && said.p.log.b.currentTurn == w.p.turnId == said.p.log.b.lastStarted
      && said.p.log.b.pending == (if w.p.log.b.queueConsumed then None else w.p.log.b.pending)
  {
    CommitTaken(w, User(content), ToolNone, None, false);
  }

  /** A turn starts properly exactly when its first request does; otherwise it ends with the log left open. */
  lemma StartRuns(w: World, content: bytes, env: Env)
    requires Idle(w) && QueueNext(w) && 0 < w.c.maxModelSteps && Roomy(w) && |content| <= MAX_CONTENT
    requires w.p.log.b.pending.Some? ==> w.p.log.b.queueConsumed && content == w.p.log.b.pending.value.content
    ensures
      var after := Start(w, content, env);
      && after.p.failed == w.p.failed
      && after.p.log.b.pending.None?
      && after.c.maxModelSteps == w.c.maxModelSteps
      && if env.requestStart == OK then Running(after)
         else !after.c.busy && !after.p.log.b.phase.ExpectUser? && !Idle(after) && !Running(after)
  {
    UserTaken(Begun(w), content);
  }

  lemma QueueTaken(w: World, content: bytes)
    requires Running(w) && Roomy(w) && w.p.log.b.pending.None? && |content| <= MAX_CONTENT
    ensures
      var after := QueueInput(w, content);
      && Running(after) && after.c == w.c.(steering := true) && after.p.failed == w.p.failed
      && after.p.log.b
         == w.p.log.b.(pending := Some(Replay.Pending(content, w.p.log.nextId, w.p.log.b.lastStarted + 1)))
  {
    var r := MakeRecord(w.p.log.nextId, NextTurnId(w.p), QueuedInput(content));
    AppendKeepsSound(w.p.log, r);
  }

  lemma ResolutionTaken(w: World, consumed: bool)
    requires Idle(w) && Roomy(w) && w.p.log.b.pending.Some? && (consumed ==> !w.p.log.b.queueConsumed)
    ensures
      var after := ResolveQueue(w, consumed);
      && Idle(after) && after.c == w.c && after.p.failed == w.p.failed
      && after.p.log.b
         == (if consumed then w.p.log.b.(queueConsumed := true)
             else w.p.log.b.(queueConsumed := false, pending := None))
  {
    var pending := w.p.log.b.pending.value;
    var r := MakeRecord(w.p.log.nextId, pending.turnId,
                        QueueResolved(pending.recordId, if consumed then Consumed else Discarded));
    AppendKeepsSound(w.p.log, r);
  }

  /** Replay refuses the checkpoint: the head of the context is newer than what follows it. */
  predicate HeadNewer(context: seq<Replay.ContextItem>) {
    |context| > 1 && context[0].recordId > context[1].recordId
  }

  lemma CheckpointAppended(log: Log, prefix: nat, summary: bytes, model: bytes)
    requires Sound(log) && ReplayInvariants.Quiescent(log.b) && log.nextId < U64_MAX
    requires 0 < prefix <= |log.b.context|
    requires |summary| <= MAX_CONTENT && ModelOk(model)
    ensures
      var r := ReplayInvariants.CheckpointRecord(log.b.context, log.nextId, prefix, summary, model);
      var next := Append(log, r);
      && (next.Some? <==> !HeadNewer(log.b.context))
      && (next.Some? ==>
            && RecordValid(r) && Sound(next.value)
            && ContextMessages(next.value.b.context)
               == [Assistant(summary, [])] + ContextMessages(log.b.context)[prefix..]
            && next.value.b
               == log.b.(context := next.value.b.context, checkpoint := next.value.b.checkpoint))
  {
    var r := ReplayInvariants.CheckpointRecord(log.b.context, log.nextId, prefix, summary, model);
    ReplayInvariants.CheckpointAccepted(log.b, log.nextId, prefix, summary, model);
    if !HeadNewer(log.b.context) { AppendKeepsSound(log, r); }
  }

  lemma CheckpointWritten(w: World, prefix: nat, summary: bytes, model: bytes)
    requires Idle(w) && Roomy(w) && ReplayInvariants.Quiescent(w.p.log.b)
    requires 0 < prefix <= |w.c.messages|
    requires |summary| <= MAX_CONTENT && ModelOk(model)
    ensures
      var context := w.p.log.b.context;
      var (p, status) :=
        PersistRecord(w.p, 0, Checkpoint(summary, model, context[0].recordId, context[prefix - 1].recordId));
      if HeadNewer(context) then status != OK && p == w.p.(failed := true)
      else
        && status == OK && p == w.p.(log := p.log) && Sound(p.log)
        && ContextMessages(p.log.b.context) == [Assistant(summary, [])] + w.c.messages[prefix..]
        && p.log.b == w.p.log.b.(context := p.log.b.context, checkpoint := p.log.b.checkpoint)
  {
    CheckpointAppended(w.p.log, prefix, summary, model);
    hide Sound, Append, AppendStatus, RecordValid, HeadNewer;
  }

  /** Live splice and durable checkpoint remove the same prefix, or neither happens. */
  lemma CompactKeeps(w: World, prefix: nat, summary: bytes, model: bytes)
    requires Idle(w) && Roomy(w) && ReplayInvariants.Quiescent(w.p.log.b)
    requires 0 < prefix <= |w.c.messages|
    requires |summary| <= MAX_CONTENT && ModelOk(model)
    ensures
      var after := Compact(w, prefix, summary, model);
      && KeptOrRefused(w, after, HeadNewer(w.p.log.b.context))
      && after.c.messages == if HeadNewer(w.p.log.b.context) then w.c.messages
                             else [Assistant(summary, [])] + w.c.messages[prefix..]
  {
    CheckpointWritten(w, prefix, summary, model);
  }

  /** A value replay takes for a setting. */
  predicate SettingOk(value: bytes) {
    0 < |value| <= MAX_SETTING_VALUE && !HasNul(value)
  }

  /** What a setting record does to a log it is accepted by. */
  function SettingApplied(b: Replay.Builder, field: SettingField, value: bytes): (after: Replay.Builder) {
    if field.ModelSetting? then b.(lastModel := Some(value)) else b.(lastCwd := Some(value))
  }

  lemma SettingAccepted(log: Log, field: SettingField, value: bytes)
    requires Sound(log) && log.nextId < U64_MAX && log.b.lastStarted < U64_MAX
    ensures
      var next := Append(log, SettingRecord(log, field, value));
      && (next.Some? <==> ReplayInvariants.Quiescent(log.b) && SettingOk(value))
      && (next.Some? ==>
            next.value == Log(SettingApplied(log.b, field, value), log.nextId + 1) && Sound(next.value))
  {
    var r := SettingRecord(log, field, value);
    if Append(log, r).Some? { AppendKeepsSound(log, r); }
  }

  /** A setting is accepted exactly between turns with nothing queued, and then the live value is the recorded one. */
  lemma SettingTaken(w: World, field: SettingField, value: bytes)
    requires (Idle(w) || Running(w)) && Roomy(w)
    ensures
      var (after, status) := ChangeSetting(w, field, value);
      && (status == OK <==> ReplayInvariants.Quiescent(w.p.log.b) && SettingOk(value))
      && Kept(w, after)
      && (status != OK ==> after == w)
      && (status == OK ==>
            && Idle(after) && after.p.log.b == SettingApplied(w.p.log.b, field, value)
            && after.c == (if field.ModelSetting? then w.c.(model := value) else w.c)
            && after.p == w.p.(log := after.p.log, cwd := if field.CwdSetting? then value else w.p.cwd))
  {
    SettingAccepted(w.p.log, field, value);
    hide Append, Sound;
  }

  // ----- every step, every run -----

  /** What the environment is taken to do; see the README for each assumption. */
  predicate Enabled(w: World, e: Event) {
    match e
    case StartEvent(content, env) =>
      && !w.c.busy && |content| <= MAX_CONTENT && env.requestStart == OK
      && (w.p.log.b.pending.Some? ==> w.p.log.b.queueConsumed && content == w.p.log.b.pending.value.content)
    case TextEvent(_, _) => w.c.busy && w.c.request
    case CallDeltaEvent(_, _, _, _) => w.c.busy && w.c.request
    case CompletedEvent(env) => w.c.busy && w.c.request && env.starting.Quiet?
    case FailedEvent(status, _) => w.c.busy && w.c.request && status != OK
    case ToolOutputEvent(_, _) => w.c.busy && w.c.tool
    case ToolDoneEvent(_, _, env) => w.c.busy && w.c.tool && env.starting.Quiet?
    case PermissionEvent(_, env) => env.starting.Quiet?
    case SteerEvent => true
    case CancelEvent => true
    case QueueEvent(content) => w.c.busy && w.p.log.b.pending.None? && |content| <= MAX_CONTENT
    case ResolveQueueEvent(consumed) =>
      !w.c.busy && w.p.log.b.pending.Some? && (consumed ==> !w.p.log.b.queueConsumed)
    case CompactEvent(prefix, summary, model) =>
      && !w.c.busy && ReplayInvariants.Quiescent(w.p.log.b)
      && 0 < prefix <= |w.c.messages| && CutsAtTurn(w.c.messages, prefix)
      && |summary| <= MAX_CONTENT && ModelOk(model)
    case SettingEvent(_, _) => true
  }

  /** The only records replay refuses. */
  predicate Refused(w: World, e: Event) {
    match e
    case CompletedEvent(env) => ReplyRefusal(w.c, env)
    case CompactEvent(_, _, _) => HeadNewer(w.p.log.b.context)
    case _ => false
  }

  lemma RunningStepKeeps(w: World, e: Event)
    requires Running(w) && Roomy(w) && Enabled(w, e) && !e.QueueEvent?
    ensures KeptOrRefused(w, Step(w, e), Refused(w, e))
  {
    hide OnText, OnCallDelta, OnCompleted, OnFailed, OnToolOutput, OnToolDone, Cancel, ChangeSetting, ReplyRefusal;
    match e
    case StartEvent(_, _) =>
    case TextEvent(data, shown) => TextKeeps(w, data, shown);
    case CallDeltaEvent(index, id, name, arguments) => CallDeltaKeeps(w, index, id, name, arguments);
    case CompletedEvent(env) => CompletedKeeps(w, env);
    case FailedEvent(status, errorShown) => FailedKeeps(w, status, errorShown);
    case ToolOutputEvent(data, shown) => ToolOutputKeeps(w, data, shown);
    case ToolDoneEvent(kind, code, env) => ToolDoneKeeps(w, kind, code, env);
    case PermissionEvent(allow, env) => PermissionKeeps(w, allow, env);
    case SteerEvent =>
    case CancelEvent => CancelKeeps(w);
    case ResolveQueueEvent(_) =>
    case CompactEvent(_, _, _) =>
    case SettingEvent(field, value) => SettingTaken(w, field, value);
  }

  lemma IdleStepKeeps(w: World, e: Event)
    requires Idle(w) && QueueNext(w) && 0 < w.c.maxModelSteps && Roomy(w) && Enabled(w, e) && !e.QueueEvent?
    ensures Inv(Step(w, e))
    ensures Step(w, e).p.failed == (w.p.failed || Refused(w, e))
  {
    hide Start, ResolveQueue, Compact, ChangeSetting, Running;
    match e
    case StartEvent(content, env) => StartRuns(w, content, env);
    case ResolveQueueEvent(consumed) => ResolutionTaken(w, consumed);
    case CompactEvent(prefix, summary, model) => CompactKeeps(w, prefix, summary, model);
    case SettingEvent(field, value) => SettingTaken(w, field, value);
    case _ =>
  }

  /** Every callback, in every state it can fire in, keeps the invariant and refuses only what `Refused` says. */
  lemma StepKeepsInv(w: World, e: Event)
    requires Inv(w) && Roomy(w) && Enabled(w, e)
    ensures Inv(Step(w, e))
    ensures Step(w, e).p.failed == (w.p.failed || Refused(w, e))
  {
    if e.QueueEvent? {
      QueueTaken(w, e.content);
    } else if Running(w) {
      RunningStepKeeps(w, e);
      hide Step, Refused, Roomy, Enabled, Running, Idle;
    } else {
      IdleStepKeeps(w, e);
    }
  }

  predicate RunEnabled(w: World, es: seq<Event>)
    decreases es
  {
    es == [] || (Roomy(w) && Enabled(w, es[0]) && RunEnabled(Step(w, es[0]), es[1..]))
  }

  predicate RunRefuses(w: World, es: seq<Event>)
    decreases es
  {
    es != [] && (Refused(w, es[0]) || RunRefuses(Step(w, es[0]), es[1..]))
  }

  /** The simulation, over runs of any length. */
  lemma {:induction false} RunKeepsInv(w: World, es: seq<Event>)
    requires Inv(w) && RunEnabled(w, es)
    ensures Inv(Run(w, es))
    ensures Run(w, es).p.failed == (w.p.failed || RunRefuses(w, es))
    decreases es
  {
    if es != [] {
      StepKeepsInv(w, es[0]);
      RunKeepsInv(Step(w, es[0]), es[1..]);
    }
  }

  /** Whenever a turn is over, the log is closed, the contexts agree and every call has its result. */
  lemma TurnOver(w: World)
    requires Inv(w) && !w.c.busy
    ensures w.p.log.b.phase.ExpectUser? && w.p.log.b.tools == [] && !w.p.log.b.partialSeen
    ensures w.c.messages == ContextMessages(w.p.log.b.context)
    ensures WellShaped(w.p.log.b) && w.c.messages != [] ==> Scan(Empty, w.c.messages) == Closed
    ensures NothingInFlight(w.c)
  {
  }

  /** While a turn is under way, exactly one of the three handles is set. */
  lemma OneInFlight(w: World)
    requires Inv(w) && w.c.busy
    ensures w.c.request ==> !w.c.tool && !w.c.pendingPermission
    ensures w.c.tool ==> !w.c.request && !w.c.pendingPermission
    ensures w.c.request || w.c.tool || w.c.pendingPermission
    ensures w.c.messages == ContextMessages(w.p.log.b.context)
    ensures w.c.modelSteps <= w.c.maxModelSteps
  {
  }
}
