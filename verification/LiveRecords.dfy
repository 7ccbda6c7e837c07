/** The records a live run writes: a list that takes the log from where it was to where it is. */
module LiveRecords {
  import opened Basics
  import opened Messages
  import opened History
  import opened CodecRoundTrip
  import opened ContextShape
  import opened Conversation
  import opened ReplayLog
  import opened ReplayShape
  import opened Simulation
  import opened TurnClosure
  import opened TurnSteps
  import JsonArena
  import Replay
  import ReplayInvariants
  import Utf8Stream

  /** Records accepted one after another, each cut at a turn if it is a checkpoint, none that cannot be read back. */
  predicate Written(log: Log, rs: seq<Record>)
    decreases rs
  {
    || rs == []
    || (&& Append(log, rs[0]).Some? && CutsWell(log.b, rs[0]) && !RepairWithCalls(rs[0])
        && Written(Append(log, rs[0]).value, rs[1..]))
  }

  lemma {:induction false} WrittenAppends(log: Log, rs: seq<Record>)
    requires Written(log, rs)
    ensures AppendAll(log, rs).Some?
    decreases rs
  {
    if rs != [] { WrittenAppends(Append(log, rs[0]).value, rs[1..]); }
  }

  lemma {:induction false} WrittenConcat(log: Log, a: seq<Record>, b: seq<Record>)
    requires Written(log, a) && AppendAll(log, a).Some? && Written(AppendAll(log, a).value, b)
    ensures Written(log, a + b)
    decreases a
  {
    hide CutsWell, RepairWithCalls, Append;
    if a == [] {
      assert a + b == b;
    } else {
      WrittenConcat(Append(log, a[0]).value, a[1..], b);
      assert (a + b)[1..] == a[1..] + b;
    }
  }

  lemma {:induction false} WrittenPrefix(log: Log, rs: seq<Record>, k: nat)
    requires Written(log, rs) && k <= |rs|
    ensures Written(log, rs[..k])
    decreases rs
  {
    hide CutsWell, RepairWithCalls, Append;
    if k > 0 {
      WrittenPrefix(Append(log, rs[0]).value, rs[1..], k - 1);
      assert rs[..k][1..] == rs[1..][..k - 1];
    }
  }

  /** Some list of such records leads from one log to the other. */
  ghost predicate Reaches(before: Log, after: Log) {
    exists rs :: Written(before, rs) && AppendAll(before, rs) == Some(after)
  }

  /** None of them a setting. */
  ghost predicate Grows(before: Log, after: Log) {
    Reaches(before, after) && after.b.lastModel == before.b.lastModel && after.b.lastCwd == before.b.lastCwd
  }

  /** A callback that leaves model and directory alone. */
  ghost predicate Moves(before: World, after: World) {
    && Grows(before.p.log, after.p.log)
    && after.c.model == before.c.model && after.p.model == before.p.model && after.p.cwd == before.p.cwd
  }

  lemma ReachesSelf(log: Log)
    ensures Reaches(log, log)
  {
    assert Written(log, []) && AppendAll(log, []) == Some(log);
  }

  lemma GrowsSelf(log: Log)
    ensures Grows(log, log)
  {
    ReachesSelf(log);
  }

  lemma ReachesTrans(a: Log, b: Log, c: Log)
    requires Reaches(a, b) && Reaches(b, c)
    ensures Reaches(a, c)
  {
    var rs :| Written(a, rs) && AppendAll(a, rs) == Some(b);
    var more :| Written(b, more) && AppendAll(b, more) == Some(c);
    WrittenConcat(a, rs, more);
    AppendAllConcat(a, rs, more);
  }

  lemma GrowsTrans(a: Log, b: Log, c: Log)
    requires Grows(a, b) && Grows(b, c)
    ensures Grows(a, c)
  {
    hide Reaches;
    ReachesTrans(a, b, c);
  }

  lemma ReachesByOne(log: Log, r: Record)
    requires Append(log, r).Some? && CutsWell(log.b, r) && !RepairWithCalls(r)
    ensures Reaches(log, Append(log, r).value)
  {
    hide Append, CutsWell, RepairWithCalls;
    var rs, next := [r], Append(log, r).value;
    assert rs[1..] == [];
    assert Written(next, []) && AppendAll(next, []) == Some(next);
    assert Written(log, rs) && AppendAll(log, rs) == Some(Append(log, r).value);
  }

  lemma GrowsByOne(log: Log, r: Record)
    requires Append(log, r).Some? && CutsWell(log.b, r) && !RepairWithCalls(r) && !r.payload.SessionSetting?
    ensures Grows(log, Append(log, r).value)
  {
    ReachesByOne(log, r);
    ReplayInvariants.StepSetting(log.b, r);
    hide Reaches, Replay.Step, RecordValid, CutsWell, RepairWithCalls;
  }

  // ----- one function of the turn machine after another -----

  /** A payload the live code writes outside compaction. */
  predicate Ordinary(payload: Payload) {
    && !payload.Checkpoint? && !payload.SessionSetting?
    && !(payload.MessageRecord? && payload.message.source.Repair?
         && payload.message.value.Assistant? && payload.message.value.calls != [])
  }

  lemma PersistGrows(p: Persist, turnId: u64, payload: Payload)
    requires Ordinary(payload)
    ensures
      var after := PersistRecord(p, turnId, payload).0;
      Grows(p.log, after.log) && after == p.(log := after.log, failed := after.failed)
  {
    hide Grows, Append, AppendStatus, RecordValid;
    GrowsSelf(p.log);
    var r := MakeRecord(p.log.nextId, turnId, payload);
    if Append(p.log, r).Some? { GrowsByOne(p.log, r); }
  }

  predicate NoRepairedCalls(m: Message, isRepair: bool) {
    isRepair && m.Assistant? ==> m.calls == []
  }

  lemma CommitGrows(w: World, m: Message, outcome: ToolOutcome, raw: Option<bytes>, isRepair: bool)
    requires NoRepairedCalls(m, isRepair)
    ensures Moves(w, Commit(w, m, outcome, raw, isRepair).0)
  {
    hide Grows, PersistRecord;
    PersistGrows(w.p, w.p.turnId, MessagePayload(w, m, outcome, raw, isRepair));
  }

  lemma {:induction false} RepairFromGrows(w: World, calls: seq<ToolCall>, i: nat, started: bool)
    ensures Moves(w, RepairFrom(w, calls, i, started).0)
    decreases |calls| - i
  {
    hide Grows, Commit;
    GrowsSelf(w.p.log);
    if i < |calls| {
      var next := RepairCall(w, calls[i], started).0;
      CommitGrows(w, ToolResult(calls[i].id, CANCELLED_UNKNOWN_TEXT), ToolUnknown, Some(w.c.toolOutput), false);
      CommitGrows(w, ToolResult(calls[i].id, CANCELLED_NOT_EXECUTED_TEXT), ToolNotExecuted, None, false);
      RepairFromGrows(next, calls, i + 1, false);
      GrowsTrans(w.p.log, next.p.log, RepairFrom(next, calls, i + 1, false).0.p.log);
    }
  }

  lemma {:induction false} SkipGrows(w: World, calls: seq<ToolCall>, i: nat)
    ensures Moves(w, SkipSteeredFrom(w, calls, i).0)
    decreases |calls| - i
  {
    hide Grows, Commit;
    GrowsSelf(w.p.log);
    if i < |calls| {
      var m := ToolResult(calls[i].id, STEERED_NOT_EXECUTED_TEXT);
      var next := Commit(w, m, ToolNotExecuted, None, false).0;
      CommitGrows(w, m, ToolNotExecuted, None, false);
      SkipGrows(next, calls, i + 1);
      GrowsTrans(w.p.log, next.p.log, SkipSteeredFrom(next, calls, i + 1).0.p.log);
    }
  }

  lemma CloseOutGrows(w: World, started: bool)
    ensures Moves(w, CloseOutIncompleteTurn(w, started).0)
  {
    hide Grows, Commit, RepairFrom;
    GrowsSelf(w.p.log);
    var open := w.c.assistantCommitted && w.c.toolIndex < |CurrentCalls(w.c)|;
    var repaired := if open then RepairDanglingCalls(w, started).0 else w;
    if open { RepairFromGrows(w, CurrentCalls(w.c), w.c.toolIndex, started); }
    CommitGrows(repaired, Assistant(INTERRUPTED_TURN_TEXT, []), ToolNone, None, true);
    GrowsTrans(w.p.log, repaired.p.log, RepairInterruptedTurn(repaired).0.p.log);
  }

  lemma RepairGrows(w: World, status: Status, started: bool)
    ensures Moves(w, FinishWithRepair(w, status, started))
  {
    hide Grows, CloseOutIncompleteTurn;
    CloseOutGrows(w, started);
  }

  lemma SteeredGrows(w: World)
    ensures Moves(w, FinishSteered(w))
  {
    hide Grows, Commit, SkipSteeredFrom;
    var skipped := SkipSteeredFrom(w, CurrentCalls(w.c), w.c.toolIndex).0;
    SkipGrows(w, CurrentCalls(w.c), w.c.toolIndex);
    CommitGrows(skipped, Assistant(STEERED_TURN_TEXT, []), ToolNone, None, true);
    GrowsTrans(w.p.log, skipped.p.log, CloseOutSteeredTurn(skipped).0.p.log);
  }

  lemma CancelGrows(w: World)
    ensures Moves(w, Cancel(w))
  {
    hide Grows, PersistRecord, CloseOutIncompleteTurn;
    GrowsSelf(w.p.log);
    PersistGrows(w.p, w.p.turnId, PartialAssistant(w.c.assistant, w.p.model));
    var detached := Detached(w);
    CloseOutGrows(detached, w.c.tool);
    GrowsTrans(w.p.log, detached.p.log, CloseOutIncompleteTurn(detached, w.c.tool).0.p.log);
  }

  lemma DecisionGrows(w: World, call: ToolCall, allow: bool, env: Env)
    ensures Moves(w, ResolvePermissionBody(w, call, allow, env))
  {
    hide Grows, PersistRecord, Commit, FinishWithRepair, Cancel;
    if allow {
      var announced := w.(p := PersistRecord(w.p, w.p.turnId, ToolStarted(call.id)).0);
      PersistGrows(w.p, w.p.turnId, ToolStarted(call.id));
      var status := PersistRecord(w.p, w.p.turnId, ToolStarted(call.id)).1;
      RepairGrows(announced, status, false);
      RepairGrows(announced, IO, false);
      RepairGrows(announced, env.resolve, true);
      RepairGrows(announced, env.setup, true);
      CancelGrows(announced);
      GrowsSelf(announced.p.log);
      GrowsTrans(w.p.log, announced.p.log, ResolvePermissionBody(w, call, allow, env).p.log);
    } else {
      var (denied, status) := Commit(w, ToolResult(call.id, DENIED_TEXT), ToolDenied, None, false);
      CommitGrows(w, ToolResult(call.id, DENIED_TEXT), ToolDenied, None, false);
      var moved := denied.(c := denied.c.(toolIndex := w.c.toolIndex + 1));
      RepairGrows(moved, if status != OK then status else DENIED, false);
      GrowsTrans(w.p.log, moved.p.log, DenyAndClose(w, call).p.log);
    }
  }

  lemma NextToolGrows(w: World, env: Env)
    ensures Moves(w, StartNextTool(w, env))
  {
    hide Grows, FinishWithRepair, FinishSteered, Cancel, ResolvePermissionBody;
    GrowsSelf(w.p.log);
    SteeredGrows(w);
    if w.c.busy && !w.c.steering {
      if w.c.toolIndex >= |CurrentCalls(w.c)| {
        var (asked, status) := StartModelRequest(w, env);
        RepairGrows(asked, status, false);
      } else {
        var call := CurrentCalls(w.c)[w.c.toolIndex];
        RepairGrows(w, JsonArena.ArgumentsStatus(call.arguments, TURN_ARENA), false);
        RepairGrows(w, env.toolStart, false);
        RequestGrows(w, call, env);
      }
    }
  }

  lemma RequestGrows(w: World, call: ToolCall, env: Env)
    ensures Moves(w, RequestToolCall(w, call, env))
  {
    hide Grows, FinishWithRepair, Cancel, ResolvePermissionBody;
    match env.decision
    case Allow => DecisionGrows(w, call, true, env);
    case Deny => DecisionGrows(w, call, false, env);
    case Ask =>
      GrowsSelf(w.p.log);
      RepairGrows(w.(c := w.c.(pendingPermission := false)), IO, false);
      CancelGrows(w.(c := w.c.(pendingPermission := true)));
  }

  // ----- the callbacks -----

  /** A start writes no more than the user message. */
  lemma StartSays(w: World, content: bytes, env: Env)
    ensures
      var after, said := Start(w, content, env), Commit(Begun(w), User(content), ToolNone, None, false).0;
      || after == w
      || (after.p.log == said.p.log && after.c.model == said.c.model
          && after.p.model == said.p.model && after.p.cwd == said.p.cwd)
  {
    hide Commit, Begun;
  }

  lemma StartGrows(w: World, content: bytes, env: Env)
    ensures Moves(w, Start(w, content, env))
  {
    hide Grows, Commit, Start;
    GrowsSelf(w.p.log);
    CommitGrows(Begun(w), User(content), ToolNone, None, false);
    StartSays(w, content, env);
  }

  lemma StreamGrows(w: World, e: Event)
    requires e.TextEvent? || e.CallDeltaEvent? || e.ToolOutputEvent?
    ensures Moves(w, Step(w, e))
  {
    hide Grows, CloseOutIncompleteTurn, FindStreamed, WithStreamed, Extend, Limited;
    GrowsSelf(w.p.log);
    match e
    case TextEvent(data, _) =>
      var appended := Limited(w.c.assistant, data);
      var kept := if appended.Some? then w.(c := w.c.(assistant := appended.value)) else w;
      CloseOutGrows(kept.(c := kept.c.(request := false)), false);
    case CallDeltaEvent(index, id, name, arguments) =>
      var streamed := WithStreamed(w.c.streamed, index);
      var i := FindStreamed(streamed, index);
      if i < |streamed| {
        var kept := w.(c := w.c.(streamed := streamed[i := Extend(streamed[i], id, name, arguments).0]));
        CloseOutGrows(kept.(c := kept.c.(request := false)), false);
      }
    case ToolOutputEvent(data, _) =>
      var appended := Limited(w.c.toolOutput, data);
      var kept := if appended.Some? then w.(c := w.c.(toolOutput := appended.value)) else w;
      CloseOutGrows(kept.(c := kept.c.(tool := false)), true);
  }

  lemma CompletedGrows(w: World, env: Env)
    ensures Moves(w, OnCompleted(w, env))
  {
    hide Grows, Commit, FinishWithRepair, StartNextTool, BuildAssistant;
    var landed := w.(c := w.c.(request := false));
    RepairGrows(landed, PARSE, false);
    var built := BuildAssistant(landed.c);
    if built.Some? {
      var (said, status) := Commit(landed, built.value, ToolNone, None, false);
      CommitGrows(landed, built.value, ToolNone, None, false);
      RepairGrows(said, status, false);
      RepairGrows(RoundOf(said), IO, false);
      NextToolGrows(RoundOf(said), env);
      GrowsSelf(said.p.log);
      GrowsTrans(w.p.log, said.p.log, OnCompleted(w, env).p.log);
    }
  }

  lemma FailedGrows(w: World, failure: Status, errorShown: Status)
    ensures Moves(w, OnFailed(w, failure, errorShown))
  {
    hide Grows, PersistRecord, FinishWithRepair;
    var status := if errorShown != OK then errorShown else failure;
    var landed := w.(c := w.c.(request := false));
    RepairGrows(landed, status, false);
    var (p, partial) := PersistRecord(w.p, w.p.turnId, PartialAssistant(w.c.assistant, w.p.model));
    PersistGrows(w.p, w.p.turnId, PartialAssistant(w.c.assistant, w.p.model));
    var kept := landed.(p := p);
    RepairGrows(kept, if partial != OK then partial else status, false);
    GrowsTrans(w.p.log, p.log, FinishWithRepair(kept, if partial != OK then partial else status, false).p.log);
  }

  lemma ToolDoneGrows(w: World, kind: nat, code: int, env: Env)
    ensures Moves(w, OnToolDone(w, kind, code, env))
  {
    hide Grows, FinishWithRepair, AnswerCall, ExitText;
    GrowsSelf(w.p.log);
    var landed := w.(c := w.c.(tool := false));
    var text := Utf8Stream.Normalized(w.c.toolOutput) + ExitText(kind, code);
    if w.c.toolIndex < |CurrentCalls(w.c)| {
      RepairGrows(landed.(c := landed.c.(toolOutput := [])), NOMEM, true);
      AnswerGrows(landed, CurrentCalls(w.c)[w.c.toolIndex], text,
                  if kind == 0 && code == 0 then ToolCompleted else ToolFailed, env);
    }
  }

  lemma AnswerGrows(w: World, call: ToolCall, text: bytes, outcome: ToolOutcome, env: Env)
    ensures Moves(w, AnswerCall(w, call, text, outcome, env))
  {
    hide Grows, Commit, FinishWithRepair, StartNextTool;
    var (said, status) := Commit(w, ToolResult(call.id, text), outcome, Some(w.c.toolOutput), false);
    CommitGrows(w, ToolResult(call.id, text), outcome, Some(w.c.toolOutput), false);
    var cleared := said.(c := said.c.(toolOutput := []));
    RepairGrows(cleared, status, true);
    NextToolGrows(cleared.(c := cleared.c.(toolIndex := cleared.c.toolIndex + 1)), env);
    GrowsTrans(w.p.log, said.p.log, AnswerCall(w, call, text, outcome, env).p.log);
  }

  lemma QueueGrows(w: World, e: Event)
    requires e.QueueEvent? || e.ResolveQueueEvent?
    ensures Moves(w, Step(w, e))
  {
    hide Grows, PersistRecord;
    GrowsSelf(w.p.log);
    match e
    case QueueEvent(content) => PersistGrows(w.p, NextTurnId(w.p), QueuedInput(content));
    case ResolveQueueEvent(consumed) =>
      if w.p.log.b.pending.Some? {
        var pending := w.p.log.b.pending.value;
        PersistGrows(w.p, pending.turnId,
                     QueueResolved(pending.recordId, if consumed then Consumed else Discarded));
      }
  }

  /** A checkpoint for a prefix that ends at a turn boundary cuts there. */
  lemma CompactGrows(w: World, prefix: nat, summary: bytes, model: bytes)
    requires Idle(w) && ReplayInvariants.Quiescent(w.p.log.b)
    requires 0 < prefix <= |w.c.messages| && CutsAtTurn(w.c.messages, prefix)
    requires |summary| <= MAX_CONTENT && ModelOk(model)
    ensures Moves(w, Compact(w, prefix, summary, model))
  {
    hide Grows, Replay.Step, RecordValid;
    GrowsSelf(w.p.log);
    var b := w.p.log.b;
    var r := ReplayInvariants.CheckpointRecord(b.context, w.p.log.nextId, prefix, summary, model);
    ReplayInvariants.CheckpointAccepted(b, w.p.log.nextId, prefix, summary, model);
    if Append(w.p.log, r).Some? {
      assert CutsWell(b, r);
      GrowsByOne(w.p.log, r);
    }
  }

  /** Every callback but a setting. */
  lemma StepGrows(w: World, e: Event)
    requires Inv(w) && Enabled(w, e) && !e.SettingEvent?
    ensures Moves(w, Step(w, e))
  {
    hide Grows, Start, OnText, OnCallDelta, OnCompleted, OnFailed, OnToolOutput, OnToolDone, Cancel, QueueInput,
         ResolveQueue, Compact, ResolvePermissionBody;
    match e
    case StartEvent(content, env) => StartGrows(w, content, env);
    case CompletedEvent(env) => CompletedGrows(w, env);
    case FailedEvent(status, errorShown) => FailedGrows(w, status, errorShown);
    case ToolDoneEvent(kind, code, env) => ToolDoneGrows(w, kind, code, env);
    case PermissionEvent(allow, env) =>
      GrowsSelf(w.p.log);
      if w.c.pendingPermission && w.c.toolIndex < |CurrentCalls(w.c)| {
        DecisionGrows(w.(c := w.c.(pendingPermission := false)), CurrentCalls(w.c)[w.c.toolIndex], allow, env);
      }
    case SteerEvent => GrowsSelf(w.p.log);
    case CancelEvent => CancelGrows(w);
    case QueueEvent(_) => QueueGrows(w, e);
    case ResolveQueueEvent(_) => QueueGrows(w, e);
    case CompactEvent(prefix, summary, model) => CompactGrows(w, prefix, summary, model);
    case _ => StreamGrows(w, e);
  }

  lemma SettingReaches(w: World, field: SettingField, value: bytes)
    requires Inv(w) && Roomy(w)
    ensures Reaches(w.p.log, ChangeSetting(w, field, value).0.p.log)
  {
    hide Reaches, Append, Inv;
    ReachesSelf(w.p.log);
    var r := SettingRecord(w.p.log, field, value);
    if Append(w.p.log, r).Some? { ReachesByOne(w.p.log, r); }
  }

  lemma StepReaches(w: World, e: Event)
    requires Inv(w) && Roomy(w) && Enabled(w, e)
    ensures Reaches(w.p.log, Step(w, e).p.log)
  {
    hide Reaches, Inv, Roomy, Enabled, ChangeSetting;
    if e.SettingEvent? {
      SettingReaches(w, e.field, e.value);
    } else {
      hide Step;
      StepGrows(w, e);
    }
  }

  /** Over every run: some list of records, written one by one, leads from the first log to the last. */
  lemma {:induction false} RunGrows(w: World, es: seq<Event>)
    requires Inv(w) && RunEnabled(w, es)
    ensures Reaches(w.p.log, Run(w, es).p.log)
    decreases es
  {
    hide Reaches, Step, Inv, Roomy, Enabled;
    ReachesSelf(w.p.log);
    if es != [] {
      StepKeepsInv(w, es[0]);
      StepReaches(w, es[0]);
      RunGrows(Step(w, es[0]), es[1..]);
      ReachesTrans(w.p.log, Step(w, es[0]).p.log, Run(w, es).p.log);
    }
  }

  // ----- settings -----

  /** The live model and directory are the ones last recorded. */
  predicate SettingsLive(w: World) {
    w.p.log.b.lastModel == Some(w.c.model) && w.p.log.b.lastCwd == Some(w.p.cwd)
  }

  lemma StepKeepsSettings(w: World, e: Event)
    requires Inv(w) && Roomy(w) && Enabled(w, e) && SettingsLive(w)
    ensures SettingsLive(Step(w, e)) && Step(w, e).p.model == w.p.model
  {
    if e.SettingEvent? {
      SettingTaken(w, e.field, e.value);
      hide Append, Inv, Roomy, Enabled;
    } else {
      StepGrows(w, e);
      hide Step, Inv, Roomy, Enabled, Reaches;
    }
  }

  /**
   * Over every run the live model and directory stay the ones last recorded, /model and /cwd included, while the model
   * of partial replies stays the one the session was opened with.
   */
  lemma {:induction false} RunKeepsSettings(w: World, es: seq<Event>)
    requires Inv(w) && RunEnabled(w, es) && SettingsLive(w)
    ensures SettingsLive(Run(w, es)) && Run(w, es).p.model == w.p.model
    decreases es
  {
    hide Step, Inv, Roomy, Enabled, SettingsLive;
    if es != [] {
      StepKeepsInv(w, es[0]);
      StepKeepsSettings(w, es[0]);
      RunKeepsSettings(Step(w, es[0]), es[1..]);
    }
  }

  /** A partial reply is attributed to the live model exactly while the model last recorded is the first one. */
  lemma PartialModelIff(w: World, es: seq<Event>)
    requires Inv(w) && RunEnabled(w, es) && SettingsLive(w)
    ensures
      var after := Run(w, es);
      after.p.model == after.c.model <==> after.p.log.b.lastModel == Some(w.p.model)
  {
    RunKeepsSettings(w, es);
    hide Run;
  }

  /** One /model is enough: the next partial reply still carries the old name. */
  lemma StalePartial(w: World, value: bytes)
    requires Inv(w) && Roomy(w) && !w.c.busy && ReplayInvariants.Quiescent(w.p.log.b)
    requires SettingOk(value) && value != w.p.model
    ensures
      var after := Step(w, SettingEvent(ModelSetting, value));
      Inv(after) && after.c.model == value && after.p.model == w.p.model != after.c.model
  {
    StepKeepsInv(w, SettingEvent(ModelSetting, value));
    SettingTaken(w, ModelSetting, value);
    hide Append, Inv, Roomy;
  }
}
