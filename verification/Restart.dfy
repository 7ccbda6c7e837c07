/** A session opened over any recovered log starts the simulation again: crash, recover, go on. */
module Restart {
  import opened Basics
  import opened Messages
  import opened History
  import opened ReplayLog
  import opened ReplayShape
  import opened Recovery
  import opened Conversation
  import LiveRecords
  import Replay
  import ReplayInvariants
  import Simulation
  import TurnClosure
  import TurnSteps

  // ----- what a recovered turn says -----

  function Said(rs: seq<Record>): (messages: seq<Message>)
    requires forall i :: 0 <= i < |rs| ==> rs[i].payload.MessageRecord?
  {
    seq(|rs|, i requires 0 <= i < |rs| => rs[i].payload.message.value)
  }

  /** Message records add their messages to the context, one by one. */
  lemma {:induction false} MessagesSaid(log: Log, rs: seq<Record>)
    requires AppendAll(log, rs).Some? && forall i :: 0 <= i < |rs| ==> rs[i].payload.MessageRecord?
    ensures ContextMessages(AppendAll(log, rs).value.b.context) == ContextMessages(log.b.context) + Said(rs)
    decreases rs
  {
    if rs == [] {
      assert ContextMessages(log.b.context) + Said(rs) == ContextMessages(log.b.context);
    } else {
      var r, next := rs[0], Append(log, rs[0]).value;
      OneSaid(log, r);
      MessagesSaid(next, rs[1..]);
      hide Append, ContextMessages;
      assert Said(rs) == [r.payload.message.value] + Said(rs[1..]);
    }
  }

  lemma OneSaid(log: Log, r: Record)
    requires r.payload.MessageRecord? && Append(log, r).Some?
    ensures
      ContextMessages(Append(log, r).value.b.context)
      == ContextMessages(log.b.context) + [r.payload.message.value]
  {
    var item := Replay.ContextItem(r.recordId, r.payload.message.value);
    assert Append(log, r).value.b.context == log.b.context + [item];
    MessagesSnoc(log.b.context, item);
  }

  /** What an open call is answered after a crash. */
  function Placeholder(tool: Replay.Unresolved): (m: Message) {
    ToolResult(tool.toolCallId, if tool.mayHaveStarted then UNKNOWN_TOOL_TEXT else UNSTARTED_TOOL_TEXT)
  }

  function Placeholders(tools: seq<Replay.Unresolved>): (messages: seq<Message>) {
    seq(|tools|, k requires 0 <= k < |tools| => Placeholder(tools[k]))
  }

  lemma OneRepairSays(recordId: u64, turnId: u64, tool: Replay.Unresolved)
    ensures
      var repair := ToolRepair(recordId, turnId, tool).payload;
      && repair.MessageRecord? && repair.message.source.Repair? && repair.message.value == Placeholder(tool)
      && repair.message.outcome == if tool.mayHaveStarted then OutcomeUnknown else NotExecuted
  {
    hide Ascii;
  }

  lemma OneMarkerSays(recordId: u64, turnId: u64)
    ensures
      var marker := InterruptionMarker(recordId, turnId).payload;
      && marker.MessageRecord? && marker.message.source.Repair?
      && marker.message.value == Assistant(INTERRUPTED_TURN_TEXT, [])
  {
    hide Ascii;
  }

  /** The repairs are placeholders in call order, unknown exactly for the calls that may have run, and the marker. */
  lemma RepairsSay(tools: seq<Replay.Unresolved>, recordId: u64, turnId: u64)
    requires recordId + |tools| <= U64_MAX
    ensures
      var rs := RepairList(tools, recordId, turnId);
      && |rs| == |tools| + 1
      && (forall k :: 0 <= k < |rs| ==> rs[k].payload.MessageRecord? && rs[k].payload.message.source.Repair?)
      && (forall k :: 0 <= k < |tools| ==>
            rs[k].payload.message.outcome == if tools[k].mayHaveStarted then OutcomeUnknown else NotExecuted)
      && Said(rs) == Placeholders(tools) + [Assistant(INTERRUPTED_TURN_TEXT, [])]
  {
    hide RepairList, Ascii, ToolRepair, InterruptionMarker, Placeholder;
    RepairListSnoc(tools, recordId, turnId);
    var rs := RepairList(tools, recordId, turnId);
    forall k | 0 <= k < |tools| ensures
        && rs[k].payload.MessageRecord? && rs[k].payload.message.source.Repair?
        && rs[k].payload.message.value == Placeholder(tools[k])
        && rs[k].payload.message.outcome == if tools[k].mayHaveStarted then OutcomeUnknown else NotExecuted {
      OneRepairSays(recordId + k, turnId, tools[k]);
    }
    OneMarkerSays(recordId + |tools|, turnId);
  }

  /**
   * A recovered turn is closed by one placeholder per open call, in order, unknown exactly for those that may have
   * run, and by the interruption marker.
   */
  lemma RecoverySays(log: Log)
    requires Sound(log) && RoomToRepair(log) && !log.b.phase.ExpectUser?
    ensures AppendAll(log, RepairsFor(log)).Some?
    ensures
      ContextMessages(AppendAll(log, RepairsFor(log)).value.b.context)
      == ContextMessages(log.b.context)
         + (Placeholders(Replay.UnresolvedTools(log.b.tools)) + [Assistant(INTERRUPTED_TURN_TEXT, [])])
  {
    RepairsClose(log);
    RepairsSay(Replay.UnresolvedTools(log.b.tools), log.nextId, log.b.currentTurn);
    hide AppendAll, ContextMessages, Said, RepairList, Sound;
    MessagesSaid(log, RepairsFor(log));
  }

  // ----- settings at startup -----

  /** The model a session opens with: the flag, else the last one recorded, else the cached or configured one. */
  function ResolvedModel(b: Replay.Builder, explicit: Option<bytes>, fallback: bytes): (model: bytes) {
    if explicit.Some? then explicit.value else if b.lastModel.Some? then b.lastModel.value else fallback
  }

  /** `oi_cli_session_restore_settings` records what differs from the last value recorded. */
  function ModelRecords(log: Log, model: bytes): (records: seq<Record>) {
    if log.b.lastModel == Some(model) then [] else [SettingRecord(log, ModelSetting, model)]
  }

  function CwdRecords(log: Log, cwd: bytes): (records: seq<Record>) {
    if log.b.lastCwd == Some(cwd) then [] else [SettingRecord(log, CwdSetting, cwd)]
  }

  lemma OneAppended(log: Log, r: Record)
    ensures AppendAll(log, [r]) == Append(log, r)
  {
    assert [r][1..] == [];
    hide Append;
  }

  /** Recording one setting where it differs: the log then holds it, and stays quiet and in shape. */
  lemma SettingStep(log: Log, field: SettingField, value: bytes, rs: seq<Record>)
    requires Sound(log) && ReplayInvariants.Quiescent(log.b) && TurnClosure.SettingOk(value) && log.nextId < U64_MAX
    requires
      var held := if field.ModelSetting? then log.b.lastModel else log.b.lastCwd;
      rs == if held == Some(value) then [] else [SettingRecord(log, field, value)]
    ensures AppendAll(log, rs).Some?
    ensures
      var after := AppendAll(log, rs).value;
      && after.b == TurnClosure.SettingApplied(log.b, field, value)
      && after.nextId == log.nextId + |rs| && Sound(after)
      && (WellShaped(log.b) <==> WellShaped(after.b))
  {
    TurnClosure.SettingAccepted(log, field, value);
    OneAppended(log, SettingRecord(log, field, value));
    hide Append, Sound;
  }

  /** Both settings, as startup records them. */
  function StartupSettings(log: Log, model: bytes, cwd: bytes): (records: seq<Record>)
    requires AppendAll(log, ModelRecords(log, model)).Some?
  {
    ModelRecords(log, model) + CwdRecords(AppendAll(log, ModelRecords(log, model)).value, cwd)
  }

  lemma SettingsAccepted(log: Log, model: bytes, cwd: bytes)
    requires Sound(log) && ReplayInvariants.Quiescent(log.b) && log.nextId + 1 < U64_MAX
    requires TurnClosure.SettingOk(model) && TurnClosure.SettingOk(cwd)
    ensures AppendAll(log, ModelRecords(log, model)).Some?
    ensures AppendAll(log, StartupSettings(log, model, cwd)).Some?
    ensures
      var after := AppendAll(log, StartupSettings(log, model, cwd)).value;
      && Sound(after) && ReplayInvariants.Quiescent(after.b)
      && after.b.lastModel == Some(model) && after.b.lastCwd == Some(cwd)
      && (WellShaped(log.b) <==> WellShaped(after.b))
  {
    SettingStep(log, ModelSetting, model, ModelRecords(log, model));
    var first := AppendAll(log, ModelRecords(log, model)).value;
    SettingStep(first, CwdSetting, cwd, CwdRecords(first, cwd));
    AppendAllConcat(log, ModelRecords(log, model), CwdRecords(first, cwd));
    hide AppendAll, WellShaped, Sound;
  }

  // ----- the session behind it -----

  /** The conversation `main` creates over a replayed log, and the persistence behind it. */
  function Reopened(log: Log, model: bytes, cwd: bytes, maxModelSteps: nat): (after: World) {
    var p := Persist(log, 0, model, false, cwd);
    World(
      Conv(ContextMessages(log.b.context), false, false, false, false, false, false, OK, 0, maxModelSteps,
           [], [], 0, 0, [], false, model),
      p.(turnId := NextTurnId(p)))
  }

  /** A quiet log opens into an idle conversation in step with it. */
  lemma QuietOpens(log: Log, model: bytes, cwd: bytes, maxModelSteps: nat)
    requires Sound(log) && ReplayInvariants.Quiescent(log.b)
    requires Simulation.ModelOk(model) && 0 < maxModelSteps
    ensures TurnSteps.Inv(Reopened(log, model, cwd, maxModelSteps))
  {
  }

  // ----- what startup leaves alone -----

  /** Neither a checkpoint nor a setting. */
  predicate Plain(rs: seq<Record>) {
    forall i :: 0 <= i < |rs| ==> !rs[i].payload.Checkpoint? && !rs[i].payload.SessionSetting?
  }

  lemma {:induction false} PlainKeeps(log: Log, rs: seq<Record>)
    requires Sound(log) && AppendAll(log, rs).Some? && Plain(rs)
    ensures
      var after := AppendAll(log, rs).value.b;
      && after.lastModel == log.b.lastModel && after.lastCwd == log.b.lastCwd
      && (WellShaped(log.b) ==> WellShaped(after))
    decreases rs
  {
    if rs != [] {
      hide Replay.Step, RecordValid, WellShaped;
      var next := Append(log, rs[0]).value;
      AppendKeepsSound(log, rs[0]);
      assert !rs[0].payload.Checkpoint? && !rs[0].payload.SessionSetting?;
      ReplayInvariants.StepSetting(log.b, rs[0]);
      if WellShaped(log.b) { StepKeepsShape(log.b, rs[0]); }
      PlainKeeps(next, rs[1..]);
    }
  }

  lemma {:induction false} RepairsPlain(tools: seq<Replay.Unresolved>, recordId: u64, turnId: u64)
    requires recordId + |tools| <= U64_MAX
    ensures Plain(RepairList(tools, recordId, turnId))
  {
    if tools != [] { RepairsPlain(tools[1..], recordId + 1, turnId); }
  }

  lemma StartupPlain(log: Log)
    requires Sound(log) && RoomToRepair(log)
    ensures Plain(StartupRecords(log))
  {
    hide Sound;
    RepairsPlain(Replay.UnresolvedTools(log.b.tools), log.nextId, log.b.currentTurn);
  }

  // ----- any accepted history -----

  lemma {:induction false} LastModelOk(legacy: seq<Message>, typed: seq<Record>)
    requires Replay.Fold(legacy, typed).Some?
    ensures
      var b := Replay.Fold(legacy, typed).value;
      b.lastModel.Some? ==> TurnClosure.SettingOk(b.lastModel.value)
  {
    if |typed| >= 2 {
      var prior, last := typed[..|typed| - 1], typed[|typed| - 1];
      LastModelOk(legacy, prior);
      ReplayInvariants.StepSetting(Replay.Fold(legacy, prior).value, last);
      SettingValid(Replay.Fold(legacy, prior).value, last);
      hide Replay.Step, RecordValid, TurnClosure.SettingOk;
    }
  }

  lemma SettingValid(b: Replay.Builder, r: Record)
    requires RecordValid(r) && Replay.Step(b, r).Some?
    ensures r.payload.SessionSetting? ==> TurnClosure.SettingOk(r.payload.setting)
  {
  }

  /** Repairs and discard leave a quiet log with the settings and the shape it had. */
  lemma StartupKeeps(log: Log)
    requires Sound(log) && RoomToRepair(log)
    ensures AppendAll(log, StartupRecords(log)).Some?
    ensures
      var quiet := AppendAll(log, StartupRecords(log)).value;
      && Sound(quiet) && ReplayInvariants.Quiescent(quiet.b)
      && quiet.nextId == log.nextId + |StartupRecords(log)|
      && (WellShaped(log.b) ==> WellShaped(quiet.b))
  {
    hide Sound, WellShaped, AppendAll, StartupRecords;
    StartupQuiets(log);
    StartupPlain(log);
    PlainKeeps(log, StartupRecords(log));
    AppendAllIds(log, StartupRecords(log));
  }

  /** The records of startup in full: transition, repairs, discard and settings. */
  lemma StartupOpens(legacy: seq<Message>, start: seq<Record>, log: Log, model: bytes, cwd: bytes)
    returns (recovered: seq<Record>)
    requires start != [] && LogOf(legacy, start) == Some(log) && Sound(log) && RoomToRepair(log)
    requires log.nextId + |StartupRecords(log)| + 1 < U64_MAX
    requires TurnClosure.SettingOk(model) && TurnClosure.SettingOk(cwd)
    ensures start <= recovered && LogOf(legacy, recovered).Some?
    ensures
      var after := LogOf(legacy, recovered).value;
      && Sound(after) && ReplayInvariants.Quiescent(after.b)
      && after.b.lastModel == Some(model) && after.b.lastCwd == Some(cwd)
      && (WellShaped(log.b) ==> WellShaped(after.b))
  {
    hide Sound, WellShaped, AppendAll, StartupRecords, StartupSettings, ModelRecords, CwdRecords, LogOf;
    hide ReplayInvariants.Quiescent, RoomToRepair, TurnClosure.SettingOk;
    StartupKeeps(log);
    var quiet := AppendAll(log, StartupRecords(log)).value;
    SettingsAccepted(quiet, model, cwd);
    ReplayMore(legacy, start, StartupRecords(log));
    recovered := start + StartupRecords(log) + StartupSettings(quiet, model, cwd);
    ReplayMore(legacy, start + StartupRecords(log), StartupSettings(quiet, model, cwd));
  }

  lemma {:induction false} AppendAllIds(log: Log, rs: seq<Record>)
    requires AppendAll(log, rs).Some?
    ensures AppendAll(log, rs).value.nextId == log.nextId + |rs|
    decreases rs
  {
    if rs != [] { AppendAllIds(Append(log, rs[0]).value, rs[1..]); }
  }

  lemma StartupCount(log: Log)
    requires Sound(log) && RoomToRepair(log)
    ensures |StartupRecords(log)| <= |Replay.UnresolvedTools(log.b.tools)| + 2
  {
    RepairsClose(log);
    RepairListSnoc(Replay.UnresolvedTools(log.b.tools), log.nextId, log.b.currentTurn);
    hide Sound, AppendAll, RepairList;
  }

  /** The ids suffice for what startup writes. */
  lemma StartupRoom(legacy: seq<Message>, typed: seq<Record>, start: seq<Record>, log: Log)
    requires LogOf(legacy, typed).Some? && LogOf(legacy, start) == Some(log)
    requires start == if typed == [] then [TransitionRecord(legacy)] else typed
    requires |legacy| + |typed| + |Replay.UnresolvedTools(Replay.Fold(legacy, typed).value.tools)| + 6 < U64_MAX
    requires Sound(log) && RoomToRepair(log)
    ensures log.nextId + |StartupRecords(log)| + 1 < U64_MAX
    ensures log.b.lastModel == Replay.Fold(legacy, typed).value.lastModel
    ensures AllCutWell(legacy, typed) ==> AllCutWell(legacy, start)
  {
    StartupCount(log);
    ReplayInvariants.RecordIdsRunOn(legacy, start);
    if typed == [] { NoTools(legacy, start); }
    hide StartupRecords, Sound, RoomToRepair;
  }

  lemma NoTools(legacy: seq<Message>, start: seq<Record>)
    requires |start| == 1 && Replay.Fold(legacy, start).Some?
    ensures Replay.Fold(legacy, start) == Replay.Fold(legacy, []) == Replay.ApplyLegacy(legacy)
    ensures Replay.Fold(legacy, start).value.tools == []
  {
  }

  /**
   * Every accepted history, wherever a crash cut it off, recovers into a session that satisfies the invariant, runs
   * with the model the flag or the history says, and has recorded it; and if the history's checkpoints cut at turns,
   * the session's context is a summary and whole turns.
   */
  lemma RecoveredContinues(
    legacy: seq<Message>, typed: seq<Record>, explicit: Option<bytes>, fallback: bytes, cwd: bytes, maxModelSteps: nat)
    returns (recovered: seq<Record>)
    requires LogOf(legacy, typed).Some?
    requires |legacy| + |typed| + |Replay.UnresolvedTools(Replay.Fold(legacy, typed).value.tools)| + 6 < U64_MAX
    requires TurnClosure.SettingOk(fallback) && TurnClosure.SettingOk(cwd) && 0 < maxModelSteps
    requires explicit.Some? ==> TurnClosure.SettingOk(explicit.value)
    ensures typed <= recovered
    ensures LogOf(legacy, recovered).Some?
    ensures
      var model := ResolvedModel(Replay.Fold(legacy, typed).value, explicit, fallback);
      var session := Reopened(LogOf(legacy, recovered).value, model, cwd, maxModelSteps);
      TurnSteps.Inv(session) && LiveRecords.SettingsLive(session)
    ensures AllCutWell(legacy, typed) ==> WellShaped(LogOf(legacy, recovered).value.b)
  {
    var model := ResolvedModel(Replay.Fold(legacy, typed).value, explicit, fallback);
    LastModelOk(legacy, typed);
    var quieted := CrashRecovery(legacy, typed);
    var start := if typed == [] then [TransitionRecord(legacy)] else typed;
    var log := LogOf(legacy, start).value;
    StartupRoom(legacy, typed, start, log);
    recovered := StartupOpens(legacy, start, log, model, cwd);
    QuietOpens(LogOf(legacy, recovered).value, model, cwd, maxModelSteps);
    if AllCutWell(legacy, typed) { FoldShape(legacy, start); }
  }
}
