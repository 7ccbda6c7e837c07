/** Crash recovery: the repairs of src/cli_history_repair.c and the startup steps of `main`. */
module Recovery {
  import opened Basics
  import opened Messages
  import opened History
  import opened Replay
  import opened ReplayInvariants
  import opened ReplayLog

  const UNKNOWN_TOOL_TEXT := Ascii("[tool outcome unknown: the session ended after execution may have started]")
  const UNSTARTED_TOOL_TEXT := Ascii("[tool not executed: the session ended before execution started]")

  function ToolRepair(recordId: u64, turnId: u64, tool: Unresolved): (record: Record) {
    var text := if tool.mayHaveStarted then UNKNOWN_TOOL_TEXT else UNSTARTED_TOOL_TEXT;
    var outcome := if tool.mayHaveStarted then OutcomeUnknown else NotExecuted;
    MakeRecord(recordId, turnId,
               MessageRecord(HistoryMessage(ToolResult(tool.toolCallId, text), Repair, outcome, None, None)))
  }

  function InterruptionMarker(recordId: u64, turnId: u64): (record: Record) {
    MakeRecord(recordId, turnId,
               MessageRecord(HistoryMessage(Assistant(INTERRUPTED_TURN_TEXT, []), Repair, NoOutcome, None, None)))
  }

  /** One result per unresolved tool, in call order, then the marker that closes the turn. */
  function RepairList(tools: seq<Unresolved>, recordId: u64, turnId: u64): (records: seq<Record>)
    requires recordId + |tools| <= U64_MAX
  {
    if tools == [] then [InterruptionMarker(recordId, turnId)]
    else [ToolRepair(recordId, turnId, tools[0])] + RepairList(tools[1..], recordId + 1, turnId)
  }

  predicate NamesGiven(tools: seq<Unresolved>) {
    forall i :: 0 <= i < |tools| ==> tools[i].toolCallId != []
  }

  lemma {:induction false} RepairListSnoc(tools: seq<Unresolved>, recordId: u64, turnId: u64)
    requires recordId + |tools| <= U64_MAX
    ensures |RepairList(tools, recordId, turnId)| == |tools| + 1
    ensures
      forall i :: 0 <= i < |tools| ==>
        RepairList(tools, recordId, turnId)[i] == ToolRepair(recordId + i, turnId, tools[i])
    ensures RepairList(tools, recordId, turnId)[|tools|] == InterruptionMarker(recordId + |tools|, turnId)
  {
    if tools != [] {
      RepairListSnoc(tools[1..], recordId + 1, turnId);
    }
  }

  /** `oi_cli_history_append_take`: a valid record whose id continues the list. */
  method AppendTake(history: seq<Record>, r: Record) returns (status: Status, longer: seq<Record>)
    ensures
      var fits := RecordValid(r) && (history != [] ==> r.recordId == history[|history| - 1].recordId + 1);
      && status == (if fits then OK else INVAL)
      && longer == if fits then history + [r] else history
  {
    if !RecordValid(r) || (|history| > 0 && r.recordId != history[|history| - 1].recordId + 1) {
      return INVAL, history;
    }
    return OK, history + [r];
  }

  /** `append_repair_tool`: the placeholder result of one unresolved tool. */
  method AppendRepairTool(repairs: seq<Record>, recordId: u64, turnId: u64, tool: Unresolved)
    returns (status: Status, longer: seq<Record>)
    requires recordId > 0 && turnId > 0
    requires repairs != [] ==> repairs[|repairs| - 1].recordId + 1 == recordId
    ensures status == if tool.toolCallId == [] then INVAL else OK
    ensures longer == if tool.toolCallId == [] then repairs else repairs + [ToolRepair(recordId, turnId, tool)]
    ensures tool.toolCallId != [] ==> longer[|longer| - 1].recordId == recordId
  {
    if tool.toolCallId == [] { return INVAL, repairs; }
    RepairValid(recordId, turnId, tool);
    status, longer := AppendTake(repairs, ToolRepair(recordId, turnId, tool));
  }

  lemma RepairListStep(tools: seq<Unresolved>, i: nat, recordId: u64, turnId: u64, before: seq<Record>)
    requires i < |tools| && recordId + |tools| - i <= U64_MAX
    ensures
      before + RepairList(tools[i..], recordId, turnId)
      == before + [ToolRepair(recordId, turnId, tools[i])] + RepairList(tools[i + 1..], recordId + 1, turnId)
  {
    assert tools[i..][1..] == tools[i + 1..];
  }

  method BuildRepairs(state: ReplayState) returns (status: Status, repairs: seq<Record>)
    ensures
      var room := state.nextRecordId + |state.unresolved| <= U64_MAX;
      && (status.OK? <==>
            && state.needsRepair && state.repairTurnId != 0 && state.nextRecordId != 0
            && room && NamesGiven(state.unresolved))
      && (status.OK? ==> repairs == RepairList(state.unresolved, state.nextRecordId, state.repairTurnId))
      && (!status.OK? ==> repairs == [])
  {
    hide RecordValid, ToolRepair, RepairList, InterruptionMarker;
    repairs := [];
    if !state.needsRepair || state.repairTurnId == 0 || state.nextRecordId == 0 { return INVAL, []; }
    if |state.unresolved| > U64_MAX - state.nextRecordId { return NOMEM, []; }
    var tools, turnId, recordId := state.unresolved, state.repairTurnId, state.nextRecordId;
    var i := 0;
    assert tools[i..] == tools && [] + RepairList(tools, recordId, turnId) == RepairList(tools, recordId, turnId);
    while i < |tools|
      invariant i <= |tools| && recordId == state.nextRecordId + i
      invariant repairs + RepairList(tools[i..], recordId, turnId) == RepairList(tools, state.nextRecordId, turnId)
      invariant repairs != [] ==> repairs[|repairs| - 1].recordId + 1 == recordId
      invariant forall k :: 0 <= k < i ==> tools[k].toolCallId != []
    {
      RepairListStep(tools, i, recordId, turnId, repairs);
      status, repairs := AppendRepairTool(repairs, recordId, turnId, tools[i]);
      if !status.OK? { return status, []; }
      i, recordId := i + 1, recordId + 1;
    }
    assert tools[i..] == [];
    MarkerEndsList(recordId, turnId);
    status, repairs := AppendTake(repairs, InterruptionMarker(recordId, turnId));
  }

  lemma MarkerEndsList(recordId: u64, turnId: u64)
    requires recordId > 0 && turnId > 0
    ensures RepairList([], recordId, turnId) == [InterruptionMarker(recordId, turnId)]
    ensures RecordValid(InterruptionMarker(recordId, turnId))
    ensures InterruptionMarker(recordId, turnId).recordId == recordId
  {
  }

  lemma RepairValid(recordId: u64, turnId: u64, tool: Unresolved)
    requires recordId > 0 && turnId > 0 && tool.toolCallId != []
    ensures RecordValid(ToolRepair(recordId, turnId, tool))
  {
  }

  /** The repairs a log calls for; none when its turn is closed. */
  function RepairsFor(log: Log): (records: seq<Record>)
    requires RoomToRepair(log)
  {
    if log.b.phase.ExpectUser? then []
    else RepairList(UnresolvedTools(log.b.tools), log.nextId, log.b.currentTurn)
  }

  /** The 64-bit record ids leave room for one result per tool under way and two records more. */
  predicate RoomToRepair(log: Log) {
    log.nextId + |UnresolvedTools(log.b.tools)| + 2 < U64_MAX
  }

  lemma {:induction false} ResolvedHaveNone(tools: seq<Tool>)
    requires AllResolved(tools)
    ensures UnresolvedTools(tools) == []
  {
    if tools != [] {
      assert AllResolved(tools[1..]);
      ResolvedHaveNone(tools[1..]);
    }
  }

  /** Resolving the first unresolved tool removes the first entry of the unresolved list. */
  lemma {:induction false} FirstUnresolved(tools: seq<Tool>) returns (i: nat)
    requires UnresolvedTools(tools) != []
    ensures i < |tools| && !tools[i].resolved
    ensures
      UnresolvedTools(tools)
      == [Unresolved(tools[i].call.id, tools[i].started)] + UnresolvedTools(tools[i := tools[i].(resolved := true)])
  {
    if !tools[0].resolved {
      i := 0;
      assert tools[0 := tools[0].(resolved := true)][1..] == tools[1..];
    } else {
      var j := FirstUnresolved(tools[1..]);
      i := j + 1;
      assert tools[i := tools[i].(resolved := true)][1..] == tools[1..][j := tools[i].(resolved := true)];
      assert [] + UnresolvedTools(tools[1..]) == UnresolvedTools(tools[1..]);
    }
  }

  lemma {:induction false} UnresolvedExist(tools: seq<Tool>)
    requires !AllResolved(tools)
    ensures UnresolvedTools(tools) != []
  {
    if tools[0].resolved {
      assert !AllResolved(tools[1..]);
      UnresolvedExist(tools[1..]);
    }
  }

  lemma {:induction false} UnresolvedNamed(tools: seq<Tool>)
    requires ToolsNamed(tools)
    ensures NamesGiven(UnresolvedTools(tools))
  {
    if tools != [] {
      assert tools[0].call.id != [];
      UnresolvedNamed(tools[1..]);
    }
  }

  /** What replay publishes is enough to build the repairs: they are due, and buildable, exactly when a turn is open. */
  lemma PublishedRepairs(legacy: seq<Message>, typed: seq<Record>)
    requires LogOf(legacy, typed).Some? && RoomToRepair(LogOf(legacy, typed).value)
    ensures
      var log, state := LogOf(legacy, typed).value, ReplayHistory(legacy, typed).value;
      && (state.needsRepair <==> RepairsFor(log) != [])
      && (state.needsRepair ==>
            && state.repairTurnId != 0 && state.nextRecordId != 0 && NamesGiven(state.unresolved)
            && state.nextRecordId + |state.unresolved| <= U64_MAX
            && RepairList(state.unresolved, state.nextRecordId, state.repairTurnId) == RepairsFor(log))
  {
    ReplayedSound(legacy, typed);
    var log := LogOf(legacy, typed).value;
    UnresolvedNamed(log.b.tools);
    RepairListSnoc(UnresolvedTools(log.b.tools), log.nextId, log.b.currentTurn);
  }

  lemma FindDistinct(tools: seq<Tool>, i: nat)
    requires DistinctTools(tools) && i < |tools|
    ensures FindTool(tools, tools[i].call.id) == i
  {
    FindToolFinds(tools, tools[i].call.id);
  }

  /** The repair of an open call is a valid record whose step resolves exactly that call. */
  lemma ToolRepairStep(log: Log, i: nat)
    requires Sound(log) && log.b.phase.ExpectToolResults?
    requires i < |log.b.tools| && !log.b.tools[i].resolved
    ensures
      var tool := log.b.tools[i];
      var r := ToolRepair(log.nextId, log.b.currentTurn, Unresolved(tool.call.id, tool.started));
      var resolved := log.b.tools[i := tool.(resolved := true)];
      && RecordValid(r) && Step(log.b, r).Some?
      && var after := Step(log.b, r).value;
      && (if AllResolved(resolved) then after.phase.ExpectAssistant? && after.tools == []
          else after.phase.ExpectToolResults? && after.tools == resolved)
      && after.pending == log.b.pending && after.lastStarted == log.b.lastStarted
      && after.currentTurn == log.b.currentTurn
  {
    FindDistinct(log.b.tools, i);
    hide FindTool;
  }

  /** The first entry of the list of repairs goes with the call it answers. */
  lemma RepairsShift(log: Log, i: nat, after: Builder)
    requires RoomToRepair(log) && log.b.phase.ExpectToolResults?
    requires i < |log.b.tools| && !log.b.tools[i].resolved
    requires
      var tool := log.b.tools[i];
      var resolved := log.b.tools[i := tool.(resolved := true)];
      && UnresolvedTools(log.b.tools) == [Unresolved(tool.call.id, tool.started)] + UnresolvedTools(resolved)
      && (if AllResolved(resolved) then after.phase.ExpectAssistant? && after.tools == []
          else after.phase.ExpectToolResults? && after.tools == resolved)
      && after.currentTurn == log.b.currentTurn
    ensures RoomToRepair(Log(after, log.nextId + 1))
    ensures
      var tool := log.b.tools[i];
      RepairsFor(log)
      == [ToolRepair(log.nextId, log.b.currentTurn, Unresolved(tool.call.id, tool.started))]
         + RepairsFor(Log(after, log.nextId + 1))
  {
    hide ToolRepair, AllResolved;
    var resolved := log.b.tools[i := log.b.tools[i].(resolved := true)];
    if AllResolved(resolved) { ResolvedHaveNone(resolved); }
    assert UnresolvedTools(log.b.tools)[1..] == UnresolvedTools(resolved);
  }

  lemma RepairAppended(log: Log, i: nat)
    requires Sound(log) && RoomToRepair(log) && log.b.phase.ExpectToolResults?
    requires i < |log.b.tools| && !log.b.tools[i].resolved
    ensures
      var tool := log.b.tools[i];
      var r := ToolRepair(log.nextId, log.b.currentTurn, Unresolved(tool.call.id, tool.started));
      && Step(log.b, r).Some?
      && Append(log, r) == Some(Log(Step(log.b, r).value, log.nextId + 1))
      && Sound(Append(log, r).value)
  {
    ToolRepairStep(log, i);
    var tool := log.b.tools[i];
    var r := ToolRepair(log.nextId, log.b.currentTurn, Unresolved(tool.call.id, tool.started));
    assert r.recordId == log.nextId && log.b.lastStarted < U64_MAX;
    hide Step, RecordValid, ToolRepair, Sound;
    AppendKeepsSound(log, r);
  }

  /** Replay takes the first repair, and what the log calls for afterwards is the rest. */
  lemma ToolRepairAccepted(log: Log)
    requires Sound(log) && RoomToRepair(log) && log.b.phase.ExpectToolResults?
    ensures
      var r := RepairsFor(log)[0];
      && Append(log, r).Some?
      && var next := Append(log, r).value;
      && Sound(next) && RoomToRepair(next)
      && RepairsFor(log) == [r] + RepairsFor(next)
      && !next.b.phase.ExpectUser?
      && next.b.pending == log.b.pending && next.b.lastStarted == log.b.lastStarted
  {
    UnresolvedExist(log.b.tools);
    var i := FirstUnresolved(log.b.tools);
    var tool := log.b.tools[i];
    hide Step, Append, RecordValid, Sound, RoomToRepair, AllResolved, ToolRepair, RepairsFor, UnresolvedTools;
    ToolRepairStep(log, i);
    RepairAppended(log, i);
    var r := ToolRepair(log.nextId, log.b.currentTurn, Unresolved(tool.call.id, tool.started));
    RepairsShift(log, i, Step(log.b, r).value);
  }

  lemma MarkerAccepted(log: Log)
    requires Sound(log) && RoomToRepair(log) && log.b.phase.ExpectAssistant?
    ensures
      && RepairsFor(log) == [InterruptionMarker(log.nextId, log.b.currentTurn)]
      && Append(log, RepairsFor(log)[0]).Some?
      && var next := Append(log, RepairsFor(log)[0]).value;
      && Sound(next)
      && next.b.phase.ExpectUser? && next.b.tools == [] && next.b.pending == log.b.pending
      && next.b.lastStarted == log.b.lastStarted && next.nextId == log.nextId + 1
  {
    AppendKeepsSound(log, RepairsFor(log)[0]);
  }

  /** All repairs are accepted and close the turn; the queued input is untouched. */
  lemma {:induction false} RepairsClose(log: Log)
    requires Sound(log) && RoomToRepair(log)
    ensures
      && AppendAll(log, RepairsFor(log)).Some?
      && var after := AppendAll(log, RepairsFor(log)).value;
      && Sound(after) && after.b.phase.ExpectUser? && after.b.pending == log.b.pending
      && after.b.tools == [] && !after.b.partialSeen
      && after.nextId == log.nextId + |RepairsFor(log)|
      && after.b.lastStarted == log.b.lastStarted
    decreases |UnresolvedTools(log.b.tools)|
  {
    if log.b.phase.ExpectToolResults? {
      ToolRepairAccepted(log);
      var r := RepairsFor(log)[0];
      var next := Append(log, r).value;
      RepairListSnoc(UnresolvedTools(log.b.tools), log.nextId, log.b.currentTurn);
      RepairListSnoc(UnresolvedTools(next.b.tools), next.nextId, next.b.currentTurn);
      RepairsClose(next);
      assert RepairsFor(log)[1..] == RepairsFor(next);
    } else if log.b.phase.ExpectAssistant? {
      MarkerAccepted(log);
      var rs := RepairsFor(log);
      assert rs[1..] == [];
    }
  }

  /** A crash after `k` of the repairs: rebuilding from what was written yields exactly the others. */
  lemma {:induction false} RepairsResume(log: Log, k: nat)
    requires Sound(log) && RoomToRepair(log) && k <= |RepairsFor(log)|
    ensures
      && AppendAll(log, RepairsFor(log)[..k]).Some?
      && var after := AppendAll(log, RepairsFor(log)[..k]).value;
      && Sound(after) && (k < |RepairsFor(log)| ==> RoomToRepair(after) && RepairsFor(after) == RepairsFor(log)[k..])
      && (k == |RepairsFor(log)| ==> after.b.phase.ExpectUser?)
    decreases k
  {
    hide Sound, RoomToRepair, Append;
    var rs := RepairsFor(log);
    if k > 0 {
      assert rs[..k][1..] == rs[1..][..k - 1];
      assert rs[k..] == rs[1..][k - 1..];
      if log.b.phase.ExpectToolResults? {
        ToolRepairAccepted(log);
        var next := Append(log, rs[0]).value;
        assert rs[1..] == RepairsFor(next);
        RepairsResume(next, k - 1);
      } else {
        MarkerAccepted(log);
        assert rs[1..][..0] == [];
      }
    } else {
      assert rs[..0] == [] && rs[0..] == rs;
    }
  }

  function DiscardRecord(log: Log): (record: Record)
    requires log.b.pending.Some?
  {
    MakeRecord(log.nextId, log.b.pending.value.turnId, QueueResolved(log.b.pending.value.recordId, Discarded))
  }

  /** What `main` appends to a log it loaded: the repairs, then the discard of an input left queued. */
  function StartupRecords(log: Log): (records: seq<Record>)
    requires Sound(log) && RoomToRepair(log)
  {
    RepairsClose(log);
    var repaired := AppendAll(log, RepairsFor(log)).value;
    RepairsFor(log) + (if repaired.b.pending.Some? then [DiscardRecord(repaired)] else [])
  }

  lemma DiscardAccepted(log: Log)
    requires Sound(log) && log.b.phase.ExpectUser? && log.b.pending.Some? && log.nextId < U64_MAX
    ensures
      && Append(log, DiscardRecord(log)).Some?
      && var after := Append(log, DiscardRecord(log)).value;
      && Sound(after) && Quiescent(after.b) && after.b.lastStarted == log.b.lastStarted
      && after.b.context == log.b.context && after.b.tools == log.b.tools
  {
    AppendKeepsSound(log, DiscardRecord(log));
  }

  /** Startup is accepted in full and leaves a closed turn with nothing queued. */
  lemma StartupQuiets(log: Log)
    requires Sound(log) && RoomToRepair(log)
    ensures
      && AppendAll(log, StartupRecords(log)).Some?
      && var after := AppendAll(log, StartupRecords(log)).value;
      && Sound(after) && Quiescent(after.b) && after.b.tools == []
      && after.b.lastStarted == log.b.lastStarted
  {
    RepairsClose(log);
    var rs := RepairsFor(log);
    var repaired := AppendAll(log, rs).value;
    RepairListSnoc(UnresolvedTools(log.b.tools), log.nextId, log.b.currentTurn);
    if repaired.b.pending.Some? {
      var r := DiscardRecord(repaired);
      DiscardAccepted(repaired);
      AppendAllConcat(log, rs, [r]);
      var after := Append(repaired, r).value;
      assert [r][1..] == [];
      assert AppendAll(after, []) == Some(after);
      assert AppendAll(repaired, [r]) == Some(after);
    } else {
      assert rs + [] == rs;
    }
  }

  function TransitionRecord(legacy: seq<Message>): (record: Record)
    requires |legacy| < U64_MAX
  {
    MakeRecord(|legacy| + 1, 0, Transition(|legacy|))
  }

  /**
   * For every accepted history, and so for every prefix of one that a crash left behind: with the
   * transition written if it was missing, the startup records are accepted and the session is quiet.
   */
  lemma CrashRecovery(legacy: seq<Message>, typed: seq<Record>) returns (recovered: seq<Record>)
    requires LogOf(legacy, typed).Some?
    requires |legacy| + |typed| + |UnresolvedTools(Fold(legacy, typed).value.tools)| + 4 < U64_MAX
    ensures
      var start := if typed == [] then [TransitionRecord(legacy)] else typed;
      && LogOf(legacy, start).Some?
      && Sound(LogOf(legacy, start).value) && RoomToRepair(LogOf(legacy, start).value)
      && recovered == start + StartupRecords(LogOf(legacy, start).value)
      && LogOf(legacy, recovered).Some?
      && Quiescent(LogOf(legacy, recovered).value.b)
  {
    var start := if typed == [] then [TransitionRecord(legacy)] else typed;
    ReplayedSound(legacy, start);
    RecordIdsRunOn(legacy, start);
    var log := LogOf(legacy, start).value;
    StartupQuiets(log);
    recovered := start + StartupRecords(log);
    ReplayMore(legacy, start, StartupRecords(log));
  }
}
