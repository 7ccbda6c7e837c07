/** The replay builder of src/cli_history_replay.c in its own form: fields updated record by record. */
module ReplayBuilder {
  import opened Basics
  import opened Messages
  import opened History
  import opened Replay
  import JsonArena
  import JsonParser

  method FindToolIndex(tools: seq<Tool>, id: bytes) returns (i: nat)
    ensures i == FindTool(tools, id)
  {
    i := 0;
    assert tools[0..] == tools;
    while i < |tools| && tools[i].call.id != id
      invariant i <= |tools| && i + FindTool(tools[i..], id) == FindTool(tools, id)
    {
      assert tools[i..][1..] == tools[i + 1..];
      i := i + 1;
    }
  }

  method AllToolsResolved(tools: seq<Tool>) returns (all: bool)
    ensures all == AllResolved(tools)
  {
    var i := 0;
    while i < |tools|
      invariant i <= |tools| && forall k :: 0 <= k < i ==> tools[k].resolved
    {
      if !tools[i].resolved { return false; }
      i := i + 1;
    }
    return true;
  }

  /** `validate_arguments`: no NUL in id or name, and the arguments parse to a JSON object in an arena of their own. */
  method ValidateArguments(call: ToolCall) returns (status: Status)
    ensures status == CallStatus(call)
  {
    if HasNul(call.id) || HasNul(call.name) { return PARSE; }
    hide JsonParser.Feed, JsonParser.FinishNumber, JsonArena.Outgrows;
    if JsonArena.Outgrows(JsonParser.START, call.arguments, ARGUMENTS_ARENA) { return NOMEM; }
    var parser := new JsonParser.Parser();
    var fed := parser.FeedChunk(call.arguments);
    if !fed {
      assert JsonParser.Finish(JsonParser.FAILED).root.None?;
      return PARSE;
    }
    var finished := parser.FinishDocument();
    var root := parser.Root();
    status := if finished && root.Some? && root.value.Object? then OK else PARSE;
  }

  lemma CallsTake(calls: seq<ToolCall>, i: nat)
    requires i < |calls| && CallsStatus(calls[..i]) == OK
    ensures CallStatus(calls[i]) != OK ==> CallsStatus(calls[..i + 1]) == CallStatus(calls[i])
    ensures
      CallStatus(calls[i]) == OK ==>
        CallsStatus(calls[..i + 1]) == if exists j :: 0 <= j < i && calls[j].id == calls[i].id then PARSE else OK
  {
    hide CallStatus, CallsAcceptable;
    assert calls[..i + 1][..i] == calls[..i];
  }

  lemma {:induction false} CallsStop(calls: seq<ToolCall>, k: nat)
    requires k <= |calls| && CallsStatus(calls[..k]) != OK
    ensures CallsStatus(calls) == CallsStatus(calls[..k])
    decreases |calls|
  {
    hide CallStatus, CallsAcceptable;
    if k == |calls| {
      assert calls[..k] == calls;
    } else {
      assert calls[..|calls| - 1][..k] == calls[..k];
      CallsStop(calls[..|calls| - 1], k);
    }
  }

  method ToolsOf(calls: seq<ToolCall>) returns (status: Status, tools: seq<Tool>)
    ensures status == CallsStatus(calls)
    ensures status == OK ==> tools == NewTools(calls)
  {
    hide CallsStatus, CallsAcceptable, CallStatus;
    tools := [];
    var i := 0;
    NoCalls();
    assert calls[..0] == [];
    while i < |calls|
      invariant i <= |calls| && |tools| == i && CallsStatus(calls[..i]) == OK
      invariant forall k :: 0 <= k < i ==> tools[k] == Tool(calls[k], false, false)
    {
      CallsTake(calls, i);
      status := ValidateArguments(calls[i]);
      if status != OK {
        CallsStop(calls, i + 1);
        return status, tools;
      }
      var j := 0;
      while j < i
        invariant j <= i && forall k :: 0 <= k < j ==> calls[k].id != calls[i].id
      {
        if calls[j].id == calls[i].id {
          CallsStop(calls, i + 1);
          return PARSE, tools;
        }
        j := j + 1;
      }
      tools := tools + [Tool(calls[i], false, false)];
      i := i + 1;
    }
    assert calls[..i] == calls;
    return OK, tools;
  }

  lemma NoCalls()
    ensures CallsStatus([]) == OK
  {
  }

  class Replayer {
    var phase: Phase
    var context: seq<ContextItem>
    var pending: Option<Pending>
    var queueConsumed: bool
    var currentTurn: u64
    var lastStarted: u64
    var tools: seq<Tool>
    var partialSeen: bool
    var lastModel: Option<bytes>
    var lastCwd: Option<bytes>
    var checkpoint: Option<Range>

    ghost function View(): (next: Builder)
      reads this
    {
      Builder(phase, context, pending, queueConsumed, currentTurn, lastStarted, tools, partialSeen,
              lastModel, lastCwd, checkpoint)
    }

    constructor ()
      ensures View() == EMPTY
    {
      phase, context, pending, queueConsumed := ExpectUser, [], None, false;
      currentTurn, lastStarted, tools, partialSeen := 0, 0, [], false;
      lastModel, lastCwd, checkpoint := None, None, None;
    }

    method ApplyUserMessage(r: Record, m: Message) returns (ok: bool)
      modifies this
      ensures ok == ApplyUser(old(View()), r, m).Some?
      ensures ok ==> Some(View()) == ApplyUser(old(View()), r, m)
    {
      if !phase.ExpectUser? || r.turnId != lastStarted + 1 || r.turnId == 0 { return false; }
      if queueConsumed {
        if pending.None? || r.turnId != pending.value.turnId || m.content != pending.value.content {
          return false;
        }
        pending, queueConsumed := None, false;
      }
      context := context + [ContextItem(r.recordId, m)];
      lastStarted, currentTurn, phase, partialSeen := r.turnId, r.turnId, ExpectAssistant, false;
      return true;
    }

    method ApplyAssistantMessage(r: Record, h: HistoryMessage) returns (status: Status)
      requires h.value.Assistant?
      modifies this
      ensures status == AssistantStatus(old(View()), r, h)
      ensures status == OK ==> Some(View()) == ApplyAssistant(old(View()), r, h)
    {
      hide CallsStatus, CallsAcceptable;
      NoCalls();
      if !phase.ExpectAssistant? || r.turnId != currentTurn { return PARSE; }
      if h.model.Some? && HasNul(h.model.value) { return PARSE; }
      if partialSeen && !h.source.Repair? { return PARSE; }
      context := context + [ContextItem(r.recordId, h.value)];
      partialSeen := false;
      if |h.value.calls| > 0 {
        var unresolved;
        status, unresolved := ToolsOf(h.value.calls);
        if status != OK { return status; }
        tools, phase := unresolved, ExpectToolResults;
      } else {
        tools, phase, currentTurn := [], ExpectUser, 0;
      }
      return OK;
    }

    method ApplyToolMessage(r: Record, h: HistoryMessage) returns (ok: bool)
      requires h.value.ToolResult?
      modifies this
      ensures ok == ApplyTool(old(View()), r, h).Some?
      ensures ok ==> Some(View()) == ApplyTool(old(View()), r, h)
    {
      if !phase.ExpectToolResults? || r.turnId != currentTurn || HasNul(h.value.toolCallId) { return false; }
      var i := FindToolIndex(tools, h.value.toolCallId);
      if i >= |tools| || tools[i].resolved { return false; }
      if (h.outcome.Completed? && !tools[i].started)
         || (h.outcome.OutcomeUnknown? && !tools[i].started)
         || (h.outcome.NotExecuted? && tools[i].started)
      {
        return false;
      }
      context := context + [ContextItem(r.recordId, h.value)];
      tools := tools[i := tools[i].(resolved := true)];
      var all := AllToolsResolved(tools);
      if all { tools, phase := [], ExpectAssistant; }
      return true;
    }

    method ApplyStarted(r: Record, id: bytes) returns (ok: bool)
      modifies this
      ensures ok == ApplyToolStarted(old(View()), r, id).Some?
      ensures ok ==> Some(View()) == ApplyToolStarted(old(View()), r, id)
    {
      if !phase.ExpectToolResults? || r.turnId != currentTurn || HasNul(id) { return false; }
      var i := FindToolIndex(tools, id);
      if i >= |tools| || tools[i].started || tools[i].resolved { return false; }
      tools := tools[i := tools[i].(started := true)];
      return true;
    }

    method ApplyPartialReply(r: Record, model: bytes) returns (ok: bool)
      modifies this
      ensures ok == ApplyPartial(old(View()), r, model).Some?
      ensures ok ==> Some(View()) == ApplyPartial(old(View()), r, model)
    {
      if !phase.ExpectAssistant? || r.turnId != currentTurn || partialSeen || HasNul(model) { return false; }
      partialSeen := true;
      return true;
    }

    method ApplyQueuedInput(r: Record, content: bytes) returns (ok: bool)
      modifies this
      ensures ok == ApplyQueued(old(View()), r, content).Some?
      ensures ok ==> Some(View()) == ApplyQueued(old(View()), r, content)
    {
      if phase.ExpectUser? || pending.Some? || queueConsumed || r.turnId != lastStarted + 1 { return false; }
      pending := Some(Pending(content, r.recordId, r.turnId));
      return true;
    }

    method ApplyResolution(r: Record, queued: u64, resolution: Resolution) returns (ok: bool)
      modifies this
      ensures ok == ApplyQueueResolved(old(View()), r, queued, resolution).Some?
      ensures ok ==> Some(View()) == ApplyQueueResolved(old(View()), r, queued, resolution)
    {
      if !phase.ExpectUser? || pending.None? || r.turnId != pending.value.turnId || queued != pending.value.recordId {
        return false;
      }
      if queueConsumed {
        if !resolution.Discarded? { return false; }
        pending, queueConsumed := None, false;
        return true;
      }
      if resolution.Consumed? {
        queueConsumed := true;
      } else {
        pending := None;
      }
      return true;
    }

    method CountRemoved(first: u64, last: u64) returns (ok: bool, count: nat)
      ensures ok == RemoveCount(context, Range(first, last)).Some?
      ensures ok ==> count <= |context| && Some(count) == RemoveCount(context, Range(first, last))
    {
      count := 0;
      assert context[0..] == context;
      ghost var all := RemoveCount(context, Range(first, last));
      while count < |context| && context[count].recordId <= last
        invariant count <= |context|
        invariant
          var rest := RemoveCount(context[count..], Range(first, last));
          all == if rest.None? then None else Some(rest.value + count)
      {
        assert context[count..][1..] == context[count + 1..];
        if context[count].recordId < first { return false, count; }
        count := count + 1;
      }
      return true, count;
    }

    method ApplyCheckpointRecord(r: Record) returns (ok: bool)
      requires r.payload.Checkpoint?
      modifies this
      ensures ok == ApplyCheckpoint(old(View()), r).Some?
      ensures ok ==> Some(View()) == ApplyCheckpoint(old(View()), r)
    {
      var Checkpoint(summary, model, first, last) := r.payload;
      if !phase.ExpectUser? || pending.Some? || queueConsumed || |context| == 0 || HasNul(model) { return false; }
      if first > context[0].recordId || last < context[0].recordId { return false; }
      var counted, count := CountRemoved(first, last);
      if !counted || count == 0 { return false; }
      context := [ContextItem(r.recordId, Assistant(summary, []))] + context[count..];
      checkpoint := Some(Range(first, last));
      return true;
    }

    method ApplySessionSetting(field: SettingField, value: bytes) returns (ok: bool)
      modifies this
      ensures ok == ApplySetting(old(View()), field, value).Some?
      ensures ok ==> Some(View()) == ApplySetting(old(View()), field, value)
    {
      if !phase.ExpectUser? || pending.Some? || queueConsumed || HasNul(value) { return false; }
      if field.ModelSetting? { lastModel := Some(value); } else { lastCwd := Some(value); }
      return true;
    }

    method ApplyTypedRecord(r: Record) returns (status: Status)
      modifies this
      ensures status == StepStatus(old(View()), r)
      ensures status == OK ==> Some(View()) == Step(old(View()), r)
    {
      hide AssistantStatus, ApplyAssistant;
      if queueConsumed && !MayFollowConsumed(r.payload) { return PARSE; }
      if r.payload.MessageRecord? && r.payload.message.value.Assistant? {
        status := ApplyAssistantMessage(r, r.payload.message);
      } else {
        var ok := ApplyOther(r);
        status := if ok then OK else PARSE;
      }
    }

    /** The records whose only refusal is a parse error. */
    method ApplyOther(r: Record) returns (ok: bool)
      requires !(r.payload.MessageRecord? && r.payload.message.value.Assistant?)
      requires queueConsumed ==> MayFollowConsumed(r.payload)
      modifies this
      ensures ok == Step(old(View()), r).Some?
      ensures ok ==> Some(View()) == Step(old(View()), r)
    {
      match r.payload
      case Transition(_) => ok := false;
      case MessageRecord(h) =>
        if h.value.User? { ok := ApplyUserMessage(r, h.value); } else { ok := ApplyToolMessage(r, h); }
      case ToolStarted(id) => ok := ApplyStarted(r, id);
      case PartialAssistant(_, model) => ok := ApplyPartialReply(r, model);
      case QueuedInput(content) => ok := ApplyQueuedInput(r, content);
      case QueueResolved(queued, resolution) => ok := ApplyResolution(r, queued, resolution);
      case Checkpoint(_, _, _, _) => ok := ApplyCheckpointRecord(r);
      case SessionSetting(field, value) => ok := ApplySessionSetting(field, value);
    }

    method ApplyLegacyMessages(legacy: seq<Message>) returns (ok: bool)
      requires View() == EMPTY && |legacy| <= U64_MAX
      modifies this
      ensures ok == ApplyLegacy(legacy).Some?
      ensures ok ==> Some(View()) == ApplyLegacy(legacy)
    {
      var i := 0;
      while i < |legacy|
        invariant i <= |legacy|
        invariant LegacyValid(legacy[..i])
        invariant View() == EMPTY.(context := LegacyContext(legacy[..i]))
      {
        var m := legacy[i];
        var expected := if i % 2 == 0 then m.User? else m.Assistant? && |m.calls| == 0;
        if !MessageValid(m) || !expected { return false; }
        context := context + [ContextItem(i + 1, m)];
        assert legacy[..i + 1] == legacy[..i] + [m];
        i := i + 1;
      }
      assert legacy[..i] == legacy;
      if |legacy| > 0 {
        lastStarted := (|legacy| + 1) / 2;
        if |legacy| % 2 != 0 {
          phase, currentTurn := ExpectAssistant, lastStarted;
        }
      }
      return true;
    }

    /** The transition, then every typed record in order. */
    method ApplyTyped(legacy: seq<Message>, typed: seq<Record>) returns (status: Status)
      requires ApplyLegacy(legacy) == Some(View())
      modifies this
      ensures status == FoldStatus(legacy, typed)
      ensures status == OK ==> Some(View()) == Fold(legacy, typed)
    {
      NothingTyped(legacy);
      hide Fold, FoldStatus, Step, StepStatus, ApplyLegacy, RecordValid;
      if |typed| == 0 { return OK; }
      var transition := typed[0];
      FirstRecord(legacy, typed);
      if !RecordValid(transition) || !transition.payload.Transition?
         || transition.payload.legacyRecordCount != |legacy|
      {
        StatusStays(legacy, typed, 1);
        return PARSE;
      }
      hide TransitionFits;
      var i := 1;
      while i < |typed|
        invariant 1 <= i <= |typed|
        invariant Fold(legacy, typed[..i]) == Some(View())
      {
        var r := typed[i];
        NextRecord(legacy, typed, i);
        if RecordValid(r) && r.recordId == typed[i - 1].recordId + 1 {
          status := ApplyTypedRecord(r);
        } else {
          status := PARSE;
        }
        if status != OK {
          StatusStays(legacy, typed, i + 1);
          return status;
        }
        i := i + 1;
      }
      assert typed[..i] == typed;
      return OK;
    }
  }

  lemma NothingTyped(legacy: seq<Message>)
    ensures Fold(legacy, []) == ApplyLegacy(legacy)
    ensures FoldStatus(legacy, []) == if ApplyLegacy(legacy).Some? then OK else PARSE
  {
    hide ApplyLegacy;
  }

  lemma FirstRecord(legacy: seq<Message>, typed: seq<Record>)
    requires typed != []
    ensures Fold(legacy, typed[..1]) == if TransitionFits(legacy, typed[0]) then ApplyLegacy(legacy) else None
    ensures FoldStatus(legacy, typed[..1]) == if Fold(legacy, typed[..1]).Some? then OK else PARSE
  {
    assert typed[..1] == [typed[0]];
  }

  lemma NextRecord(legacy: seq<Message>, typed: seq<Record>, i: nat)
    requires 1 <= i < |typed| && Fold(legacy, typed[..i]).Some?
    ensures
      Fold(legacy, typed[..i + 1])
      == if RecordValid(typed[i]) && typed[i].recordId == typed[i - 1].recordId + 1
         then Step(Fold(legacy, typed[..i]).value, typed[i])
         else None
    ensures
      FoldStatus(legacy, typed[..i + 1])
      == if RecordValid(typed[i]) && typed[i].recordId == typed[i - 1].recordId + 1
         then StepStatus(Fold(legacy, typed[..i]).value, typed[i])
         else PARSE
  {
    hide Step, StepStatus, RecordValid;
    assert typed[..i + 1][..i] == typed[..i];
  }

  method PublishUnresolved(tools: seq<Tool>) returns (unresolved: seq<Unresolved>)
    ensures unresolved == UnresolvedTools(tools)
  {
    unresolved := [];
    var i := 0;
    assert tools[0..] == tools;
    while i < |tools|
      invariant i <= |tools| && unresolved + UnresolvedTools(tools[i..]) == UnresolvedTools(tools)
    {
      assert tools[i..][1..] == tools[i + 1..];
      if !tools[i].resolved {
        unresolved := unresolved + [Unresolved(tools[i].call.id, tools[i].started)];
      }
      i := i + 1;
    }
  }

  /** `oi_cli_history_replay`: one pass over the records with a builder, then the published state. */
  method ReplayAll(legacy: seq<Message>, typed: seq<Record>) returns (status: Status, state: Option<ReplayState>)
    requires |legacy| <= U64_MAX
    ensures status == ReplayStatus(legacy, typed) && state == ReplayHistory(legacy, typed)
  {
    hide Fold, FoldStatus, ApplyLegacy, UnresolvedTools;
    var builder := new Replayer();
    var ok := builder.ApplyLegacyMessages(legacy);
    if !ok {
      LegacyRefused(legacy, typed);
      return PARSE, None;
    }
    status := builder.ApplyTyped(legacy, typed);
    if status != OK { return status, None; }
    var last := if |typed| > 0 then typed[|typed| - 1].recordId else |legacy|;
    if last == U64_MAX || builder.lastStarted == U64_MAX { return PARSE, None; }
    var unresolved := PublishUnresolved(builder.tools);
    return OK, Some(ReplayState(
      builder.context, builder.pending, unresolved,
      if builder.phase.ExpectUser? then 0 else builder.currentTurn,
      last + 1, builder.lastStarted + 1,
      |typed| == 0, !builder.phase.ExpectUser?, builder.partialSeen,
      builder.lastModel, builder.lastCwd, builder.checkpoint));
  }

  lemma LegacyRefused(legacy: seq<Message>, typed: seq<Record>)
    requires ApplyLegacy(legacy).None?
    ensures FoldStatus(legacy, typed) == PARSE
  {
    hide ApplyLegacy;
    assert typed[..0] == [];
    NothingTyped(legacy);
    StatusStays(legacy, typed, 0);
  }

  /** A refused prefix refuses the whole history, with the same status. */
  lemma {:induction false} StatusStays(legacy: seq<Message>, typed: seq<Record>, k: nat)
    requires k <= |typed| && FoldStatus(legacy, typed[..k]) != OK
    ensures FoldStatus(legacy, typed) == FoldStatus(legacy, typed[..k])
    decreases |typed|
  {
    hide Step, StepStatus, RecordValid, ApplyLegacy;
    if k == |typed| {
      assert typed[..k] == typed;
    } else {
      var prior := typed[..|typed| - 1];
      assert prior[..k] == typed[..k];
      StatusStays(legacy, prior, k);
    }
  }
}
