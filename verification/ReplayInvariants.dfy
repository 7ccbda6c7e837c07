/** What every accepted history keeps: phases, turn numbers, record ids and checkpoint ranges. */
module ReplayInvariants {
  import opened Basics
  import opened Messages
  import opened History
  import opened Replay

  predicate DistinctTools(tools: seq<Tool>) {
    forall i, j :: 0 <= i < j < |tools| ==> tools[i].call.id != tools[j].call.id
  }

  /** The phase agrees with the turn in progress, the tools, the partial reply and the queue. */
  predicate Coherent(b: Builder) {
    && (b.phase.ExpectUser? <==> b.currentTurn == 0)
    && (!b.phase.ExpectUser? ==> b.currentTurn == b.lastStarted)
    && (b.partialSeen ==> b.phase.ExpectAssistant?)
    && (b.queueConsumed ==> b.phase.ExpectUser? && b.pending.Some?)
    && (b.phase.ExpectToolResults? <==> !AllResolved(b.tools))
    && (!b.phase.ExpectToolResults? ==> b.tools == [])
    && DistinctTools(b.tools)
    && (b.pending.Some? ==> b.pending.value.turnId <= b.lastStarted + 1)
  }

  lemma LegacyCoherent(legacy: seq<Message>)
    requires ApplyLegacy(legacy).Some?
    ensures Coherent(ApplyLegacy(legacy).value)
  {
  }

  lemma {:induction false} FindToolFinds(tools: seq<Tool>, id: bytes)
    ensures FindTool(tools, id) <= |tools|
    ensures FindTool(tools, id) < |tools| ==> tools[FindTool(tools, id)].call.id == id
    ensures forall i :: 0 <= i < FindTool(tools, id) ==> tools[i].call.id != id
  {
    if tools != [] && tools[0].call.id != id {
      FindToolFinds(tools[1..], id);
    }
  }

  lemma MessageKeepsCoherent(b: Builder, r: Record)
    requires Coherent(b) && r.payload.MessageRecord? && Step(b, r).Some?
    ensures Coherent(Step(b, r).value)
  {
    var h := r.payload.message;
    if h.value.ToolResult? {
      FindToolFinds(b.tools, h.value.toolCallId);
    } else if h.value.Assistant? && h.value.calls != [] {
      assert !NewTools(h.value.calls)[0].resolved;
    }
  }

  lemma StepKeepsCoherent(b: Builder, r: Record)
    requires Coherent(b) && Step(b, r).Some?
    ensures Coherent(Step(b, r).value)
  {
    match r.payload
    case MessageRecord(_) => MessageKeepsCoherent(b, r);
    case ToolStarted(id) =>
      FindToolFinds(b.tools, id);
      var i :| 0 <= i < |b.tools| && !b.tools[i].resolved;
      assert !Step(b, r).value.tools[i].resolved;
    case _ =>
  }

  /** The invariant holds after every accepted history. */
  lemma {:induction false} FoldCoherent(legacy: seq<Message>, typed: seq<Record>)
    requires Fold(legacy, typed).Some?
    ensures Coherent(Fold(legacy, typed).value)
  {
    if |typed| <= 1 {
      LegacyCoherent(legacy);
    } else {
      var prior := typed[..|typed| - 1];
      FoldCoherent(legacy, prior);
      StepKeepsCoherent(Fold(legacy, prior).value, typed[|typed| - 1]);
    }
  }

  /** Every prefix of an accepted history is accepted. */
  lemma {:induction false} FoldPrefix(legacy: seq<Message>, typed: seq<Record>, k: nat)
    requires Fold(legacy, typed).Some? && k <= |typed|
    ensures Fold(legacy, typed[..k]).Some?
    decreases |typed|
  {
    if k == |typed| {
      assert typed[..k] == typed;
    } else if |typed| >= 2 {
      var prior := typed[..|typed| - 1];
      FoldPrefix(legacy, prior, k);
      assert prior[..k] == typed[..k];
    }
  }

  /** Record ids run on from the legacy count without a gap. */
  lemma {:induction false} RecordIdsRunOn(legacy: seq<Message>, typed: seq<Record>)
    requires Fold(legacy, typed).Some?
    ensures LastRecordId(legacy, typed) == |legacy| + |typed|
  {
    if |typed| >= 2 {
      RecordIdsRunOn(legacy, typed[..|typed| - 1]);
    }
  }

  function LegacyTurns(legacy: seq<Message>): (n: nat) {
    if legacy == [] then 0 else LegacyTurns(legacy[..|legacy| - 1]) + (if legacy[|legacy| - 1].User? then 1 else 0)
  }

  predicate IsUserRecord(r: Record) {
    r.payload.MessageRecord? && r.payload.message.value.User?
  }

  function TypedTurns(typed: seq<Record>): (n: nat) {
    if typed == [] then 0 else TypedTurns(typed[..|typed| - 1]) + (if IsUserRecord(typed[|typed| - 1]) then 1 else 0)
  }

  lemma {:induction false} LegacyTurnCount(legacy: seq<Message>)
    requires LegacyValid(legacy)
    ensures LegacyTurns(legacy) == (|legacy| + 1) / 2
  {
    if legacy != [] {
      LegacyTurnCount(legacy[..|legacy| - 1]);
    }
  }

  lemma StepCountsTurn(b: Builder, r: Record)
    requires Step(b, r).Some?
    ensures Step(b, r).value.lastStarted == b.lastStarted + (if IsUserRecord(r) then 1 else 0)
  {
  }

  /** The turn counter is the number of user messages ever accepted, legacy ones included. */
  lemma {:induction false} TurnsAreUserMessages(legacy: seq<Message>, typed: seq<Record>)
    requires Fold(legacy, typed).Some?
    ensures Fold(legacy, typed).value.lastStarted == LegacyTurns(legacy) + TypedTurns(typed)
  {
    if |typed| <= 1 {
      LegacyTurnCount(legacy);
      if |typed| == 1 { assert TypedTurns(typed[..0]) == 0; }
    } else {
      var prior := typed[..|typed| - 1];
      TurnsAreUserMessages(legacy, prior);
      StepCountsTurn(Fold(legacy, prior).value, typed[|typed| - 1]);
    }
  }

  /** The value of the last setting record for a field. */
  function LastSetting(typed: seq<Record>, field: SettingField): (found: Option<bytes>) {
    if typed == [] then None
    else
      var last := typed[|typed| - 1];
      if last.payload.SessionSetting? && last.payload.field == field then Some(last.payload.setting)
      else LastSetting(typed[..|typed| - 1], field)
  }

  lemma StepSetting(b: Builder, r: Record)
    requires Step(b, r).Some?
    ensures
      var after := Step(b, r).value;
      && after.lastModel == (if r.payload.SessionSetting? && r.payload.field.ModelSetting? then Some(r.payload.setting)
                             else b.lastModel)
      && after.lastCwd == (if r.payload.SessionSetting? && r.payload.field.CwdSetting? then Some(r.payload.setting)
                           else b.lastCwd)
  {
  }

  /** The published model and directory are the last ones recorded. */
  lemma {:induction false} SettingsAreLast(legacy: seq<Message>, typed: seq<Record>)
    requires Fold(legacy, typed).Some?
    ensures Fold(legacy, typed).value.lastModel == LastSetting(typed, ModelSetting)
    ensures Fold(legacy, typed).value.lastCwd == LastSetting(typed, CwdSetting)
  {
    if |typed| == 1 {
      assert typed[..0] == [];
    } else if |typed| >= 2 {
      var prior := typed[..|typed| - 1];
      SettingsAreLast(legacy, prior);
      StepSetting(Fold(legacy, prior).value, typed[|typed| - 1]);
      hide Step, RecordValid;
    }
  }

  /** Behind the head, context ids increase and differ from the head's; all are below `next`. */
  predicate IdsOrdered(context: seq<ContextItem>, next: nat) {
    && (forall i :: 0 <= i < |context| ==> 0 < context[i].recordId < next)
    && (forall i, j :: 1 <= i < j < |context| ==> context[i].recordId < context[j].recordId)
    && (forall i :: 1 <= i < |context| ==> context[i].recordId != context[0].recordId)
  }

  /** A checkpoint record keeps the context behind the items it removed. */
  lemma CheckpointContext(b: Builder, r: Record) returns (n: nat)
    requires r.payload.Checkpoint? && Step(b, r).Some?
    ensures 0 < n <= |b.context|
    ensures Step(b, r).value.context == [ContextItem(r.recordId, Assistant(r.payload.summary, []))] + b.context[n..]
  {
    n := RemoveCount(b.context, Range(r.payload.sourceFirst, r.payload.sourceLast)).value;
  }

  /** Any other record leaves the context alone or appends one item with its own id. */
  lemma OtherContext(b: Builder, r: Record)
    requires !r.payload.Checkpoint? && Step(b, r).Some?
    ensures
      var after := Step(b, r).value.context;
      || after == b.context
      || (r.payload.MessageRecord? && after == b.context + [ContextItem(r.recordId, r.payload.message.value)])
  {
  }

  lemma StepKeepsIdsOrdered(b: Builder, r: Record)
    requires IdsOrdered(b.context, r.recordId) && r.recordId > 0 && Step(b, r).Some?
    ensures IdsOrdered(Step(b, r).value.context, r.recordId + 1)
  {
    if r.payload.Checkpoint? {
      var n := CheckpointContext(b, r);
    } else {
      OtherContext(b, r);
    }
  }

  lemma {:induction false} FoldIdsOrdered(legacy: seq<Message>, typed: seq<Record>)
    requires Fold(legacy, typed).Some?
    ensures IdsOrdered(Fold(legacy, typed).value.context, LastRecordId(legacy, typed) + 1)
  {
    if |typed| >= 2 {
      var prior := typed[..|typed| - 1];
      FoldIdsOrdered(legacy, prior);
      StepKeepsIdsOrdered(Fold(legacy, prior).value, typed[|typed| - 1]);
    }
  }

  /** Nothing in flight: a checkpoint may be written now. */
  predicate Quiescent(b: Builder) {
    b.phase.ExpectUser? && b.pending.None? && !b.queueConsumed
  }

  /** The record `persist_checkpoint` builds for the first `p` items of the context. */
  function CheckpointRecord(
    context: seq<ContextItem>, next: u64, p: nat, summary: bytes, model: bytes): (record: Record)
    requires 0 < p <= |context|
  {
    MakeRecord(next, 0, Checkpoint(summary, model, context[0].recordId, context[p - 1].recordId))
  }

  lemma {:induction false} RemoveCountIncreasing(context: seq<ContextItem>, p: nat, range: Range)
    requires p <= |context|
    requires forall i :: 0 <= i < p ==> range.first <= context[i].recordId <= range.last
    requires p < |context| ==> context[p].recordId > range.last
    ensures RemoveCount(context, range) == Some(p)
    decreases p
  {
    if p > 0 {
      RemoveCountIncreasing(context[1..], p - 1, range);
    }
  }

  /**
   * A checkpoint of `p` items is accepted exactly when the context has one item or its head is older
   * than its second item, and then replaces those `p` items by the summary.
   */
  lemma CheckpointAccepted(b: Builder, next: u64, p: nat, summary: bytes, model: bytes)
    requires Quiescent(b) && IdsOrdered(b.context, next) && 0 < p <= |b.context|
    requires |summary| <= MAX_CONTENT && 0 < |model| <= MAX_CONTENT && !HasNul(model)
    ensures
      var r := CheckpointRecord(b.context, next, p, summary, model);
      var accepted := |b.context| == 1 || b.context[0].recordId < b.context[1].recordId;
      && (RecordValid(r) && Step(b, r).Some? <==> accepted)
      && (accepted ==>
            && RemoveCount(b.context, Range(b.context[0].recordId, b.context[p - 1].recordId)) == Some(p)
            && Step(b, r).value.context == [ContextItem(next, Assistant(summary, []))] + b.context[p..])
  {
    var ctx := b.context;
    var range := Range(ctx[0].recordId, ctx[p - 1].recordId);
    if |ctx| == 1 || ctx[0].recordId < ctx[1].recordId {
      RemoveCountIncreasing(ctx, p, range);
    } else {
      assert ctx[1].recordId < ctx[0].recordId;
      if range.first <= range.last {
        assert RemoveCount(ctx[1..], range).None?;
      }
    }
  }

  /** A compaction that kept a turn makes the next one fail: the summary is newer than what follows it. */
  lemma SecondCompactionRefused(b: Builder, next: u64, p: nat, q: nat, summary: bytes, model: bytes)
    requires Quiescent(b) && IdsOrdered(b.context, next) && 0 < p < |b.context|
    requires |summary| <= MAX_CONTENT && 0 < |model| <= MAX_CONTENT && !HasNul(model)
    requires |b.context| == 1 || b.context[0].recordId < b.context[1].recordId
    requires next < U64_MAX && 0 < q <= |b.context| + 1 - p
    ensures
      var first := CheckpointRecord(b.context, next, p, summary, model);
      && Step(b, first).Some?
      && var after := Step(b, first).value;
      && |after.context| == |b.context| + 1 - p
      && var second := CheckpointRecord(after.context, next + 1, q, summary, model);
      && !(RecordValid(second) && Step(after, second).Some?)
  {
    CheckpointAccepted(b, next, p, summary, model);
    var first := CheckpointRecord(b.context, next, p, summary, model);
    StepKeepsIdsOrdered(b, first);
    CheckpointAccepted(Step(b, first).value, next + 1, q, summary, model);
  }

  // ----- a history at which the second compaction fails -----

  const TWO_TURNS: seq<Message> :=
    [User([0x61]), Assistant([0x62], []), User([0x63]), Assistant([0x64], [])]

  /** The transition behind the two turns, and the compaction of the first of them. */
  const ONE_CUT: seq<Record> :=
    [MakeRecord(5, 0, Transition(4)), MakeRecord(6, 0, Checkpoint([], [0x6D], 1, 2))]

  /** Two turns, the first one compacted: every further checkpoint the program could write is refused. */
  lemma SecondCutRefused(q: nat, summary: bytes, model: bytes)
    requires 0 < q <= 3
    requires |summary| <= MAX_CONTENT && 0 < |model| <= MAX_CONTENT && !HasNul(model)
    ensures
      && Fold(TWO_TURNS, ONE_CUT).Some?
      && var b := Fold(TWO_TURNS, ONE_CUT).value;
      && Quiescent(b) && |b.context| == 3
      && Fold(TWO_TURNS, ONE_CUT + [CheckpointRecord(b.context, 7, q, summary, model)]).None?
  {
    OneCutAccepted();
    var b := Fold(TWO_TURNS, ONE_CUT).value;
    var second := CheckpointRecord(b.context, 7, q, summary, model);
    CheckpointAccepted(b, 7, q, summary, model);
    hide Step, RecordValid, IdsOrdered;
    assert (ONE_CUT + [second])[..2] == ONE_CUT;
  }

  lemma OneCutAccepted()
    ensures
      && Fold(TWO_TURNS, ONE_CUT).Some?
      && var b := Fold(TWO_TURNS, ONE_CUT).value;
      && Quiescent(b) && IdsOrdered(b.context, 7)
      && b.context
         == [ContextItem(6, Assistant([], [])), ContextItem(3, User([0x63])), ContextItem(4, Assistant([0x64], []))]
  {
    TransitionTaken();
    var start := ApplyLegacy(TWO_TURNS).value;
    hide ApplyLegacy;
    assert ONE_CUT[..1] == [ONE_CUT[0]];
    RemoveCountIncreasing(start.context, 2, Range(1, 2));
    assert start.context[2..] == [ContextItem(3, User([0x63])), ContextItem(4, Assistant([0x64], []))];
  }

  lemma TransitionTaken()
    ensures
      && ApplyLegacy(TWO_TURNS).Some?
      && var start := ApplyLegacy(TWO_TURNS).value;
      && Fold(TWO_TURNS, [ONE_CUT[0]]) == Some(start)
      && Quiescent(start)
      && start.context
         == [ContextItem(1, User([0x61])), ContextItem(2, Assistant([0x62], [])),
             ContextItem(3, User([0x63])), ContextItem(4, Assistant([0x64], []))]
  {
    assert LegacyContext(TWO_TURNS)
        == [ContextItem(1, User([0x61])), ContextItem(2, Assistant([0x62], [])),
            ContextItem(3, User([0x63])), ContextItem(4, Assistant([0x64], []))];
  }
}
