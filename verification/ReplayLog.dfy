/** Replaying a history record by record: the incremental form of `oi_cli_history_replay`. */
module ReplayLog {
  import opened Basics
  import opened Messages
  import opened History
  import opened Replay
  import opened ReplayInvariants

  /** The builder after the records so far and the id the next record must carry. */
  datatype Log = Log(b: Builder, nextId: u64)

  /** What a whole replay of a history with at least its transition record amounts to. */
  function LogOf(legacy: seq<Message>, typed: seq<Record>): (longer: Option<Log>) {
    match ReplayHistory(legacy, typed)
    case None => None
    case Some(state) => Some(Log(Fold(legacy, typed).value, state.nextRecordId))
  }

  /** One more record. */
  function Append(log: Log, r: Record): (longer: Option<Log>) {
    if !RecordValid(r) || r.recordId != log.nextId then None
    else
      match Step(log.b, r)
      case None => None
      case Some(b) =>
        if r.recordId >= U64_MAX || b.lastStarted >= U64_MAX then None else Some(Log(b, r.recordId + 1))
  }

  /** What the append reports: the record's own fault, replay's status, or ids that have run out. */
  function AppendStatus(log: Log, r: Record): (status: Status)
    ensures status == OK <==> Append(log, r).Some?
  {
    if !RecordValid(r) || r.recordId != log.nextId then INVAL
    else if StepStatus(log.b, r) != OK then StepStatus(log.b, r)
    else if Append(log, r).Some? then OK
    else PARSE
  }

  function AppendAll(log: Log, rs: seq<Record>): (longer: Option<Log>)
    decreases rs
  {
    if rs == [] then Some(log)
    else
      match Append(log, rs[0])
      case None => None
      case Some(next) => AppendAll(next, rs[1..])
  }

  /** Replaying one record more is one step from the state already reached. */
  lemma ReplayOneMore(legacy: seq<Message>, typed: seq<Record>, r: Record)
    requires typed != [] && LogOf(legacy, typed).Some?
    ensures LogOf(legacy, typed + [r]) == Append(LogOf(legacy, typed).value, r)
  {
    hide Step, RecordValid;
    assert (typed + [r])[..|typed|] == typed;
  }

  lemma {:induction false} ReplayMore(legacy: seq<Message>, typed: seq<Record>, rs: seq<Record>)
    requires typed != [] && LogOf(legacy, typed).Some?
    requires AppendAll(LogOf(legacy, typed).value, rs).Some?
    ensures LogOf(legacy, typed + rs) == AppendAll(LogOf(legacy, typed).value, rs)
    decreases rs
  {
    hide LogOf, Append;
    if rs == [] {
      assert typed + rs == typed;
    } else {
      ReplayOneMore(legacy, typed, rs[0]);
      ReplayMore(legacy, typed + [rs[0]], rs[1..]);
      assert typed + [rs[0]] + rs[1..] == typed + rs;
    }
  }

  lemma {:induction false} AppendAllConcat(log: Log, a: seq<Record>, b: seq<Record>)
    requires AppendAll(log, a).Some?
    ensures AppendAll(log, a + b) == AppendAll(AppendAll(log, a).value, b)
    decreases a
  {
    if a == [] {
      assert a + b == b;
    } else {
      AppendAllConcat(Append(log, a[0]).value, a[1..], b);
      assert (a + b)[1..] == a[1..] + b;
    }
  }

  /** Call ids under way are non-empty and free of NUL, so their results can be written. */
  predicate ToolsNamed(tools: seq<Tool>) {
    forall i :: 0 <= i < |tools| ==> tools[i].call.id != [] && !HasNul(tools[i].call.id)
  }

  predicate Sound(log: Log) {
    && Coherent(log.b)
    && ToolsNamed(log.b.tools)
    && IdsOrdered(log.b.context, log.nextId)
    && 0 < log.nextId
    && log.b.lastStarted < U64_MAX
    && (log.b.pending.Some? ==> 0 < log.b.pending.value.recordId < log.nextId && log.b.pending.value.turnId > 0)
  }

  lemma StepKeepsToolsNamed(b: Builder, r: Record)
    requires ToolsNamed(b.tools) && RecordValid(r) && Step(b, r).Some?
    ensures ToolsNamed(Step(b, r).value.tools)
  {
    if r.payload.MessageRecord? && r.payload.message.value.Assistant? {
      var calls := r.payload.message.value.calls;
      assert forall i :: 0 <= i < |calls| ==> CallValid(calls[i]);
      assert CallsAcceptable(calls) ==> forall i :: 0 <= i < |calls| ==> ArgumentsValid(calls[i]);
    }
  }

  lemma PendingStays(b: Builder, r: Record)
    requires Step(b, r).Some?
    ensures
      var after := Step(b, r).value;
      || after.pending.None?
      || after.pending == b.pending
      || (r.payload.QueuedInput? && after.pending == Some(Pending(r.payload.content, r.recordId, r.turnId)))
  {
  }

  lemma AppendKeepsSound(log: Log, r: Record)
    requires Sound(log) && Append(log, r).Some?
    ensures Sound(Append(log, r).value)
  {
    StepKeepsCoherent(log.b, r);
    StepKeepsToolsNamed(log.b, r);
    StepKeepsIdsOrdered(log.b, r);
    PendingStays(log.b, r);
  }

  /** Every accepted history leaves a sound log. */
  lemma {:induction false} ReplayedSound(legacy: seq<Message>, typed: seq<Record>)
    requires LogOf(legacy, typed).Some?
    ensures Sound(LogOf(legacy, typed).value)
  {
    FoldIdsOrdered(legacy, typed);
    if |typed| <= 1 {
      LegacyCoherent(legacy);
    } else {
      var prior, last := typed[..|typed| - 1], typed[|typed| - 1];
      assert typed == prior + [last];
      PrefixReplays(legacy, typed);
      ReplayedSound(legacy, prior);
      ReplayOneMore(legacy, prior, last);
      AppendKeepsSound(LogOf(legacy, prior).value, last);
    }
  }

  /** Dropping the last record of an accepted history leaves an accepted history. */
  lemma PrefixReplays(legacy: seq<Message>, typed: seq<Record>)
    requires |typed| >= 2 && LogOf(legacy, typed).Some?
    ensures LogOf(legacy, typed[..|typed| - 1]).Some?
  {
    var prior := typed[..|typed| - 1];
    StepCountsTurn(Fold(legacy, prior).value, typed[|typed| - 1]);
  }
}
