/** Durable history records and their validity, as in src/cli_history.c. */
module History {
  import opened Basics
  import opened Messages

  const SCHEMA_VERSION: nat := 1
  const MAX_CONTENT: nat := 1024 * 1024
  const MAX_RECORD: nat := 8 * 1024 * 1024
  const MAX_SETTING_VALUE: nat := 4096

  /** What closes a turn that never got its reply, in a running session and after a crash alike. */
  const INTERRUPTED_TURN_TEXT := Ascii("[assistant turn interrupted before completion]")

  datatype Source = Normal | Repair

  datatype Outcome = NoOutcome | Completed | OutcomeUnknown | NotExecuted

  datatype Resolution = Consumed | Discarded

  datatype SettingField = ModelSetting | CwdSetting

  datatype HistoryMessage = HistoryMessage(
    value: Message,
    source: Source,
    outcome: Outcome,
    model: Option<bytes>,
    raw: Option<bytes>)

  datatype Payload =
    | Transition(legacyRecordCount: u64)
    | MessageRecord(message: HistoryMessage)
    | ToolStarted(toolCallId: bytes)
    | PartialAssistant(content: bytes, model: bytes)
    | QueuedInput(content: bytes)
    | QueueResolved(queuedRecordId: u64, resolution: Resolution)
    | Checkpoint(summary: bytes, model: bytes, sourceFirst: u64, sourceLast: u64)
    | SessionSetting(field: SettingField, setting: bytes)

  datatype Record = Record(version: nat, recordId: u64, turnId: u64, payload: Payload)

  predicate AssistantAttributed(m: HistoryMessage) {
    match m.source
    case Normal => m.model.Some? && m.model.value != []
    case Repair => m.model.None?
  }

  predicate ToolOutcomeValid(m: HistoryMessage) {
    match m.source
    case Normal =>
      (match m.outcome
       case Completed => m.raw.Some? && |m.raw.value| <= MAX_CONTENT
       case OutcomeUnknown => m.raw.Some? ==> |m.raw.value| <= MAX_CONTENT
       case NotExecuted => m.raw.None?
       case NoOutcome => false)
    case Repair => (m.outcome.OutcomeUnknown? || m.outcome.NotExecuted?) && m.raw.None?
  }

  predicate HistoryMessageValid(m: HistoryMessage) {
    && MessageValid(m.value)
    && |m.value.content| <= MAX_CONTENT
    && (m.model.Some? ==> |m.model.value| <= MAX_CONTENT)
    && (m.value.Assistant? ==>
          forall i :: 0 <= i < |m.value.calls| ==> |m.value.calls[i].arguments| <= MAX_CONTENT)
    && match m.value
       case User(_) => m.source.Normal? && m.model.None? && m.outcome.NoOutcome? && m.raw.None?
       case Assistant(_, _) => AssistantAttributed(m) && m.outcome.NoOutcome? && m.raw.None?
       case ToolResult(_, _) => m.model.None? && ToolOutcomeValid(m)
  }

  predicate RecordValid(r: Record) {
    && r.version == SCHEMA_VERSION
    && r.recordId > 0
    && match r.payload
       case Transition(count) => r.turnId == 0 && count < U64_MAX && r.recordId == count + 1
       case MessageRecord(m) => r.turnId > 0 && HistoryMessageValid(m)
       case ToolStarted(id) => r.turnId > 0 && 0 < |id| <= MAX_CONTENT
       case PartialAssistant(content, model) =>
         r.turnId > 0 && |content| <= MAX_CONTENT && 0 < |model| <= MAX_CONTENT
       case QueuedInput(content) => r.turnId > 0 && |content| <= MAX_CONTENT
       case QueueResolved(queued, _) => r.turnId > 0 && 0 < queued < r.recordId
       case Checkpoint(summary, model, first, last) =>
         && r.turnId == 0
         && |summary| <= MAX_CONTENT
         && 0 < |model| <= MAX_CONTENT
         && 0 < first <= last < r.recordId
       case SessionSetting(_, value) => r.turnId == 0 && 0 < |value| <= MAX_SETTING_VALUE
  }

  /** A record as the set functions build it: the schema version is always theirs. */
  function MakeRecord(recordId: u64, turnId: u64, payload: Payload): (record: Record) {
    Record(SCHEMA_VERSION, recordId, turnId, payload)
  }
}
