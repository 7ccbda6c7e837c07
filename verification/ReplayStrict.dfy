/** Which histories replay accepts, said of the records alone: what must have come before each of them. */
module ReplayStrict {
  import opened Basics
  import opened Messages
  import opened History
  import opened Replay
  import opened ReplayInvariants

  // ----- what a list of records says -----

  /** A user's or an assistant's message. */
  predicate Talks(r: Record) {
    r.payload.MessageRecord? && !r.payload.message.value.ToolResult?
  }

  predicate Answers(r: Record, id: bytes) {
    r.payload.MessageRecord? && r.payload.message.value.ToolResult? && r.payload.message.value.toolCallId == id
  }

  predicate Discards(r: Record) {
    r.payload.QueueResolved? && r.payload.resolution.Discarded?
  }

  predicate Consumes(r: Record) {
    r.payload.QueueResolved? && r.payload.resolution.Consumed?
  }

  /** The last message that is not a tool's. */
  function LastTalk(legacy: seq<Message>, typed: seq<Record>): (found: Option<Message>) {
    if typed == [] then (if legacy == [] then None else Some(legacy[|legacy| - 1]))
    else if Talks(typed[|typed| - 1]) then Some(typed[|typed| - 1].payload.message.value)
    else LastTalk(legacy, typed[..|typed| - 1])
  }

  /** The records behind it. */
  function Since(typed: seq<Record>): (rs: seq<Record>) {
    if typed == [] || Talks(typed[|typed| - 1]) then [] else Since(typed[..|typed| - 1]) + [typed[|typed| - 1]]
  }

  predicate StartedIn(rs: seq<Record>, id: bytes) {
    exists k :: 0 <= k < |rs| && rs[k].payload == ToolStarted(id)
  }

  predicate AnsweredIn(rs: seq<Record>, id: bytes) {
    exists k :: 0 <= k < |rs| && Answers(rs[k], id)
  }

  predicate PartialIn(rs: seq<Record>) {
    exists k :: 0 <= k < |rs| && rs[k].payload.PartialAssistant?
  }

  /** No turn is open: nobody has spoken, or an assistant without asking for tools. */
  predicate BetweenTurns(legacy: seq<Message>, typed: seq<Record>) {
    var talk := LastTalk(legacy, typed);
    talk.Some? ==> talk.value.Assistant? && talk.value.calls == []
  }

  /** The calls of the last message. */
  function Calls(legacy: seq<Message>, typed: seq<Record>): (calls: seq<ToolCall>) {
    var talk := LastTalk(legacy, typed);
    if talk.Some? && talk.value.Assistant? then talk.value.calls else []
  }

  predicate AllAnswered(calls: seq<ToolCall>, rs: seq<Record>) {
    forall i :: 0 <= i < |calls| ==> AnsweredIn(rs, calls[i].id)
  }

  predicate AwaitsResults(legacy: seq<Message>, typed: seq<Record>) {
    !AllAnswered(Calls(legacy, typed), Since(typed))
  }

  predicate AwaitsReply(legacy: seq<Message>, typed: seq<Record>) {
    !BetweenTurns(legacy, typed) && !AwaitsResults(legacy, typed)
  }

  /** How many turns were ever started. */
  function Turns(legacy: seq<Message>, typed: seq<Record>): (n: nat) {
    LegacyTurns(legacy) + TypedTurns(typed)
  }

  /** One of the calls, by its id. */
  predicate Asks(calls: seq<ToolCall>, id: bytes) {
    exists i :: 0 <= i < |calls| && calls[i].id == id
  }

  // ----- the queue -----

  /** Record `k` is the end of the input queued at `i`: it discards it, or it is the message it became. */
  predicate Settles(typed: seq<Record>, i: nat, k: nat)
    requires i < k < |typed|
  {
    Discards(typed[k]) || (IsUserRecord(typed[k]) && exists j :: i < j < k && Consumes(typed[j]))
  }

  /** The input queued at `i` still waits. */
  predicate Waits(typed: seq<Record>, i: nat) {
    && i < |typed| && typed[i].payload.QueuedInput?
    && forall k :: i < k < |typed| ==> !Settles(typed, i, k)
  }

  /** It was taken off the queue; only its message is missing. */
  predicate Taken(typed: seq<Record>, i: nat) {
    exists j :: i < j < |typed| && Consumes(typed[j])
  }

  predicate NoneWaits(typed: seq<Record>) {
    forall i :: 0 <= i < |typed| ==> !Waits(typed, i)
  }

  // ----- the context -----

  /** How many items from the front have an id up to `last`. */
  function Leading(context: seq<ContextItem>, last: u64): (n: nat)
    ensures n <= |context|
    ensures forall i :: 0 <= i < n ==> context[i].recordId <= last
    ensures n < |context| ==> context[n].recordId > last
  {
    if context == [] || context[0].recordId > last then 0 else 1 + Leading(context[1..], last)
  }

  /** What the model is shown: every message, but for those a summary stands for. */
  function Shown(legacy: seq<Message>, typed: seq<Record>): (context: seq<ContextItem>)
    requires |legacy| <= U64_MAX
  {
    if typed == [] then LegacyContext(legacy)
    else
      var r, before := typed[|typed| - 1], Shown(legacy, typed[..|typed| - 1]);
      if r.payload.MessageRecord? then before + [ContextItem(r.recordId, r.payload.message.value)]
      else if r.payload.Checkpoint? then
        [ContextItem(r.recordId, Assistant(r.payload.summary, []))] + before[Leading(before, r.payload.sourceLast)..]
      else before
  }

  // ----- what may come next -----

  /** While a queued input is taken, only its own message or its discard may follow. */
  predicate Undisturbed(typed: seq<Record>, r: Record) {
    forall i :: 0 <= i < |typed| && Waits(typed, i) && Taken(typed, i) ==>
      || Discards(r)
      || (IsUserRecord(r) && r.turnId == typed[i].turnId && r.payload.message.value.content == typed[i].payload.content)
  }

  predicate MessageMayFollow(legacy: seq<Message>, typed: seq<Record>, r: Record, h: HistoryMessage) {
    var calls, since := Calls(legacy, typed), Since(typed);
    match h.value
    case User(_) => BetweenTurns(legacy, typed) && r.turnId == Turns(legacy, typed) + 1
    case Assistant(_, asked) =>
      && AwaitsReply(legacy, typed) && r.turnId == Turns(legacy, typed)
      && (h.model.Some? ==> !HasNul(h.model.value))
      && (PartialIn(since) ==> h.source.Repair?)
      && CallsAcceptable(asked)
    case ToolResult(id, _) =>
      && AwaitsResults(legacy, typed) && r.turnId == Turns(legacy, typed) && !HasNul(id)
      && Asks(calls, id) && !AnsweredIn(since, id)
      && (h.outcome.Completed? || h.outcome.OutcomeUnknown? ==> StartedIn(since, id))
      && (h.outcome.NotExecuted? ==> !StartedIn(since, id))
  }

  /** The resolution is for the input that waits, and does not take it a second time. */
  predicate ResolvesWaiting(typed: seq<Record>, r: Record)
    requires r.payload.QueueResolved?
  {
    exists i :: 0 <= i < |typed| && Waits(typed, i)
      && typed[i].recordId == r.payload.queuedRecordId && typed[i].turnId == r.turnId
      && (r.payload.resolution.Consumed? ==> !Taken(typed, i))
  }

  /** The range covers the head of the context, and nothing it reaches is older than it. */
  predicate CutsHead(context: seq<ContextItem>, first: u64, last: u64) {
    && Leading(context, last) > 0
    && forall i :: 0 <= i < Leading(context, last) ==> first <= context[i].recordId
  }

  predicate MayFollow(legacy: seq<Message>, typed: seq<Record>, r: Record)
    requires |legacy| <= U64_MAX
  {
    var calls, since := Calls(legacy, typed), Since(typed);
    && Undisturbed(typed, r)
    && match r.payload
       case Transition(_) => false
       case MessageRecord(h) => MessageMayFollow(legacy, typed, r, h)
       case ToolStarted(id) =>
         && AwaitsResults(legacy, typed) && r.turnId == Turns(legacy, typed) && !HasNul(id)
         && Asks(calls, id) && !StartedIn(since, id) && !AnsweredIn(since, id)
       case PartialAssistant(_, model) =>
         && AwaitsReply(legacy, typed) && r.turnId == Turns(legacy, typed)
         && !PartialIn(since) && !HasNul(model)
       case QueuedInput(_) =>
         !BetweenTurns(legacy, typed) && NoneWaits(typed) && r.turnId == Turns(legacy, typed) + 1
       case QueueResolved(_, _) => BetweenTurns(legacy, typed) && ResolvesWaiting(typed, r)
       case Checkpoint(_, model, first, last) =>
         && BetweenTurns(legacy, typed) && NoneWaits(typed) && !HasNul(model)
         && CutsHead(Shown(legacy, typed), first, last)
       case SessionSetting(_, value) => BetweenTurns(legacy, typed) && NoneWaits(typed) && !HasNul(value)
  }

  /** A history in order: old messages that alternate, the transition, and records that each may follow the others. */
  predicate InOrder(legacy: seq<Message>, typed: seq<Record>) {
    && LegacyValid(legacy)
    && (typed != [] ==> TransitionFits(legacy, typed[0]))
    && forall k :: 1 <= k < |typed| ==>
         RecordValid(typed[k]) && typed[k].recordId == |legacy| + k + 1 && MayFollow(legacy, typed[..k], typed[k])
  }

  // ----- the acceptor's state, read off the records -----

  predicate ToolsMirror(tools: seq<Tool>, calls: seq<ToolCall>, since: seq<Record>) {
    && |tools| == |calls|
    && forall i :: 0 <= i < |calls| ==>
         tools[i] == Tool(calls[i], StartedIn(since, calls[i].id), AnsweredIn(since, calls[i].id))
  }

  predicate QueueMirror(b: Builder, typed: seq<Record>) {
    && (b.pending.Some? ==> exists i :: 0 <= i < |typed| && Waits(typed, i))
    && (forall i :: 0 <= i < |typed| && Waits(typed, i) ==>
          && b.pending == Some(Pending(typed[i].payload.content, typed[i].recordId, typed[i].turnId))
          && (b.queueConsumed <==> Taken(typed, i)))
  }

  predicate TurnMirror(b: Builder, legacy: seq<Message>, typed: seq<Record>) {
    && (b.phase.ExpectUser? <==> BetweenTurns(legacy, typed))
    && (b.phase.ExpectToolResults? <==> AwaitsResults(legacy, typed))
    && (b.phase.ExpectToolResults? ==> ToolsMirror(b.tools, Calls(legacy, typed), Since(typed)))
    && (b.partialSeen <==> PartialIn(Since(typed)))
    && b.lastStarted == Turns(legacy, typed)
  }

  predicate Mirrors(b: Builder, legacy: seq<Message>, typed: seq<Record>)
    requires |legacy| <= U64_MAX
  {
    Coherent(b) && TurnMirror(b, legacy, typed) && QueueMirror(b, typed) && b.context == Shown(legacy, typed)
  }

  // ----- one step -----

  lemma {:induction false} RemovesLeading(context: seq<ContextItem>, range: Range)
    ensures
      RemoveCount(context, range)
      == if forall i :: 0 <= i < Leading(context, range.last) ==> range.first <= context[i].recordId
         then Some(Leading(context, range.last)) else None
  {
    if context != [] && context[0].recordId <= range.last {
      var rest := context[1..];
      RemovesLeading(rest, range);
      assert forall i :: 0 <= i < |rest| ==> rest[i] == context[i + 1];
      if context[0].recordId >= range.first && RemoveCount(rest, range).Some? {
        forall i | 0 <= i < Leading(context, range.last) ensures range.first <= context[i].recordId {
          if i > 0 { assert rest[i - 1] == context[i]; }
        }
      }
    }
  }

  lemma FindAsked(tools: seq<Tool>, calls: seq<ToolCall>, since: seq<Record>, id: bytes)
    requires ToolsMirror(tools, calls, since)
    ensures FindTool(tools, id) < |tools| <==> Asks(calls, id)
    ensures
      FindTool(tools, id) < |tools| ==>
        var tool := tools[FindTool(tools, id)];
        && tool.call.id == id
        && (tool.started <==> StartedIn(since, id)) && (tool.resolved <==> AnsweredIn(since, id))
  {
    hide StartedIn, AnsweredIn;
    FindToolFinds(tools, id);
    if i :| 0 <= i < |calls| && calls[i].id == id {
      assert tools[i].call == calls[i];
    }
  }

  lemma QueueSays(b: Builder, typed: seq<Record>)
    requires Coherent(b) && QueueMirror(b, typed)
    ensures b.pending.None? <==> NoneWaits(typed)
    ensures b.pending.None? ==> !b.queueConsumed
  {
    hide Waits, Taken;
  }

  lemma UndisturbedSays(b: Builder, typed: seq<Record>, r: Record)
    requires Coherent(b) && QueueMirror(b, typed)
    ensures
      Undisturbed(typed, r)
      <==> (b.queueConsumed ==>
              || Discards(r)
              || (IsUserRecord(r) && b.pending.Some? && DeliversQueue(b, r, r.payload.message.value)))
  {
    hide Waits, Taken;
    if b.queueConsumed {
      var i :| 0 <= i < |typed| && Waits(typed, i);
      assert Taken(typed, i);
    }
  }

  lemma MessageIff(b: Builder, legacy: seq<Message>, typed: seq<Record>, r: Record)
    requires |legacy| <= U64_MAX && Mirrors(b, legacy, typed) && r.payload.MessageRecord?
    requires Undisturbed(typed, r)
    ensures Step(b, r).Some? <==> MessageMayFollow(legacy, typed, r, r.payload.message)
  {
    UndisturbedSays(b, typed, r);
    hide Undisturbed, QueueMirror, LastTalk, Since, Turns, Shown, PartialIn, CallsAcceptable;
    hide DistinctTools, AllResolved;
    hide LegacyTurns, TypedTurns, AwaitsResults, BetweenTurns, Calls;
    var h := r.payload.message;
    if h.value.ToolResult? && b.phase.ExpectToolResults? {
      FindAsked(b.tools, Calls(legacy, typed), Since(typed), h.value.toolCallId);
      hide ToolsMirror, Asks, StartedIn, AnsweredIn;
    }
  }

  lemma ResolutionIff(b: Builder, typed: seq<Record>, r: Record)
    requires Coherent(b) && QueueMirror(b, typed) && r.payload.QueueResolved? && b.phase.ExpectUser?
    requires Undisturbed(typed, r)
    ensures Step(b, r).Some? <==> ResolvesWaiting(typed, r)
  {
    UndisturbedSays(b, typed, r);
    hide Waits, Taken, Undisturbed, DistinctTools, AllResolved;
    if b.pending.Some? {
      var i :| 0 <= i < |typed| && Waits(typed, i);
    }
  }

  /** A state that mirrors the records takes exactly what may follow them. */
  lemma StepIff(b: Builder, legacy: seq<Message>, typed: seq<Record>, r: Record)
    requires |legacy| <= U64_MAX && Mirrors(b, legacy, typed)
    ensures Step(b, r).Some? <==> MayFollow(legacy, typed, r)
  {
    UndisturbedSays(b, typed, r);
    QueueSays(b, typed);
    if Undisturbed(typed, r) {
      match r.payload
      case MessageRecord(_) => MessageIff(b, legacy, typed, r);
      case QueueResolved(_, _) => if b.phase.ExpectUser? { ResolutionIff(b, typed, r); }
      case ToolStarted(_) => StartIff(b, legacy, typed, r);
      case _ => OtherIff(b, legacy, typed, r);
    } else {
      hide Undisturbed, Mirrors, Coherent, QueueMirror;
    }
  }

  lemma StartIff(b: Builder, legacy: seq<Message>, typed: seq<Record>, r: Record)
    requires |legacy| <= U64_MAX && Mirrors(b, legacy, typed)
    requires r.payload.ToolStarted? && Undisturbed(typed, r)
    ensures Step(b, r).Some? <==> MayFollow(legacy, typed, r)
  {
    UndisturbedSays(b, typed, r);
    hide Undisturbed, QueueMirror, LastTalk, Since, Shown, Turns, PartialIn, AllResolved, DistinctTools;
    hide AwaitsResults, BetweenTurns, Calls, FindTool;
    if b.phase.ExpectToolResults? {
      FindAsked(b.tools, Calls(legacy, typed), Since(typed), r.payload.toolCallId);
    }
    hide ToolsMirror, Asks, StartedIn, AnsweredIn;
  }

  lemma OtherIff(b: Builder, legacy: seq<Message>, typed: seq<Record>, r: Record)
    requires |legacy| <= U64_MAX && Mirrors(b, legacy, typed)
    requires !r.payload.MessageRecord? && !r.payload.QueueResolved? && !r.payload.ToolStarted?
    requires Undisturbed(typed, r)
    ensures Step(b, r).Some? <==> MayFollow(legacy, typed, r)
  {
    UndisturbedSays(b, typed, r);
    QueueSays(b, typed);
    hide Undisturbed, QueueMirror, NoneWaits, LastTalk, Since, Shown, Turns, PartialIn, AllResolved, DistinctTools;
    hide AwaitsResults, BetweenTurns, Calls, FindTool, RemoveCount, Leading;
    if r.payload.Checkpoint? {
      RemovesLeading(b.context, Range(r.payload.sourceFirst, r.payload.sourceLast));
    }
    hide ToolsMirror, Asks, StartedIn, AnsweredIn;
  }

  // ----- the mirror is kept -----

  lemma WaitsOn(typed: seq<Record>, r: Record, i: nat)
    requires i < |typed|
    ensures
      Waits(typed + [r], i)
      <==> Waits(typed, i) && !(Discards(r) || (IsUserRecord(r) && Taken(typed, i)))
    ensures Taken(typed + [r], i) <==> Taken(typed, i) || Consumes(r)
  {
    var longer := typed + [r];
    assert longer[|typed|] == r && forall k :: 0 <= k < |typed| ==> longer[k] == typed[k];
    assert Settles(longer, i, |typed|) <==> Discards(r) || (IsUserRecord(r) && Taken(typed, i)) by {
      if j :| i < j < |typed| && Consumes(typed[j]) { assert Consumes(longer[j]); }
    }
    forall k | i < k < |typed| ensures Settles(longer, i, k) <==> Settles(typed, i, k) {
      if j :| i < j < k && Consumes(typed[j]) { assert Consumes(longer[j]); }
    }
    if j :| i < j < |typed| && Consumes(typed[j]) { assert Consumes(longer[j]); }
  }

  lemma WaitsNew(typed: seq<Record>, r: Record)
    ensures Waits(typed + [r], |typed|) <==> r.payload.QueuedInput?
    ensures !Taken(typed + [r], |typed|)
  {
  }

  lemma QueueKept(b: Builder, typed: seq<Record>, r: Record)
    requires Coherent(b) && QueueMirror(b, typed) && Step(b, r).Some?
    ensures QueueMirror(Step(b, r).value, typed + [r])
  {
    var after, longer := Step(b, r).value, typed + [r];
    QueueStep(b, r);
    QueueSays(b, typed);
    WaitsNew(typed, r);
    forall i | 0 <= i < |typed| ensures
        && (Waits(longer, i) <==> Waits(typed, i) && !(Discards(r) || (IsUserRecord(r) && Taken(typed, i))))
        && (Taken(longer, i) <==> Taken(typed, i) || Consumes(r)) {
      WaitsOn(typed, r, i);
    }
    hide Step, Coherent, Waits, Taken;
    forall i | 0 <= i < |longer| && Waits(longer, i) ensures
        && after.pending == Some(Pending(longer[i].payload.content, longer[i].recordId, longer[i].turnId))
        && (after.queueConsumed <==> Taken(longer, i)) {
      if i < |typed| { assert Waits(typed, i) && longer[i] == typed[i]; }
    }
    if after.pending.Some? {
      if r.payload.QueuedInput? {
        assert Waits(longer, |typed|);
      } else {
        var i :| 0 <= i < |typed| && Waits(typed, i);
        assert Waits(longer, i);
      }
    }
  }

  /** What one accepted record does to the queue. */
  lemma QueueStep(b: Builder, r: Record)
    requires Coherent(b) && Step(b, r).Some?
    ensures
      var after := Step(b, r).value;
      if r.payload.QueuedInput? then
        && b.pending.None? && !after.queueConsumed
        && after.pending == Some(Pending(r.payload.content, r.recordId, r.turnId))
      else if Discards(r) || (IsUserRecord(r) && b.queueConsumed) then after.pending.None? && !after.queueConsumed
      else
        && after.pending == b.pending
        && (after.queueConsumed <==> b.queueConsumed || Consumes(r))
        && (Consumes(r) ==> b.pending.Some?)
  {
    hide AllResolved, DistinctTools, CallsAcceptable, FindTool, RemoveCount, HasNul, NewTools;
  }

  lemma {:induction false} TypedTurnsOn(typed: seq<Record>, r: Record)
    ensures TypedTurns(typed + [r]) == TypedTurns(typed) + (if IsUserRecord(r) then 1 else 0)
  {
    assert (typed + [r])[..|typed|] == typed;
  }

  lemma SinceOn(legacy: seq<Message>, typed: seq<Record>, r: Record)
    ensures
      if Talks(r) then Since(typed + [r]) == [] && LastTalk(legacy, typed + [r]) == Some(r.payload.message.value)
      else Since(typed + [r]) == Since(typed) + [r] && LastTalk(legacy, typed + [r]) == LastTalk(legacy, typed)
  {
    assert (typed + [r])[..|typed|] == typed;
  }

  lemma RecordsOn(rs: seq<Record>, r: Record, id: bytes)
    ensures StartedIn(rs + [r], id) <==> StartedIn(rs, id) || r.payload == ToolStarted(id)
    ensures AnsweredIn(rs + [r], id) <==> AnsweredIn(rs, id) || Answers(r, id)
    ensures PartialIn(rs + [r]) <==> PartialIn(rs) || r.payload.PartialAssistant?
  {
    var longer := rs + [r];
    assert longer[|rs|] == r && forall k :: 0 <= k < |rs| ==> longer[k] == rs[k];
    if k :| 0 <= k < |rs| && rs[k].payload == ToolStarted(id) { assert longer[k].payload == ToolStarted(id); }
    if k :| 0 <= k < |rs| && Answers(rs[k], id) { assert Answers(longer[k], id); }
    if k :| 0 <= k < |rs| && rs[k].payload.PartialAssistant? { assert longer[k].payload.PartialAssistant?; }
  }

  lemma NothingIn(id: bytes)
    ensures !StartedIn([], id) && !AnsweredIn([], id) && !PartialIn([])
  {
  }

  /** A user's or an assistant's message opens a new stretch of records. */
  lemma TalkKept(b: Builder, legacy: seq<Message>, typed: seq<Record>, r: Record)
    requires Coherent(b) && TurnMirror(b, legacy, typed) && Talks(r) && Step(b, r).Some?
    ensures TurnMirror(Step(b, r).value, legacy, typed + [r])
  {
    SinceOn(legacy, typed, r);
    StepCountsTurn(b, r);
    TypedTurnsOn(typed, r);
    NothingIn([]);
    hide LegacyTurns, TypedTurns, LastTalk, Since, AllResolved, DistinctTools, FindTool, RemoveCount, HasNul;
    hide CallsAcceptable, StartedIn, PartialIn;
    var m := r.payload.message.value;
    if m.Assistant? && m.calls != [] {
      assert Calls(legacy, typed + [r]) == m.calls;
      NothingIn(m.calls[0].id);
      assert !AllAnswered(m.calls, []);
      forall i | 0 <= i < |m.calls| ensures
          NewTools(m.calls)[i] == Tool(m.calls[i], StartedIn([], m.calls[i].id), AnsweredIn([], m.calls[i].id)) {
        NothingIn(m.calls[i].id);
      }
    }
  }

  /** A result for one of the calls, or the start of one. */
  lemma ToolsKept(tools: seq<Tool>, calls: seq<ToolCall>, since: seq<Record>, r: Record, id: bytes)
    requires ToolsMirror(tools, calls, since) && DistinctTools(tools) && FindTool(tools, id) < |tools|
    requires r.payload == ToolStarted(id) || Answers(r, id)
    ensures
      var i := FindTool(tools, id);
      var moved := if Answers(r, id) then tools[i].(resolved := true) else tools[i].(started := true);
      ToolsMirror(tools[i := moved], calls, since + [r])
  {
    FindToolFinds(tools, id);
    var at := FindTool(tools, id);
    forall i | 0 <= i < |calls| ensures
        && (StartedIn(since + [r], calls[i].id)
            <==> StartedIn(since, calls[i].id) || (r.payload.ToolStarted? && i == at))
        && (AnsweredIn(since + [r], calls[i].id)
            <==> AnsweredIn(since, calls[i].id) || (Answers(r, id) && i == at)) {
      RecordsOn(since, r, calls[i].id);
      assert tools[i].call == calls[i] && tools[at].call.id == id;
    }
    hide StartedIn, AnsweredIn;
  }

  lemma ResolvedMeansAnswered(tools: seq<Tool>, calls: seq<ToolCall>, since: seq<Record>)
    requires ToolsMirror(tools, calls, since)
    ensures AllResolved(tools) <==> AllAnswered(calls, since)
  {
    hide StartedIn, AnsweredIn;
    forall i | 0 <= i < |calls| ensures tools[i].resolved <==> AnsweredIn(since, calls[i].id) {
    }
  }

  lemma AnsweredStays(calls: seq<ToolCall>, since: seq<Record>, r: Record)
    ensures AllAnswered(calls, since) ==> AllAnswered(calls, since + [r])
    ensures !r.payload.MessageRecord? ==> (AllAnswered(calls, since) <==> AllAnswered(calls, since + [r]))
  {
    forall i | 0 <= i < |calls| ensures
        AnsweredIn(since + [r], calls[i].id) <==> AnsweredIn(since, calls[i].id) || Answers(r, calls[i].id) {
      RecordsOn(since, r, calls[i].id);
    }
    hide AnsweredIn;
  }

  lemma ResultKept(b: Builder, legacy: seq<Message>, typed: seq<Record>, r: Record)
    requires Coherent(b) && TurnMirror(b, legacy, typed) && Step(b, r).Some?
    requires r.payload.MessageRecord? && r.payload.message.value.ToolResult?
    ensures TurnMirror(Step(b, r).value, legacy, typed + [r])
  {
    SinceOn(legacy, typed, r);
    StepCountsTurn(b, r);
    TypedTurnsOn(typed, r);
    RecordsOn(Since(typed), r, []);
    var id, calls, since := r.payload.message.value.toolCallId, Calls(legacy, typed), Since(typed);
    FindToolFinds(b.tools, id);
    ToolsKept(b.tools, calls, since, r, id);
    var resolved := b.tools[FindTool(b.tools, id) := b.tools[FindTool(b.tools, id)].(resolved := true)];
    ResolvedMeansAnswered(resolved, calls, since + [r]);
    hide LegacyTurns, TypedTurns, LastTalk, Since, DistinctTools, FindTool, HasNul, ToolsMirror;
    hide AllAnswered, AllResolved;
    hide PartialIn;
  }

  /** Records that are not messages. */
  lemma EventKept(b: Builder, legacy: seq<Message>, typed: seq<Record>, r: Record)
    requires Coherent(b) && TurnMirror(b, legacy, typed) && Step(b, r).Some?
    requires !r.payload.MessageRecord?
    ensures TurnMirror(Step(b, r).value, legacy, typed + [r])
  {
    SinceOn(legacy, typed, r);
    StepCountsTurn(b, r);
    TypedTurnsOn(typed, r);
    RecordsOn(Since(typed), r, []);
    var calls, since := Calls(legacy, typed), Since(typed);
    AnsweredStays(calls, since, r);
    if r.payload.ToolStarted? {
      FindToolFinds(b.tools, r.payload.toolCallId);
      ToolsKept(b.tools, calls, since, r, r.payload.toolCallId);
    } else if b.phase.ExpectToolResults? {
      EventMirror(b.tools, calls, since, r);
    }
    hide LegacyTurns, TypedTurns, LastTalk, Since, DistinctTools, FindTool, HasNul, ToolsMirror;
    hide AllAnswered, AllResolved;
    hide PartialIn, RemoveCount;
  }

  lemma EventMirror(tools: seq<Tool>, calls: seq<ToolCall>, since: seq<Record>, r: Record)
    requires ToolsMirror(tools, calls, since) && !r.payload.MessageRecord? && !r.payload.ToolStarted?
    ensures ToolsMirror(tools, calls, since + [r])
  {
    forall i | 0 <= i < |calls| ensures
        && (StartedIn(since + [r], calls[i].id) <==> StartedIn(since, calls[i].id))
        && (AnsweredIn(since + [r], calls[i].id) <==> AnsweredIn(since, calls[i].id)) {
      RecordsOn(since, r, calls[i].id);
    }
    hide StartedIn, AnsweredIn;
  }

  lemma MessageShown(b: Builder, r: Record)
    requires r.payload.MessageRecord? && Step(b, r).Some?
    ensures Step(b, r).value.context == b.context + [ContextItem(r.recordId, r.payload.message.value)]
  {
    hide CallsAcceptable, FindTool, HasNul, AllResolved, NewTools, OutcomeFits;
  }

  lemma EventShown(b: Builder, r: Record)
    requires !r.payload.MessageRecord? && !r.payload.Checkpoint? && Step(b, r).Some?
    ensures Step(b, r).value.context == b.context
  {
    hide FindTool, HasNul, AllResolved;
  }

  lemma CheckpointShown(b: Builder, r: Record)
    requires r.payload.Checkpoint? && Step(b, r).Some?
    ensures
      Step(b, r).value.context
      == [ContextItem(r.recordId, Assistant(r.payload.summary, []))]
         + b.context[Leading(b.context, r.payload.sourceLast)..]
  {
    RemovesLeading(b.context, Range(r.payload.sourceFirst, r.payload.sourceLast));
    hide HasNul, Leading, RemoveCount;
  }

  lemma ShownOn(b: Builder, legacy: seq<Message>, typed: seq<Record>, r: Record)
    requires |legacy| <= U64_MAX && b.context == Shown(legacy, typed) && Step(b, r).Some?
    ensures Step(b, r).value.context == Shown(legacy, typed + [r])
  {
    assert (typed + [r])[..|typed|] == typed;
    if r.payload.Checkpoint? {
      CheckpointShown(b, r);
    } else if r.payload.MessageRecord? {
      MessageShown(b, r);
    } else {
      EventShown(b, r);
    }
    hide Step, Leading, LegacyContext;
  }

  lemma MirrorsKept(b: Builder, legacy: seq<Message>, typed: seq<Record>, r: Record)
    requires |legacy| <= U64_MAX && Mirrors(b, legacy, typed) && Step(b, r).Some?
    ensures Mirrors(Step(b, r).value, legacy, typed + [r])
  {
    StepKeepsCoherent(b, r);
    QueueKept(b, typed, r);
    ShownOn(b, legacy, typed, r);
    if Talks(r) {
      TalkKept(b, legacy, typed, r);
    } else if r.payload.MessageRecord? {
      ResultKept(b, legacy, typed, r);
    } else {
      EventKept(b, legacy, typed, r);
    }
    hide Coherent, TurnMirror, QueueMirror, Step, Shown;
  }

  // ----- whole histories -----

  lemma LegacyMirrors(legacy: seq<Message>)
    requires LegacyValid(legacy)
    ensures Mirrors(ApplyLegacy(legacy).value, legacy, [])
  {
    LegacyCoherent(legacy);
    LegacyTurnCount(legacy);
    NothingIn([]);
    hide LegacyTurns, PartialIn, LegacyContext, AllResolved, DistinctTools, Coherent, Waits;
    var b := ApplyLegacy(legacy).value;
    assert Calls(legacy, []) == [] && TurnMirror(b, legacy, []);
    assert b.context == Shown(legacy, []);
  }

  /** The transition says nothing. */
  lemma TransitionMirrors(b: Builder, legacy: seq<Message>, r: Record)
    requires |legacy| <= U64_MAX && Mirrors(b, legacy, []) && r.payload.Transition?
    requires Calls(legacy, []) == []
    ensures Mirrors(b, legacy, [r])
  {
    assert [r][..0] == [] && [] + [r] == [r];
    SinceOn(legacy, [], r);
    TypedTurnsOn([], r);
    RecordsOn([], r, []);
    hide LegacyTurns, PartialIn, LegacyContext, Coherent, Since, LastTalk, TypedTurns, ToolsMirror;
    assert Calls(legacy, [r]) == [] && TurnMirror(b, legacy, [r]);
    assert b.context == Shown(legacy, [r]);
  }

  lemma StartMirrors(legacy: seq<Message>, typed: seq<Record>)
    requires LegacyValid(legacy) && (typed == [] || (|typed| == 1 && TransitionFits(legacy, typed[0])))
    ensures Mirrors(ApplyLegacy(legacy).value, legacy, typed)
  {
    LegacyMirrors(legacy);
    hide Mirrors, ApplyLegacy;
    if typed != [] {
      assert typed == [typed[0]];
      TransitionMirrors(ApplyLegacy(legacy).value, legacy, typed[0]);
    }
  }

  lemma InOrderOn(legacy: seq<Message>, typed: seq<Record>)
    requires |typed| >= 2
    ensures
      var prior, last := typed[..|typed| - 1], typed[|typed| - 1];
      InOrder(legacy, typed)
      <==> InOrder(legacy, prior) && RecordValid(last) && last.recordId == |legacy| + |typed|
           && MayFollow(legacy, prior, last)
  {
    hide LegacyValid, TransitionFits, RecordValid, MayFollow;
    var prior := typed[..|typed| - 1];
    forall k | 1 <= k < |prior| ensures prior[..k] == typed[..k] && prior[k] == typed[k] {
    }
  }

  /** Replay accepts exactly the histories in order, and its state mirrors their records. */
  lemma {:induction false} AcceptedIff(legacy: seq<Message>, typed: seq<Record>)
    ensures Fold(legacy, typed).Some? <==> InOrder(legacy, typed)
    ensures Fold(legacy, typed).Some? ==> |legacy| <= U64_MAX && Mirrors(Fold(legacy, typed).value, legacy, typed)
    decreases |typed|
  {
    hide Mirrors, RecordValid, Step, MayFollow;
    if |typed| <= 1 {
      if LegacyValid(legacy) && (typed == [] || TransitionFits(legacy, typed[0])) { StartMirrors(legacy, typed); }
    } else {
      hide InOrder, ApplyLegacy, TransitionFits;
      var prior, last := typed[..|typed| - 1], typed[|typed| - 1];
      AcceptedIff(legacy, prior);
      InOrderOn(legacy, typed);
      assert typed == prior + [last];
      if Fold(legacy, prior).Some? {
        RecordIdsRunOn(legacy, prior);
        var b := Fold(legacy, prior).value;
        StepIff(b, legacy, prior, last);
        if Step(b, last).Some? { MirrorsKept(b, legacy, prior, last); }
      }
    }
  }

  // ----- what replay publishes -----

  /** The calls still without a result, and whether each was started. */
  function OpenCalls(calls: seq<ToolCall>, since: seq<Record>): (open: seq<Unresolved>) {
    if calls == [] then []
    else
      (if AnsweredIn(since, calls[0].id) then [] else [Unresolved(calls[0].id, StartedIn(since, calls[0].id))])
      + OpenCalls(calls[1..], since)
  }

  lemma {:induction false} OpenToolsSay(tools: seq<Tool>, calls: seq<ToolCall>, since: seq<Record>)
    requires ToolsMirror(tools, calls, since)
    ensures UnresolvedTools(tools) == OpenCalls(calls, since)
    decreases tools
  {
    hide StartedIn, AnsweredIn;
    if tools != [] {
      forall i | 0 <= i < |calls| - 1 ensures
          tools[1..][i]
          == Tool(calls[1..][i], StartedIn(since, calls[1..][i].id), AnsweredIn(since, calls[1..][i].id)) {
        assert tools[1..][i] == tools[i + 1] && calls[1..][i] == calls[i + 1];
      }
      OpenToolsSay(tools[1..], calls[1..], since);
    }
  }

  lemma {:induction false} NoneOpen(calls: seq<ToolCall>, since: seq<Record>)
    ensures AllAnswered(calls, since) ==> OpenCalls(calls, since) == []
    decreases calls
  {
    hide AnsweredIn;
    if calls != [] {
      assert forall i :: 0 <= i < |calls[1..]| ==> calls[1..][i] == calls[i + 1];
      NoneOpen(calls[1..], since);
    }
  }

  /** The range of the last checkpoint. */
  function LastCut(typed: seq<Record>): (found: Option<Range>) {
    if typed == [] then None
    else
      match typed[|typed| - 1].payload
      case Checkpoint(_, _, first, last) => Some(Range(first, last))
      case _ => LastCut(typed[..|typed| - 1])
  }

  lemma StepCuts(b: Builder, r: Record)
    requires Step(b, r).Some?
    ensures
      Step(b, r).value.checkpoint
      == if r.payload.Checkpoint? then Some(Range(r.payload.sourceFirst, r.payload.sourceLast)) else b.checkpoint
  {
    hide FindTool, HasNul, AllResolved, CallsAcceptable, RemoveCount;
  }

  lemma {:induction false} CutIsLast(legacy: seq<Message>, typed: seq<Record>)
    requires Fold(legacy, typed).Some?
    ensures Fold(legacy, typed).value.checkpoint == LastCut(typed)
    decreases |typed|
  {
    if |typed| == 1 {
      assert typed[..0] == [];
    } else if |typed| >= 2 {
      var prior := typed[..|typed| - 1];
      CutIsLast(legacy, prior);
      StepCuts(Fold(legacy, prior).value, typed[|typed| - 1]);
      hide Step, RecordValid;
    }
  }

  /** What is published of an accepted history, read off its records. */
  lemma PublishedSays(legacy: seq<Message>, typed: seq<Record>)
    requires ReplayHistory(legacy, typed).Some?
    ensures InOrder(legacy, typed)
    ensures
      var state := ReplayHistory(legacy, typed).value;
      && state.context == Shown(legacy, typed)
      && state.unresolved == OpenCalls(Calls(legacy, typed), Since(typed))
      && state.repairTurnId == (if BetweenTurns(legacy, typed) then 0 else Turns(legacy, typed))
      && state.nextRecordId == |legacy| + |typed| + 1 && state.nextTurnId == Turns(legacy, typed) + 1
      && (state.needsTransition <==> typed == []) && (state.needsRepair <==> !BetweenTurns(legacy, typed))
      && (state.hasPartialAssistant <==> PartialIn(Since(typed)))
      && state.lastModel == LastSetting(typed, ModelSetting) && state.lastCwd == LastSetting(typed, CwdSetting)
      && state.checkpoint == LastCut(typed)
      && (state.pending.None? <==> NoneWaits(typed))
      && (forall i :: 0 <= i < |typed| && Waits(typed, i) ==>
            state.pending == Some(Pending(typed[i].payload.content, typed[i].recordId, typed[i].turnId)))
  {
    AcceptedIff(legacy, typed);
    RecordIdsRunOn(legacy, typed);
    SettingsAreLast(legacy, typed);
    CutIsLast(legacy, typed);
    var b := Fold(legacy, typed).value;
    QueueSays(b, typed);
    var calls, since := Calls(legacy, typed), Since(typed);
    NoneOpen(calls, since);
    if b.phase.ExpectToolResults? { OpenToolsSay(b.tools, calls, since); }
    hide Fold, InOrder, Waits, Taken, Shown, LastTalk, Since, TypedTurns, LegacyTurns, OpenCalls, LastCut, LastSetting;
    hide ToolsMirror, DistinctTools, AllResolved, AllAnswered, PartialIn, NoneWaits, StartedIn, AnsweredIn;
    hide BetweenTurns;
  }
}
