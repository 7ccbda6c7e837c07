/** The replayed context always has the shape its phase calls for. */
module ReplayShape {
  import opened Basics
  import opened Messages
  import opened History
  import opened Replay
  import opened ReplayInvariants
  import opened ContextShape

  /** The message column of the context. */
  function ContextMessages(context: seq<ContextItem>): (messages: seq<Message>) {
    seq(|context|, i requires 0 <= i < |context| => context[i].message)
  }

  function Unanswered(tools: seq<Tool>): (ids: multiset<bytes>) {
    if tools == [] then multiset{} else Unanswered(tools[..|tools| - 1]) + OpenId(tools[|tools| - 1])
  }

  function OpenId(tool: Tool): (ids: multiset<bytes>) {
    if tool.resolved then multiset{} else multiset{tool.call.id}
  }

  /** The shape a builder's context must have. */
  function ShapeDue(b: Builder): (shape: Shape) {
    match b.phase
    case ExpectUser => if b.context == [] then Empty else Closed
    case ExpectAssistant => Replying
    case ExpectToolResults => Collecting(Unanswered(b.tools))
  }

  predicate WellShaped(b: Builder) {
    Scan(Empty, ContextMessages(b.context)) == ShapeDue(b)
  }

  /** A checkpoint that ends at a turn boundary; other records are free. */
  predicate CutsWell(b: Builder, r: Record) {
    r.payload.Checkpoint? ==>
      var removed := RemoveCount(b.context, Range(r.payload.sourceFirst, r.payload.sourceLast));
      removed.Some? ==> CutsAtTurn(ContextMessages(b.context), removed.value)
  }

  lemma UnansweredSnoc(tools: seq<Tool>)
    requires tools != []
    ensures Unanswered(tools) == Unanswered(tools[..|tools| - 1]) + OpenId(tools[|tools| - 1])
  {
  }

  lemma TakenFromSum(left: multiset<bytes>, less: multiset<bytes>, right: multiset<bytes>, id: bytes)
    requires id in left && less == left - multiset{id}
    ensures id in left + right && less + right == left + right - multiset{id}
  {
  }

  lemma LastTaken(left: multiset<bytes>, tool: Tool)
    requires !tool.resolved
    ensures tool.call.id in left + OpenId(tool)
    ensures left + OpenId(tool.(resolved := true)) == left + OpenId(tool) - multiset{tool.call.id}
  {
    assert left + multiset{} == left;
    assert left + multiset{tool.call.id} - multiset{tool.call.id} == left;
  }

  lemma {:induction false} UnansweredResolve(tools: seq<Tool>, i: nat)
    requires i < |tools| && !tools[i].resolved
    ensures tools[i].call.id in Unanswered(tools)
    ensures
      Unanswered(tools[i := tools[i].(resolved := true)]) == Unanswered(tools) - multiset{tools[i].call.id}
  {
    hide Unanswered, OpenId;
    var n := |tools| - 1;
    var done := tools[i].(resolved := true);
    var after := tools[i := done];
    UnansweredSnoc(tools);
    UnansweredSnoc(after);
    if i == n {
      assert after[..n] == tools[..n];
      LastTaken(Unanswered(tools[..n]), tools[n]);
    } else {
      UnansweredResolve(tools[..n], i);
      assert after[..n] == tools[..n][i := done];
      assert after[n] == tools[n];
      TakenFromSum(Unanswered(tools[..n]), Unanswered(after[..n]), OpenId(tools[n]), tools[i].call.id);
    }
  }

  lemma {:induction false} UnansweredEmpty(tools: seq<Tool>)
    ensures AllResolved(tools) <==> Unanswered(tools) == multiset{}
  {
    if tools != [] {
      var n := |tools| - 1;
      UnansweredEmpty(tools[..n]);
      assert AllResolved(tools) <==> AllResolved(tools[..n]) && tools[n].resolved;
    }
  }

  lemma {:induction false} UnansweredNew(calls: seq<ToolCall>)
    ensures Unanswered(NewTools(calls)) == CallIds(calls)
  {
    if calls != [] {
      var n := |calls| - 1;
      UnansweredNew(calls[..n]);
      assert NewTools(calls)[..n] == NewTools(calls[..n]);
    }
  }

  lemma {:induction false} UnansweredStarted(tools: seq<Tool>, i: nat)
    requires i < |tools|
    ensures Unanswered(tools[i := tools[i].(started := true)]) == Unanswered(tools)
  {
    var n := |tools| - 1;
    var after := tools[i := tools[i].(started := true)];
    if i == n {
      assert after[..n] == tools[..n];
    } else {
      UnansweredStarted(tools[..n], i);
      assert after[..n] == tools[..n][i := tools[i].(started := true)];
    }
  }

  lemma MessagesSnoc(context: seq<ContextItem>, item: ContextItem)
    ensures ContextMessages(context + [item]) == ContextMessages(context) + [item.message]
  {
  }

  lemma UserKeepsShape(b: Builder, r: Record, m: Message)
    requires Coherent(b) && WellShaped(b) && m.User? && ApplyUser(b, r, m).Some?
    ensures WellShaped(ApplyUser(b, r, m).value)
  {
    MessagesSnoc(b.context, ContextItem(r.recordId, m));
    ScanSnoc(Empty, ContextMessages(b.context), m);
  }

  lemma AssistantKeepsShape(b: Builder, r: Record, h: HistoryMessage)
    requires Coherent(b) && WellShaped(b) && h.value.Assistant? && ApplyAssistant(b, r, h).Some?
    ensures WellShaped(ApplyAssistant(b, r, h).value)
  {
    hide CallsAcceptable;
    MessagesSnoc(b.context, ContextItem(r.recordId, h.value));
    ScanSnoc(Empty, ContextMessages(b.context), h.value);
    UnansweredNew(h.value.calls);
  }

  lemma ToolKeepsShape(b: Builder, r: Record, h: HistoryMessage)
    requires Coherent(b) && WellShaped(b) && h.value.ToolResult? && ApplyTool(b, r, h).Some?
    ensures WellShaped(ApplyTool(b, r, h).value)
  {
    hide Unanswered, AllResolved;
    MessagesSnoc(b.context, ContextItem(r.recordId, h.value));
    ScanSnoc(Empty, ContextMessages(b.context), h.value);
    var i := FindTool(b.tools, h.value.toolCallId);
    FindToolFinds(b.tools, h.value.toolCallId);
    UnansweredResolve(b.tools, i);
    UnansweredEmpty(b.tools[i := b.tools[i].(resolved := true)]);
  }

  lemma MessageKeepsShape(b: Builder, r: Record)
    requires Coherent(b) && WellShaped(b) && r.payload.MessageRecord? && Step(b, r).Some?
    ensures WellShaped(Step(b, r).value)
  {
    hide WellShaped, Coherent, ApplyUser, ApplyAssistant, ApplyTool;
    var h := r.payload.message;
    match h.value
    case User(_) => UserKeepsShape(b, r, h.value);
    case Assistant(_, _) => AssistantKeepsShape(b, r, h);
    case ToolResult(_, _) => ToolKeepsShape(b, r, h);
  }

  lemma StepKeepsShape(b: Builder, r: Record)
    requires Coherent(b) && WellShaped(b) && CutsWell(b, r) && Step(b, r).Some?
    ensures WellShaped(Step(b, r).value)
  {
    match r.payload
    case MessageRecord(_) => MessageKeepsShape(b, r);
    case ToolStarted(id) => UnansweredStarted(b.tools, FindTool(b.tools, id));
    case Checkpoint(summary, _, first, last) =>
      var n := RemoveCount(b.context, Range(first, last)).value;
      SummaryKeepsClosed(ContextMessages(b.context), n, summary);
      assert ContextMessages(Step(b, r).value.context)
          == [Assistant(summary, [])] + ContextMessages(b.context)[n..];
    case _ =>
  }

  lemma {:induction false} LegacyShape(legacy: seq<Message>)
    requires LegacyValid(legacy)
    ensures Scan(Empty, legacy) == if legacy == [] then Empty else if |legacy| % 2 == 0 then Closed else Replying
  {
    if legacy != [] {
      var prior, last := legacy[..|legacy| - 1], legacy[|legacy| - 1];
      LegacyShape(prior);
      ScanSnoc(Empty, prior, last);
      assert legacy == prior + [last];
    }
  }

  /** Every checkpoint of the history cut where a turn ends. */
  predicate AllCutWell(legacy: seq<Message>, typed: seq<Record>)
    requires Fold(legacy, typed).Some?
  {
    |typed| >= 2 ==>
      var prior := typed[..|typed| - 1];
      AllCutWell(legacy, prior) && CutsWell(Fold(legacy, prior).value, typed[|typed| - 1])
  }

  /** If every checkpoint cuts at a turn boundary, the context is well shaped after every history. */
  lemma {:induction false} FoldShape(legacy: seq<Message>, typed: seq<Record>)
    requires Fold(legacy, typed).Some? && AllCutWell(legacy, typed)
    ensures WellShaped(Fold(legacy, typed).value)
  {
    if |typed| <= 1 {
      LegacyShape(legacy);
      assert ContextMessages(LegacyContext(legacy)) == legacy;
    } else {
      var prior := typed[..|typed| - 1];
      FoldShape(legacy, prior);
      FoldCoherent(legacy, prior);
      StepKeepsShape(Fold(legacy, prior).value, typed[|typed| - 1]);
    }
  }
}
