/** What the closings of a turn write: the exact records, and the messages they add to the live list. */
module TurnEffects {
  import opened Basics
  import opened Messages
  import opened History
  import opened ReplayLog
  import opened Conversation
  import opened Simulation

  // ----- the records of one callback -----

  /** Payloads as records with consecutive ids. */
  function Numbered(next: u64, turnId: u64, ps: seq<Payload>): (rs: seq<Record>)
    requires next + |ps| <= U64_MAX
    decreases ps
  {
    if ps == [] then [] else [MakeRecord(next, turnId, ps[0])] + Numbered(next + 1, turnId, ps[1..])
  }

  function SpokenIn(payload: Payload): (messages: seq<Message>) {
    if payload.MessageRecord? then [payload.message.value] else []
  }

  /** The messages among them. */
  function Spoken(ps: seq<Payload>): (messages: seq<Message>)
    decreases ps
  {
    if ps == [] then [] else SpokenIn(ps[0]) + Spoken(ps[1..])
  }

  /** From `w` to `after` exactly these records are written, in order, and their messages join the live list. */
  predicate Did(w: World, after: World, ps: seq<Payload>) {
    && w.p.log.nextId + |ps| <= U64_MAX
    && AppendAll(w.p.log, Numbered(w.p.log.nextId, w.p.turnId, ps)) == Some(after.p.log)
    && after.c.messages == w.c.messages + Spoken(ps)
  }

  lemma DidNothing(w: World, after: World)
    requires after.p.log == w.p.log && after.c.messages == w.c.messages
    ensures Did(w, after, [])
  {
  }

  /** Only log, turn and messages count. */
  lemma DidAlike(a: World, b: World, w: World, after: World, ps: seq<Payload>)
    requires Did(a, b, ps)
    requires w.p.log == a.p.log && w.p.turnId == a.p.turnId && w.c.messages == a.c.messages
    requires after.p.log == b.p.log && after.c.messages == b.c.messages
    ensures Did(w, after, ps)
  {
  }

  lemma {:induction false} NumberedConcat(next: u64, turnId: u64, a: seq<Payload>, b: seq<Payload>)
    requires next + |a| + |b| <= U64_MAX
    ensures Numbered(next, turnId, a + b) == Numbered(next, turnId, a) + Numbered(next + |a|, turnId, b)
    decreases a
  {
    hide MakeRecord;
    if a == [] {
      assert a + b == b;
    } else {
      assert (a + b)[1..] == a[1..] + b && (a + b)[0] == a[0];
      NumberedConcat(next + 1, turnId, a[1..], b);
      RecordFirst(MakeRecord(next, turnId, a[0]), Numbered(next + 1, turnId, a[1..]),
                  Numbered(next + |a|, turnId, b));
    }
  }

  lemma RecordFirst(r: Record, rs: seq<Record>, more: seq<Record>)
    ensures [r] + (rs + more) == [r] + rs + more
  {
  }

  lemma {:induction false} SpokenConcat(a: seq<Payload>, b: seq<Payload>)
    ensures Spoken(a + b) == Spoken(a) + Spoken(b)
    decreases a
  {
    hide SpokenIn;
    if a == [] {
      assert a + b == b;
    } else {
      SpokenConcat(a[1..], b);
      assert (a + b)[1..] == a[1..] + b && (a + b)[0] == a[0];
      assert SpokenIn(a[0]) + (Spoken(a[1..]) + Spoken(b)) == SpokenIn(a[0]) + Spoken(a[1..]) + Spoken(b);
    }
  }

  lemma {:induction false} IdsAdvance(log: Log, turnId: u64, ps: seq<Payload>)
    requires log.nextId + |ps| <= U64_MAX
    requires AppendAll(log, Numbered(log.nextId, turnId, ps)).Some?
    ensures AppendAll(log, Numbered(log.nextId, turnId, ps)).value.nextId == log.nextId + |ps|
    decreases ps
  {
    if ps != [] {
      var rs := Numbered(log.nextId, turnId, ps);
      assert rs[1..] == Numbered(log.nextId + 1, turnId, ps[1..]);
      IdsAdvance(Append(log, rs[0]).value, turnId, ps[1..]);
    }
  }

  /** One after the other, within one turn. */
  lemma DidBoth(a: World, b: World, c: World, ps: seq<Payload>, qs: seq<Payload>)
    requires Did(a, b, ps) && Did(b, c, qs) && b.p.turnId == a.p.turnId
    ensures Did(a, c, ps + qs)
  {
    hide Numbered, Spoken, AppendAll;
    IdsAdvance(a.p.log, a.p.turnId, ps);
    NumberedConcat(a.p.log.nextId, a.p.turnId, ps, qs);
    AppendAllConcat(a.p.log, Numbered(a.p.log.nextId, a.p.turnId, ps), Numbered(b.p.log.nextId, b.p.turnId, qs));
    SpokenConcat(ps, qs);
    assert a.c.messages + Spoken(ps) + Spoken(qs) == a.c.messages + (Spoken(ps) + Spoken(qs));
  }

  lemma OneAppended(log: Log, turnId: u64, payload: Payload)
    requires log.nextId < U64_MAX
    ensures
      AppendAll(log, Numbered(log.nextId, turnId, [payload]))
      == Append(log, MakeRecord(log.nextId, turnId, payload))
  {
    hide Append;
    var rs := Numbered(log.nextId, turnId, [payload]);
    assert [payload][1..] == [] && Numbered(log.nextId + 1, turnId, []) == [];
    assert rs == [MakeRecord(log.nextId, turnId, payload)] && rs[1..] == [];
  }

  lemma CommitDoes(w: World, m: Message, outcome: ToolOutcome, raw: Option<bytes>, isRepair: bool)
    requires Commit(w, m, outcome, raw, isRepair).1 == OK
    ensures w.p.log.nextId < U64_MAX
    ensures Did(w, Commit(w, m, outcome, raw, isRepair).0, [MessagePayload(w, m, outcome, raw, isRepair)])
  {
    hide RecordValid, AppendStatus;
    var payload := MessagePayload(w, m, outcome, raw, isRepair);
    assert Append(w.p.log, MakeRecord(w.p.log.nextId, w.p.turnId, payload)).Some?;
    OneAppended(w.p.log, w.p.turnId, payload);
    assert [payload][1..] == [] && Spoken([payload]) == [m];
  }

  lemma PersistDoes(w: World, payload: Payload)
    requires PersistRecord(w.p, w.p.turnId, payload).1 == OK && !payload.MessageRecord?
    ensures w.p.log.nextId < U64_MAX
    ensures Did(w, w.(p := PersistRecord(w.p, w.p.turnId, payload).0), [payload])
  {
    hide RecordValid, AppendStatus;
    assert Append(w.p.log, MakeRecord(w.p.log.nextId, w.p.turnId, payload)).Some?;
    OneAppended(w.p.log, w.p.turnId, payload);
    assert [payload][1..] == [] && Spoken([payload]) == [];
  }

  // ----- what is written for a call, and to close a turn -----

  /** A call that never ran: no outcome beyond that, and no output. */
  function Unstarted(call: ToolCall, text: bytes): (payload: Payload) {
    MessageRecord(HistoryMessage(ToolResult(call.id, text), Normal, NotExecuted, None, None))
  }

  /** A call cut off while it may have run: what it had put out is kept beside the placeholder. */
  function CutOff(call: ToolCall, output: bytes): (payload: Payload) {
    MessageRecord(HistoryMessage(
      ToolResult(call.id, CANCELLED_UNKNOWN_TEXT), Normal, OutcomeUnknown, None, Some(output)))
  }

  /** One such record for every call from `i` on. */
  function AllUnstarted(calls: seq<ToolCall>, i: nat, text: bytes): (ps: seq<Payload>)
    decreases |calls| - i
  {
    if i >= |calls| then [] else [Unstarted(calls[i], text)] + AllUnstarted(calls, i + 1, text)
  }

  /** A closing reply nobody's model gave. */
  function Bookend(text: bytes): (payload: Payload) {
    MessageRecord(HistoryMessage(Assistant(text, []), Repair, NoOutcome, None, None))
  }

  /** The placeholders of the calls from `i` on, the first of them cut off if it may have started. */
  function Answers(calls: seq<ToolCall>, i: nat, started: bool, output: bytes): (ps: seq<Payload>)
    requires i < |calls|
  {
    [if started then CutOff(calls[i], output) else Unstarted(calls[i], CANCELLED_NOT_EXECUTED_TEXT)]
    + AllUnstarted(calls, i + 1, CANCELLED_NOT_EXECUTED_TEXT)
  }

  /** Those of the calls still open, and the bookend. */
  function Closing(c: Conv, started: bool): (ps: seq<Payload>) {
    (if c.assistantCommitted && c.toolIndex < |CurrentCalls(c)|
     then Answers(CurrentCalls(c), c.toolIndex, started, c.toolOutput) else [])
    + [Bookend(INTERRUPTED_TURN_TEXT)]
  }

  /** The turn is over with this status, and these were its last records. */
  predicate EndedWith(w: World, after: World, status: Status, ps: seq<Payload>) {
    Idle(after) && after.c.lastStatus == status && after.p.failed == w.p.failed && Did(w, after, ps)
  }

  lemma ResultDoes(w: World, i: nat, started: bool, text: bytes, outcome: ToolOutcome, raw: Option<bytes>)
    requires InRound(w, i, started) && Room(w, 1) && |text| <= MAX_CONTENT && ResultFits(outcome, raw, started)
    ensures
      var call := CurrentCalls(w.c)[i];
      Did(w, Commit(w, ToolResult(call.id, text), outcome, raw, false).0,
          [MessageRecord(HistoryMessage(
             ToolResult(call.id, text), Normal,
             if outcome.ToolUnknown? then OutcomeUnknown else if started then Completed else NotExecuted, None, raw))])
  {
    ResultTaken(w, i, started, text, outcome, raw);
    hide InRound, Commit, Did;
    CommitDoes(w, ToolResult(CurrentCalls(w.c)[i].id, text), outcome, raw, false);
  }

  lemma {:induction false} RepairFromDoes(w: World, calls: seq<ToolCall>, i: nat, started: bool)
    requires i < |calls| && InRound(w, i, started) && Room(w, |calls| - i) && calls == CurrentCalls(w.c)
    ensures Did(w, RepairFrom(w, calls, i, started).0, Answers(calls, i, started, w.c.toolOutput))
    decreases |calls| - i
  {
    var text := if started then CANCELLED_UNKNOWN_TEXT else CANCELLED_NOT_EXECUTED_TEXT;
    var outcome := if started then ToolUnknown else ToolNotExecuted;
    var raw := if started then Some(w.c.toolOutput) else None;
    ResultTaken(w, i, started, text, outcome, raw);
    ResultDoes(w, i, started, text, outcome, raw);
    var next := Commit(w, ToolResult(calls[i].id, text), outcome, raw, false).0;
    assert RepairFrom(w, calls, i, started).0 == RepairFrom(next, calls, i + 1, false).0;
    hide Commit, Did, InRound, ReplyDue;
    if i + 1 < |calls| {
      RepairFromDoes(next, calls, i + 1, false);
    } else {
      DidNothing(next, next);
    }
    DidBoth(w, next, RepairFrom(w, calls, i, started).0,
            [if started then CutOff(calls[i], w.c.toolOutput) else Unstarted(calls[i], CANCELLED_NOT_EXECUTED_TEXT)],
            AllUnstarted(calls, i + 1, CANCELLED_NOT_EXECUTED_TEXT));
  }

  lemma BookendDoes(w: World, text: bytes)
    requires ReplyDue(w) && Room(w, 1) && |text| <= MAX_CONTENT
    ensures Did(w, Commit(w, Assistant(text, []), ToolNone, None, true).0, [Bookend(text)])
  {
    BookendCloses(w, text);
    CommitDoes(w, Assistant(text, []), ToolNone, None, true);
  }

  lemma OpenRoundDoes(w: World, started: bool)
    requires Closable(w, started) && w.c.assistantCommitted && w.c.toolIndex < |CurrentCalls(w.c)|
    ensures Did(w, CloseOutIncompleteTurn(w, started).0, Closing(w.c, started))
  {
    var calls, i := CurrentCalls(w.c), w.c.toolIndex;
    var answered := RepairFromAnswers(w, calls, i, started);
    var cleared := answered.(c := answered.c.(toolOutput := []));
    RepairFromDoes(w, calls, i, started);
    BookendDoes(cleared, INTERRUPTED_TURN_TEXT);
    assert Did(w, cleared, Answers(calls, i, started, w.c.toolOutput));
    assert CloseOutIncompleteTurn(w, started).0 == RepairInterruptedTurn(cleared).0;
    hide Did, Commit, InRound, RepairFrom, Answers, CurrentCalls;
    DidBoth(w, cleared, RepairInterruptedTurn(cleared).0,
            Answers(calls, i, started, w.c.toolOutput), [Bookend(INTERRUPTED_TURN_TEXT)]);
  }

  lemma CloseOutDoes(w: World, started: bool)
    requires Closable(w, started)
    ensures Did(w, CloseOutIncompleteTurn(w, started).0, Closing(w.c, started))
  {
    hide Did;
    if w.c.assistantCommitted && w.c.toolIndex < |CurrentCalls(w.c)| {
      OpenRoundDoes(w, started);
    } else {
      BookendDoes(w, INTERRUPTED_TURN_TEXT);
      assert [] + [Bookend(INTERRUPTED_TURN_TEXT)] == [Bookend(INTERRUPTED_TURN_TEXT)];
    }
  }

  /** A turn that is ended early: its open calls are answered, its reply is the bookend, its status the given one. */
  lemma RepairDoes(w: World, status: Status, started: bool)
    requires Closable(w, started)
    ensures EndedWith(w, FinishWithRepair(w, status, started), status, Closing(w.c, started))
  {
    RepairCloses(w, status, started);
    CloseOutShuts(w, started);
    CloseOutDoes(w, started);
    hide CloseOutIncompleteTurn, Numbered, AppendAll, Spoken, Closing, Closable;
  }

  /** An ending behind records already written in the turn. */
  lemma EndedBehind(a: World, b: World, c: World, status: Status, ps: seq<Payload>, qs: seq<Payload>)
    requires Did(a, b, ps) && EndedWith(b, c, status, qs)
    requires b.p.turnId == a.p.turnId && b.p.failed == a.p.failed
    ensures EndedWith(a, c, status, ps + qs)
  {
    hide Did, Idle;
    DidBoth(a, b, c, ps, qs);
  }

  // ----- a steered end -----

  lemma {:induction false} SkipDoes(w: World, calls: seq<ToolCall>, i: nat)
    requires i < |calls| && InRound(w, i, false) && Room(w, |calls| - i) && calls == CurrentCalls(w.c)
    ensures Did(w, SkipSteeredFrom(w, calls, i).0, AllUnstarted(calls, i, STEERED_NOT_EXECUTED_TEXT))
    decreases |calls| - i
  {
    var text := STEERED_NOT_EXECUTED_TEXT;
    ResultTaken(w, i, false, text, ToolNotExecuted, None);
    ResultDoes(w, i, false, text, ToolNotExecuted, None);
    var next := Commit(w, ToolResult(calls[i].id, text), ToolNotExecuted, None, false).0;
    assert SkipSteeredFrom(w, calls, i).0 == SkipSteeredFrom(next, calls, i + 1).0;
    hide Commit, Did, InRound, ReplyDue;
    if i + 1 < |calls| {
      SkipDoes(next, calls, i + 1);
    } else {
      DidNothing(next, next);
    }
    DidBoth(w, next, SkipSteeredFrom(w, calls, i).0, [Unstarted(calls[i], text)], AllUnstarted(calls, i + 1, text));
  }

  /** A steered turn: the calls not yet run are skipped, and it ends as a success. */
  lemma SteeredDoes(w: World)
    requires NothingInFlight(w.c) && Room(w, |CurrentCalls(w.c)| + 1)
    requires (ReplyDue(w) && w.c.toolIndex >= |CurrentCalls(w.c)|) || InRound(w, w.c.toolIndex, false)
    ensures
      EndedWith(w, FinishSteered(w), OK,
                AllUnstarted(CurrentCalls(w.c), w.c.toolIndex, STEERED_NOT_EXECUTED_TEXT)
                + [Bookend(STEERED_TURN_TEXT)])
  {
    SteeredCloses(w);
    var calls, i := CurrentCalls(w.c), w.c.toolIndex;
    var skipped := w;
    if i < |calls| {
      skipped := SkipSteeredAnswers(w, calls, i);
      SkipDoes(w, calls, i);
    } else {
      DidNothing(w, w);
    }
    BookendDoes(skipped, STEERED_TURN_TEXT);
    BookendCloses(skipped, STEERED_TURN_TEXT);
    hide Did, Commit, InRound, Idle, SkipSteeredFrom, CurrentCalls;
    var closed := CloseOutSteeredTurn(skipped).0;
    DidBoth(w, skipped, closed, AllUnstarted(calls, i, STEERED_NOT_EXECUTED_TEXT), [Bookend(STEERED_TURN_TEXT)]);
    FinishDoes(w, closed, OK, AllUnstarted(calls, i, STEERED_NOT_EXECUTED_TEXT) + [Bookend(STEERED_TURN_TEXT)]);
  }

  lemma FinishDoes(w: World, closed: World, status: Status, ps: seq<Payload>)
    requires Did(w, closed, ps)
    ensures Did(w, FinishTurn(closed, status), ps)
  {
  }
}
