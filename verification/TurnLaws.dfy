/** The laws of the turn: when a process runs, when permission is asked for, when the model is asked again. */
module TurnLaws {
  import opened Basics
  import opened Messages
  import opened History
  import opened ReplayLog
  import opened Conversation
  import opened Simulation
  import opened TurnDecisions
  import opened TurnEffects
  import opened TurnOutcomes
  import opened TurnSteps
  import Decimal
  import JsonArena
  import TurnBounds
  import Utf8
  import Utf8Stream
  import Replay

  /** The call in turn can be put to the policy: nobody steers, its arguments are good, the registry knows it. */
  predicate CallReady(c: Conv, env: Env) {
    && !c.steering && c.toolIndex < |CurrentCalls(c)|
    && JsonArena.ArgumentsStatus(CurrentCalls(c)[c.toolIndex].arguments, TURN_ARENA) == OK
    && env.toolStart == OK
  }

  /** Its process runs: the policy allows it outright and the process can be set up. */
  predicate RunsNow(c: Conv, env: Env) {
    CallReady(c, env) && env.decision.Allow? && env.resolve == OK && env.setup == OK
  }

  /** The user is asked: the policy leaves it to him, the question is shown and not answered by a cancel. */
  predicate AsksNow(c: Conv, env: Env) {
    CallReady(c, env) && env.decision.Ask? && env.awaitingShown && !env.awaitingCancels
  }

  /** The model is asked again: every call has its result, and the step limit and the client allow it. */
  predicate RequestsNow(c: Conv, env: Env) {
    && !c.steering && c.toolIndex >= |CurrentCalls(c)|
    && c.modelSteps < c.maxModelSteps && env.requestStart == OK
  }

  /** A denied call, the calls behind it, and the bookend: messages all of them, so nothing was started. */
  function Denial(calls: seq<ToolCall>, i: nat): (ps: seq<Payload>)
    requires i < |calls|
  {
    [Unstarted(calls[i], DENIED_TEXT)] + AllUnstarted(calls, i + 1, CANCELLED_NOT_EXECUTED_TEXT)
    + [Bookend(INTERRUPTED_TURN_TEXT)]
  }

  /** The calls a steer leaves out, and its bookend. */
  function Skipped(calls: seq<ToolCall>, i: nat): (ps: seq<Payload>) {
    AllUnstarted(calls, i, STEERED_NOT_EXECUTED_TEXT) + [Bookend(STEERED_TURN_TEXT)]
  }

  /**
   * What the tool loop must leave behind `ps`, from `c` on: exactly one handle, for exactly one reason, or a turn
   * that is over with the status of what went wrong.
   */
  predicate LoopLaw(w: World, after: World, ps: seq<Payload>, c: Conv, env: Env) {
    var calls, i := CurrentCalls(c), c.toolIndex;
    && (after.c.tool <==> RunsNow(c, env))
    && (after.c.pendingPermission <==> AsksNow(c, env))
    && (after.c.request <==> RequestsNow(c, env))
    && (after.c.busy <==> RunsNow(c, env) || AsksNow(c, env) || RequestsNow(c, env))
    && (RunsNow(c, env) ==> Did(w, after, ps + [ToolStarted(calls[i].id)]))
    && (AsksNow(c, env) || RequestsNow(c, env) ==> Did(w, after, ps))
    && (RequestsNow(c, env) ==> after.c.modelSteps == c.modelSteps + 1)
    && (CallReady(c, env) && env.decision.Deny? ==>
          after.c.lastStatus == DENIED && Did(w, after, ps + Denial(calls, i)))
    && (c.steering ==> after.c.lastStatus == OK && Did(w, after, ps + Skipped(calls, i)))
    && (!c.steering && i >= |calls| && c.modelSteps >= c.maxModelSteps ==> after.c.lastStatus == INVAL)
    && (!c.steering && i >= |calls| && c.modelSteps < c.maxModelSteps && env.requestStart != OK ==>
          after.c.lastStatus == env.requestStart)
    && (!after.c.busy ==> (after.c.lastStatus == OK <==> c.steering))
  }

  lemma WentOnLaw(w: World, after: World, ps: seq<Payload>, c: Conv, env: Env)
    requires WentOn(w, after, ps, c, env) && NothingInFlight(c) && c.busy
    ensures LoopLaw(w, after, ps, c, env)
  {
    hide Did, JsonArena.ArgumentsStatus, CurrentCalls, AllUnstarted, InStep;
    assert ps + [] == ps;
    if CallReady(c, env) {
      var calls, i := CurrentCalls(c), c.toolIndex;
      assert [Unstarted(calls[i], DENIED_TEXT)]
             + (AllUnstarted(calls, i + 1, CANCELLED_NOT_EXECUTED_TEXT) + [Bookend(INTERRUPTED_TURN_TEXT)])
          == Denial(calls, i);
    }
  }

  /** The tool loop itself. */
  lemma NextToolLaw(w: World, env: Env)
    requires RoundDone(w) || CallNext(w, false)
    requires Room(w, |CurrentCalls(w.c)| + 2) && env.starting.Quiet?
    ensures LoopLaw(w, StartNextTool(w, env), [], w.c, env)
  {
    LoopDoes(w, env);
    DidNothing(w, w);
    LoopBehind(w, w, StartNextTool(w, env), [], env);
    hide Did, WentOn, LoopLaw, LoopDid, StartNextTool, InStep;
    WentOnLaw(w, StartNextTool(w, env), [], w.c, env);
  }

  /** Behind a finished tool: its result is on record, and the law holds of the next call or the next round. */
  lemma ToolDoneLaw(w: World, kind: nat, code: int, env: Env)
    requires Running(w) && w.c.tool && Roomy(w) && env.starting.Quiet?
    requires |ToolText(w.c.toolOutput, kind, code)| <= MAX_CONTENT
    ensures
      var call, text := CallInTurn(w.c), ToolText(w.c.toolOutput, kind, code);
      && CurrentCalls(BehindResult(w.c, text)) == CurrentCalls(w.c)
      && LoopLaw(w, Step(w, ToolDoneEvent(kind, code, env)), [Finished(call, text, w.c.toolOutput)],
                 BehindResult(w.c, text), env)
  {
    RunningTool(w);
    StepsTo(w, kind, code, env);
    hide Step;
    BehindResultSays(w.c, ToolText(w.c.toolOutput, kind, code));
    hide WentOn, LoopLaw, OnToolDone, Running, Roomy, ToolText, CurrentCalls, EndedWith, BehindResult;
    ToolDoneDoes(w, kind, code, env);
    var text := ToolText(w.c.toolOutput, kind, code);
    WentOnLaw(w, Step(w, ToolDoneEvent(kind, code, env)), [Finished(CallInTurn(w.c), text, w.c.toolOutput)],
              BehindResult(w.c, text), env);
  }

  lemma StepsTo(w: World, kind: nat, code: int, env: Env)
    ensures Step(w, ToolDoneEvent(kind, code, env)) == OnToolDone(w, kind, code, env)
    ensures Step(w, CompletedEvent(env)) == OnCompleted(w, env)
  {
    hide OnToolDone, OnCompleted;
  }

  lemma RunningTool(w: World)
    requires Running(w) && w.c.tool
    ensures w.c.busy && !w.c.request && !w.c.pendingPermission && w.c.toolIndex < |CurrentCalls(w.c)|
  {
  }

  lemma BehindResultSays(c: Conv, text: bytes)
    requires c.toolIndex < |CurrentCalls(c)|
    ensures CurrentCalls(BehindResult(c, text)) == CurrentCalls(c)
    ensures !c.request && !c.pendingPermission ==> NothingInFlight(BehindResult(c, text))
    ensures BehindResult(c, text).busy == c.busy
  {
  }

  /** Who steers does not ask how a start would go. */
  lemma SteeredUndisturbed(w: World, kind: nat, code: int, env: Env)
    requires w.c.steering
    ensures OnToolDone(w, kind, code, env) == OnToolDone(w, kind, code, env.(starting := Quiet))
  {
    hide StartNextTool, FinishWithRepair, Commit, Utf8Stream.Normalized, ExitText;
    var text := Utf8Stream.Normalized(w.c.toolOutput) + ExitText(kind, code);
    if w.c.toolIndex < |CurrentCalls(w.c)| {
      var m, raw := ToolResult(CallInTurn(w.c).id, text), Some(w.c.toolOutput);
      var outcome := if kind == 0 && code == 0 then ToolCompleted else ToolFailed;
      var landed := w.(c := w.c.(tool := false));
      TurnBounds.CommitSteps(landed, m, outcome, raw, false);
      var said := Commit(landed, m, outcome, raw, false).0;
      SteeredAlike(said.(c := said.c.(toolOutput := [], toolIndex := said.c.toolIndex + 1)), env);
    }
  }

  lemma SteeredAlike(w: World, env: Env)
    requires w.c.steering
    ensures StartNextTool(w, env) == StartNextTool(w, env.(starting := Quiet))
  {
    hide FinishSteered;
  }

  lemma SteerStays(c: Conv, text: bytes)
    requires c.toolIndex < |CurrentCalls(c)|
    ensures
      var after := BehindResult(c, text);
      && after.steering == c.steering && after.toolIndex == c.toolIndex + 1
      && CurrentCalls(after) == CurrentCalls(c)
  {
  }

  lemma WentOnSteered(w: World, after: World, ps: seq<Payload>, c: Conv, env: Env)
    requires WentOn(w, after, ps, c, env) && c.steering
    ensures EndedWith(w, after, OK, ps + Skipped(CurrentCalls(c), c.toolIndex))
  {
    hide EndedWith, AllUnstarted, CurrentCalls;
  }

  lemma SteeredQuietly(w: World, kind: nat, code: int, env: Env)
    requires Running(w) && w.c.tool && Roomy(w) && w.c.steering && env.starting.Quiet?
    requires |ToolText(w.c.toolOutput, kind, code)| <= MAX_CONTENT
    ensures
      EndedWith(w, OnToolDone(w, kind, code, env), OK,
                [Finished(CallInTurn(w.c), ToolText(w.c.toolOutput, kind, code), w.c.toolOutput)]
                + Skipped(CurrentCalls(w.c), w.c.toolIndex + 1))
  {
    hide *;
    RunningTool(w);
    SteerStays(w.c, ToolText(w.c.toolOutput, kind, code));
    ToolDoneDoes(w, kind, code, env);
    var text := ToolText(w.c.toolOutput, kind, code);
    WentOnSteered(w, OnToolDone(w, kind, code, env), [Finished(CallInTurn(w.c), text, w.c.toolOutput)],
                  BehindResult(w.c, text), env);
  }

  /** The running tool of a steered turn: its result is kept, and the calls behind it are skipped. */
  lemma SteeredResult(w: World, kind: nat, code: int, env: Env)
    requires Running(w) && w.c.tool && Roomy(w) && w.c.steering
    requires |ToolText(w.c.toolOutput, kind, code)| <= MAX_CONTENT
    ensures
      EndedWith(w, OnToolDone(w, kind, code, env), OK,
                [Finished(CallInTurn(w.c), ToolText(w.c.toolOutput, kind, code), w.c.toolOutput)]
                + Skipped(CurrentCalls(w.c), w.c.toolIndex + 1))
  {
    hide *;
    SteeredUndisturbed(w, kind, code, env);
    SteeredQuietly(w, kind, code, env.(starting := Quiet));
  }

  /** A steer lets the running tool finish; the calls behind its result are skipped and the turn is a success. */
  lemma SteerLaw(w: World, kind: nat, code: int, env: Env)
    requires Running(w) && w.c.tool && Roomy(w)
    requires |ToolText(w.c.toolOutput, kind, code)| <= MAX_CONTENT
    ensures
      var steered := Step(w, SteerEvent);
      var after, text := Step(steered, ToolDoneEvent(kind, code, env)), ToolText(w.c.toolOutput, kind, code);
      && steered == w.(c := w.c.(steering := true))
      && Idle(after) && after.c.lastStatus == OK
      && Did(w, after, [Finished(CallInTurn(w.c), text, w.c.toolOutput)]
                       + Skipped(CurrentCalls(w.c), w.c.toolIndex + 1))
  {
    RunningTool(w);
    var steered := w.(c := w.c.(steering := true));
    assert Step(w, SteerEvent) == steered;
    SteerKeeps(w, steered);
    StepsTo(steered, kind, code, env);
    hide Step, OnToolDone, Running, Roomy, ToolText, CurrentCalls, Did, Idle, Skipped;
    SteeredResult(steered, kind, code, env);
    DidAlike(steered, OnToolDone(steered, kind, code, env), w, OnToolDone(steered, kind, code, env),
             [Finished(CallInTurn(w.c), ToolText(w.c.toolOutput, kind, code), w.c.toolOutput)]
             + Skipped(CurrentCalls(w.c), w.c.toolIndex + 1));
  }

  lemma SteerKeeps(w: World, steered: World)
    requires Running(w) && Roomy(w) && steered == w.(c := w.c.(steering := true))
    ensures Running(steered) && Roomy(steered) && CurrentCalls(steered.c) == CurrentCalls(w.c)
  {
  }

  /** A reply replay takes, shown: with calls the law holds of the first of them. */
  predicate ReplyGood(m: Message, env: Env) {
    m.Assistant? && Replay.CallsAcceptable(m.calls) && env.responseShown
  }

  lemma BehindReplySays(c: Conv, m: Message)
    requires m.Assistant?
    ensures CurrentCalls(BehindReply(c, m)) == m.calls && BehindReply(c, m).busy == c.busy
    ensures !c.tool && !c.pendingPermission ==> NothingInFlight(BehindReply(c, m))
  {
  }

  lemma NoCallsAcceptable()
    ensures Replay.CallsAcceptable([])
  {
  }

  /** Behind a completed response: the law for the first call, or a turn that is over. */
  lemma CompletedLaw(w: World, env: Env)
    requires Running(w) && w.c.request && Roomy(w) && env.starting.Quiet?
    ensures
      var after, built := Step(w, CompletedEvent(env)), BuildAssistant(w.c);
      if built.Some? && ReplyGood(built.value, env) && built.value.calls != [] then
        && CurrentCalls(BehindReply(w.c, built.value)) == built.value.calls
        && LoopLaw(w, after, [Reply(w.c.model, built.value)], BehindReply(w.c, built.value), env)
      else
        && Idle(after)
        && (after.c.lastStatus == OK <==> built.Some? && ReplyGood(built.value, env))
        && (after.c.lastStatus == OK ==> Did(w, after, [Reply(w.c.model, built.value)]))
  {
    StepsTo(w, 0, 0, env);
    hide Step, Did, LoopLaw, InRound, BuildAssistant, Replay.CallsAcceptable, OnCompleted, Roomy, ReplyDue, InStep;
    CompletedDoes(w, env);
    NoCallsAcceptable();
    if BuildAssistant(w.c).Some? && ReplyGood(BuildAssistant(w.c).value, env) && BuildAssistant(w.c).value.calls != [] {
      var m := BuildAssistant(w.c).value;
      assert w.c.busy && !w.c.tool && !w.c.pendingPermission;
      hide Running, WentOn, BehindReply, Replay.CallsStatus;
      BehindReplySays(w.c, m);
      WentOnLaw(w, OnCompleted(w, env), [Reply(w.c.model, m)], BehindReply(w.c, m), env);
    }
  }

  /** The answer to a permission: the process runs exactly when it is yes and the process can be set up. */
  lemma PermissionLaw(w: World, allow: bool, env: Env)
    requires Running(w) && w.c.pendingPermission && Roomy(w) && env.starting.Quiet?
    ensures
      var after, calls, i := Step(w, PermissionEvent(allow, env)), CurrentCalls(w.c), w.c.toolIndex;
      && i < |calls|
      && (after.c.tool <==> allow && env.resolve == OK && env.setup == OK)
      && after.c.busy == after.c.tool && !after.c.request && !after.c.pendingPermission
      && (after.c.tool ==> Did(w, after, [ToolStarted(calls[i].id)]))
      && (!allow ==> after.c.lastStatus == DENIED && Did(w, after, Denial(calls, i)))
  {
    StepsToAnswer(w, allow, env);
    hide Step, ResolvePermission, Did, InStep, InRound, CurrentCalls, AllUnstarted, Roomy;
    PermissionDoes(w, allow, env);
    var calls, i := CurrentCalls(w.c), w.c.toolIndex;
    assert [Unstarted(calls[i], DENIED_TEXT)]
           + (AllUnstarted(calls, i + 1, CANCELLED_NOT_EXECUTED_TEXT) + [Bookend(INTERRUPTED_TURN_TEXT)])
        == Denial(calls, i);
    var decided := w.(c := w.c.(pendingPermission := false));
    DecidedDid(w, decided, ResolvePermission(w, allow, env), [ToolStarted(calls[i].id)]);
    DecidedDid(w, decided, ResolvePermission(w, allow, env), Denial(calls, i));
  }

  lemma StepsToAnswer(w: World, allow: bool, env: Env)
    ensures Step(w, PermissionEvent(allow, env)) == ResolvePermission(w, allow, env)
  {
    hide ResolvePermission;
  }

  lemma DecidedDid(w: World, decided: World, after: World, ps: seq<Payload>)
    requires decided == w.(c := w.c.(pendingPermission := false))
    ensures Did(w, after, ps) <==> Did(decided, after, ps)
    ensures CurrentCalls(decided.c) == CurrentCalls(w.c)
  {
  }

  lemma FirstSaid(w: World, after: World, payload: Payload, rest: seq<Payload>)
    requires Did(w, after, [payload] + rest) && payload.MessageRecord?
    ensures
      var said := |w.c.messages|;
      && |after.c.messages| > said && after.c.messages[..said] == w.c.messages
      && after.c.messages[said] == payload.message.value
  {
    assert ([payload] + rest)[0] == payload;
    hide AppendAll, Numbered;
  }

  /** A finished tool's result is the next message, whatever comes behind it. */
  lemma ResultIsNext(w: World, kind: nat, code: int, env: Env)
    requires Running(w) && w.c.tool && Roomy(w) && env.starting.Quiet?
    requires |ToolText(w.c.toolOutput, kind, code)| <= MAX_CONTENT
    ensures
      var after, said := Step(w, ToolDoneEvent(kind, code, env)).c, |w.c.messages|;
      && |after.messages| > said && after.messages[..said] == w.c.messages
      && after.messages[said] == ToolResult(CallInTurn(w.c).id, ToolText(w.c.toolOutput, kind, code))
  {
    RunningTool(w);
    StepsTo(w, kind, code, env);
    hide Step, OnToolDone, Running, Roomy, ToolText, CurrentCalls, Did, LoopRecords, LoopEnd, BehindResult, Idle;
    ToolDoneDoes(w, kind, code, env);
    var text := ToolText(w.c.toolOutput, kind, code);
    FirstSaid(w, OnToolDone(w, kind, code, env), Finished(CallInTurn(w.c), text, w.c.toolOutput),
              LoopRecords(BehindResult(w.c, text), env));
  }

  lemma {:induction false} DigitsAscii(n: nat)
    ensures forall i :: 0 <= i < |Decimal.Digits(n)| ==> Decimal.Digits(n)[i] <= 0x7F
    decreases n
  {
    if n >= 10 { DigitsAscii(n / 10); }
  }

  predicate Plain(s: bytes) {
    forall i :: 0 <= i < |s| ==> s[i] <= 0x7F
  }

  lemma AsciiPlain(s: string)
    requires forall i :: 0 <= i < |s| ==> s[i] as int <= 0x7F
    ensures Plain(Ascii(s))
  {
  }

  lemma WordsPlain()
    ensures Plain(Ascii("\n[tool exit kind="))
    ensures Plain(Ascii(" code="))
    ensures Plain(Ascii("]\n")) && Plain(Ascii("-"))
  {
    hide *;
    AsciiPlain("\n[tool exit kind=");
    AsciiPlain(" code=");
    AsciiPlain("]\n");
    AsciiPlain("-");
  }

  lemma PlainJoins(a: bytes, b: bytes, c: bytes, d: bytes, e: bytes)
    requires Plain(a) && Plain(b) && Plain(c) && Plain(d) && Plain(e)
    ensures Plain(a + b + c + d + e)
  {
  }

  /**
   * The text is well-formed whatever the tool put out, and the output itself if that is and the tool ended well; a
   * tool that did not end well gets a line that says how behind it.
   */
  lemma ToolTextSays(output: bytes, kind: nat, code: int)
    ensures Utf8.WellFormed(ToolText(output, kind, code))
    ensures kind == 0 && code == 0 && Utf8.WellFormed(output) ==> ToolText(output, kind, code) == output
    ensures
      kind != 0 || code != 0 ==>
        ToolText(output, kind, code)
        == ToolText(output, 0, 0)
           + (Ascii("\n[tool exit kind=") + Decimal.Digits(kind) + Ascii(" code=") + Signed(code) + Ascii("]\n"))
  {
    hide Utf8.WellFormed, Utf8Stream.Normalized, Ascii;
    Utf8Stream.NormalizedWellFormed(output);
    var normal := Utf8Stream.Normalized(output);
    assert normal + [] == normal;
    if kind != 0 || code != 0 {
      WordsPlain();
      DigitsAscii(kind);
      DigitsAscii(if code < 0 then -code else code);
      var line := Ascii("\n[tool exit kind=") + Decimal.Digits(kind) + Ascii(" code=") + Signed(code) + Ascii("]\n");
      PlainJoins(Ascii("\n[tool exit kind="), Decimal.Digits(kind), Ascii(" code="), Signed(code), Ascii("]\n"));
      Utf8.AsciiWellFormed(line);
      hide Plain, Decimal.Digits;
      Utf8.WellFormedConcat(normal, line);
    }
  }
}
