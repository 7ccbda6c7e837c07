/** What streams in is what is kept: replies and tool output are their deltas put together, over whole runs. */
module Streaming {
  import opened Basics
  import opened Messages
  import opened History
  import opened ReplayLog
  import opened Conversation
  import opened Simulation
  import opened TurnClosure
  import opened TurnDecisions
  import opened TurnEffects
  import opened TurnLaws
  import opened TurnOutcomes
  import opened TurnSteps

  /** The text of the reply under way, its calls by index, and the output of the tool under way. */
  datatype Heard = Heard(text: bytes, calls: map<nat, ToolCall>, output: bytes)

  const SILENCE: Heard := Heard([], map[], [])

  function CallSoFar(calls: map<nat, ToolCall>, index: nat): (call: ToolCall) {
    if index in calls then calls[index] else ToolCall([], [], [])
  }

  function Longer(call: ToolCall, id: bytes, name: bytes, arguments: bytes): (longer: ToolCall) {
    ToolCall(call.id + id, call.name + name, call.arguments + arguments)
  }

  /** One event more: deltas are put behind what came before, while what they belong to is under way. */
  function Hear(w: World, h: Heard, e: Event): (heard: Heard) {
    Heard(
      if !w.c.request then [] else if e.TextEvent? then h.text + e.data else h.text,
      if !w.c.request then map[]
      else if e.CallDeltaEvent? then
        h.calls[e.index := Longer(CallSoFar(h.calls, e.index), e.id, e.name, e.arguments)]
      else h.calls,
      if !w.c.tool || e.ToolDoneEvent? then [] else if e.ToolOutputEvent? then h.output + e.data else h.output)
  }

  function HeardOver(w: World, h: Heard, es: seq<Event>): (heard: Heard)
    decreases es
  {
    if es == [] then h else HeardOver(Step(w, es[0]), Hear(w, h, es[0]), es[1..])
  }

  function CallOf(s: Streamed): (call: ToolCall) {
    ToolCall(s.id, s.name, s.arguments)
  }

  /** The list of streamed calls holds this map, one entry per index. */
  predicate Mirrors(streamed: seq<Streamed>, calls: map<nat, ToolCall>) {
    && (forall i :: 0 <= i < |streamed| ==>
          streamed[i].index in calls && calls[streamed[i].index] == CallOf(streamed[i]))
    && (forall k :: k in calls ==> exists i :: 0 <= i < |streamed| && streamed[i].index == k)
    && forall i, j :: 0 <= i < j < |streamed| ==> streamed[i].index != streamed[j].index
  }

  /** The buffers of a turn hold what was heard; those of nothing under way are empty. */
  predicate Keeps(c: Conv, h: Heard) {
    c.busy ==>
      && (if c.request then c.assistant == h.text && Mirrors(c.streamed, h.calls)
          else c.assistant == [] && c.streamed == [])
      && c.toolOutput == if c.tool then h.output else []
  }

  // ----- one call delta -----

  lemma {:induction false} FindSays(streamed: seq<Streamed>, index: nat)
    ensures
      var i := FindStreamed(streamed, index);
      && i <= |streamed| && (i < |streamed| ==> streamed[i].index == index)
      && forall k :: 0 <= k < i ==> streamed[k].index != index
    decreases streamed
  {
    if streamed != [] && streamed[0].index != index {
      FindSays(streamed[1..], index);
      assert forall k :: 0 < k < |streamed| ==> streamed[k] == streamed[1..][k - 1];
    }
  }

  /** The fields of one call have room for these fragments. */
  predicate Fits(call: ToolCall, id: bytes, name: bytes, arguments: bytes) {
    && |call.id| + |id| <= MAX_CONTENT
    && |call.name| + |name| <= MAX_CONTENT
    && |call.arguments| + |arguments| <= MAX_CONTENT
  }

  lemma ExtendSays(s: Streamed, id: bytes, name: bytes, arguments: bytes)
    ensures
      var (longer, fits) := Extend(s, id, name, arguments);
      && (|s.id| <= MAX_CONTENT && |s.arguments| <= MAX_CONTENT ==>
            |longer.id| <= MAX_CONTENT && |longer.arguments| <= MAX_CONTENT)
      && fits == Fits(CallOf(s), id, name, arguments)
      && longer.index == s.index
      && (fits ==> CallOf(longer) == Longer(CallOf(s), id, name, arguments))
  {
  }

  lemma NewMirrors(streamed: seq<Streamed>, calls: map<nat, ToolCall>, index: nat)
    requires Mirrors(streamed, calls)
    ensures
      var more := WithStreamed(streamed, index);
      var i := FindStreamed(more, index);
      && i < |more| && more[i].index == index && CallOf(more[i]) == CallSoFar(calls, index)
      && Mirrors(more, calls[index := CallSoFar(calls, index)])
  {
    var more := WithStreamed(streamed, index);
    FindSays(streamed, index);
    FindSays(more, index);
    var i := FindStreamed(streamed, index);
    if i < |streamed| {
      assert more == streamed;
    } else {
      assert more[|streamed|].index == index;
      assert index !in calls;
      var longer := calls[index := CallSoFar(calls, index)];
      forall k | k in longer ensures exists j :: 0 <= j < |more| && more[j].index == k {
        if k == index {
          assert more[|streamed|].index == k;
        } else {
          var j :| 0 <= j < |streamed| && streamed[j].index == k;
          assert more[j].index == k;
        }
      }
    }
  }

  lemma UpdateMirrors(streamed: seq<Streamed>, calls: map<nat, ToolCall>, i: nat, s: Streamed)
    requires Mirrors(streamed, calls) && i < |streamed| && s.index == streamed[i].index
    ensures Mirrors(streamed[i := s], calls[s.index := CallOf(s)])
  {
    var after, longer := streamed[i := s], calls[s.index := CallOf(s)];
    forall k | k in longer ensures exists j :: 0 <= j < |after| && after[j].index == k {
      if k == s.index {
        assert after[i].index == k;
      } else {
        var j :| 0 <= j < |streamed| && streamed[j].index == k;
        assert after[j].index == k;
      }
    }
  }

  /** The list of streamed calls after one fragment. */
  lemma FragmentKept(
    streamed: seq<Streamed>, calls: map<nat, ToolCall>, index: nat, id: bytes, name: bytes, arguments: bytes)
    returns (kept: seq<Streamed>)
    requires Mirrors(streamed, calls) && StreamedFit(streamed)
    ensures
      var more := WithStreamed(streamed, index);
      var i := FindStreamed(more, index);
      && i < |more| && kept == more[i := Extend(more[i], id, name, arguments).0] && StreamedFit(kept)
      && Extend(more[i], id, name, arguments).1 == Fits(CallSoFar(calls, index), id, name, arguments)
    ensures
      var prior := CallSoFar(calls, index);
      Fits(prior, id, name, arguments) ==> Mirrors(kept, calls[index := Longer(prior, id, name, arguments)])
  {
    NewMirrors(streamed, calls, index);
    var more, prior := WithStreamed(streamed, index), CallSoFar(calls, index);
    var i := FindStreamed(more, index);
    assert StreamedFit(more);
    ExtendSays(more[i], id, name, arguments);
    var (longer, fits) := Extend(more[i], id, name, arguments);
    kept := more[i := longer];
    hide FindStreamed, WithStreamed, Extend, Mirrors;
    if fits {
      UpdateMirrors(more, calls[index := prior], i, longer);
      assert calls[index := prior][index := Longer(prior, id, name, arguments)]
          == calls[index := Longer(prior, id, name, arguments)];
    }
  }

  /** A fragment joins the call of its index, or interrupts the turn if a field grows too long. */
  lemma DeltaDoes(w: World, calls: map<nat, ToolCall>, index: nat, id: bytes, name: bytes, arguments: bytes)
    requires Running(w) && w.c.request && Roomy(w) && Mirrors(w.c.streamed, calls)
    ensures
      var after, prior := OnCallDelta(w, index, id, name, arguments), CallSoFar(calls, index);
      if Fits(prior, id, name, arguments) then
        && after == w.(c := w.c.(streamed := after.c.streamed))
        && Mirrors(after.c.streamed, calls[index := Longer(prior, id, name, arguments)])
      else EndedWith(w, after, NOMEM, [Bookend(INTERRUPTED_TURN_TEXT)])
  {
    assert StreamedFit(w.c.streamed);
    hide FindStreamed, WithStreamed, Extend, FinishWithRepair, Mirrors, EndedWith, Running, Roomy, Fits, StreamedFit;
    var kept := FragmentKept(w.c.streamed, calls, index, id, name, arguments);
    if !Fits(CallSoFar(calls, index), id, name, arguments) { DeltaInterrupts(w, w.(c := w.c.(streamed := kept))); }
  }

  lemma DeltaInterrupts(w: World, kept: World)
    requires Running(w) && w.c.request && Roomy(w)
    requires kept == w.(c := w.c.(streamed := kept.c.streamed)) && StreamedFit(kept.c.streamed)
    ensures
      EndedWith(w, FinishWithRepair(kept.(c := kept.c.(request := false)), NOMEM, false), NOMEM,
                [Bookend(INTERRUPTED_TURN_TEXT)])
  {
    hide FinishWithRepair, EndedWith;
    InterruptedDoes(w, kept.(c := kept.c.(request := false)), NOMEM);
  }

  // ----- one callback -----

  lemma NothingMirrored()
    ensures Mirrors([], map[])
  {
  }

  lemma IdleKeeps(w: World, after: World, h: Heard, e: Event)
    requires !after.c.busy
    ensures Keeps(after.c, Hear(w, h, e))
  {
    hide Mirrors;
  }

  lemma StreamHeard(w: World, h: Heard, e: Event)
    requires Running(w) && Roomy(w) && Keeps(w.c, h)
    requires e.TextEvent? || e.CallDeltaEvent? ==> w.c.request
    requires e.ToolOutputEvent? ==> w.c.tool
    requires e.TextEvent? || e.CallDeltaEvent? || e.ToolOutputEvent?
    ensures Keeps(Step(w, e).c, Hear(w, h, e))
  {
    assert w.c.busy && (w.c.request ==> !w.c.tool);
    hide OnText, OnCallDelta, OnToolOutput, Did, Running, Roomy, Mirrors, InStep;
    match e
    case TextEvent(data, shown) => TextDoes(w, data, shown);
    case CallDeltaEvent(index, id, name, arguments) => DeltaDoes(w, h.calls, index, id, name, arguments);
    case ToolOutputEvent(data, shown) => OutputDoes(w, data, shown);
  }

  /** Empty buffers stay empty when the loop's handle is set. */
  lemma GoingOnKeeps(c: Conv, env: Env, h: Heard)
    requires NothingInFlight(c) && c.assistant == [] && c.streamed == [] && c.toolOutput == []
    requires h.output == [] && (c.toolIndex >= |CurrentCalls(c)| ==> h.text == [] && h.calls == map[])
    ensures Keeps(GoingOn(c, env), h)
  {
    NothingMirrored();
    hide Mirrors, CurrentCalls;
  }

  lemma WentOnHeard(w: World, h: Heard, e: Event, after: World, ps: seq<Payload>, c: Conv, env: Env)
    requires WentOn(w, after, ps, c, env)
    requires NothingInFlight(c) && c.assistant == [] && c.streamed == [] && c.toolOutput == []
    requires
      var heard := Hear(w, h, e);
      heard.output == [] && (c.toolIndex >= |CurrentCalls(c)| ==> heard.text == [] && heard.calls == map[])
    ensures Keeps(after.c, Hear(w, h, e))
  {
    hide WentOn, GoingOn, LoopEnd, NothingInFlight, CurrentCalls, Hear, Keeps;
    WentOnLeaves(w, after, ps, c, env);
    GoingOnKeeps(c, env, Hear(w, h, e));
    if !after.c.busy { IdleKeeps(w, after, h, e); }
  }

  lemma CompletedHeard(w: World, h: Heard, env: Env)
    requires Running(w) && w.c.request && Roomy(w) && env.starting.Quiet? && Keeps(w.c, h)
    ensures Keeps(Step(w, CompletedEvent(env)).c, Hear(w, h, CompletedEvent(env)))
  {
    assert w.c.busy && !w.c.tool && !w.c.pendingPermission;
    StepsTo(w, 0, 0, env);
    hide Step, OnCompleted, Did, Running, Roomy, Mirrors, InStep, BuildAssistant, WentOn, CurrentCalls, Interrupted;
    CompletedDoes(w, env);
    var built := BuildAssistant(w.c);
    if built.Some? {
      BehindReplySays(w.c, built.value);
      if built.value.calls != [] && ReplyGood(built.value, env) {
        WentOnHeard(w, h, CompletedEvent(env), OnCompleted(w, env), [Reply(w.c.model, built.value)],
                    BehindReply(w.c, built.value), env);
      }
    }
  }

  lemma ToolDoneHeard(w: World, h: Heard, kind: nat, code: int, env: Env)
    requires Running(w) && w.c.tool && Roomy(w) && env.starting.Quiet? && Keeps(w.c, h)
    ensures Keeps(Step(w, ToolDoneEvent(kind, code, env)).c, Hear(w, h, ToolDoneEvent(kind, code, env)))
  {
    RunningTool(w);
    StepsTo(w, kind, code, env);
    var after, call, text := OnToolDone(w, kind, code, env), CallInTurn(w.c), ToolText(w.c.toolOutput, kind, code);
    BehindResultSays(w.c, text);
    BehindEmpty(w.c, text, h);
    hide Step, OnToolDone, Running, Roomy, ToolText, CurrentCalls, EndedWith, WentOn, Interrupted, BehindResult, Keeps;
    ToolDoneDoes(w, kind, code, env);
    if |text| > MAX_CONTENT {
      EndedIdle(w, after, NOMEM, [CutOff(call, [])] + Interrupted(CurrentCalls(w.c), w.c.toolIndex + 1));
      IdleKeeps(w, after, h, ToolDoneEvent(kind, code, env));
    } else {
      WentOnHeard(w, h, ToolDoneEvent(kind, code, env), after, [Finished(call, text, w.c.toolOutput)],
                  BehindResult(w.c, text), env);
    }
  }

  lemma BehindEmpty(c: Conv, text: bytes, h: Heard)
    requires c.busy && !c.request && Keeps(c, h) && c.toolIndex < |CurrentCalls(c)|
    ensures
      var behind := BehindResult(c, text);
      behind.assistant == [] && behind.streamed == [] && behind.toolOutput == []
  {
  }

  lemma PermissionHeard(w: World, h: Heard, allow: bool, env: Env)
    requires Inv(w) && Roomy(w) && env.starting.Quiet? && Keeps(w.c, h)
    ensures Keeps(Step(w, PermissionEvent(allow, env)).c, Hear(w, h, PermissionEvent(allow, env)))
  {
    StepsToAnswer(w, allow, env);
    if w.c.busy && w.c.pendingPermission {
      assert Running(w) && !w.c.request && !w.c.tool;
      hide Step, ResolvePermission, Did, Running, Roomy, Mirrors, InStep, CurrentCalls, Interrupted;
      PermissionDoes(w, allow, env);
    } else {
      assert ResolvePermission(w, allow, env) == w;
      hide Mirrors;
    }
  }

  /** Callbacks that touch neither the buffers nor what is under way, or end the turn. */
  lemma QuietHeard(w: World, h: Heard, e: Event)
    requires Inv(w) && Roomy(w) && Enabled(w, e) && Keeps(w.c, h)
    requires
      || e.SteerEvent? || e.CancelEvent? || e.QueueEvent? || e.ResolveQueueEvent? || e.CompactEvent? || e.SettingEvent?
      || e.FailedEvent?
    ensures Keeps(Step(w, e).c, Hear(w, h, e))
  {
    hide PersistRecord, Append, AppendStatus, CloseOutIncompleteTurn, Mirrors, InStep, Detached;
  }

  lemma StartHeard(w: World, h: Heard, content: bytes, env: Env)
    requires Inv(w) && Roomy(w) && Enabled(w, StartEvent(content, env)) && Keeps(w.c, h)
    ensures Keeps(Step(w, StartEvent(content, env)).c, Hear(w, h, StartEvent(content, env)))
  {
    NothingMirrored();
    StartDoes(w, content, env);
    assert Step(w, StartEvent(content, env)) == Start(w, content, env) by { hide Start; }
    StartQuiet(w, content, env);
    hide Step, Start, Did, Mirrors, InStep, Roomy;
  }

  lemma StartQuiet(w: World, content: bytes, env: Env)
    requires !w.c.tool
    ensures !Start(w, content, env).c.tool
  {
    hide PersistRecord;
  }

  lemma StepHeard(w: World, h: Heard, e: Event)
    requires Inv(w) && Roomy(w) && Enabled(w, e) && Keeps(w.c, h)
    ensures Keeps(Step(w, e).c, Hear(w, h, e))
  {
    hide Step, Roomy, Keeps, InStep, InRound, ReplyDue;
    match e
    case StartEvent(content, env) => StartHeard(w, h, content, env);
    case TextEvent(_, _) => StreamHeard(w, h, e);
    case CallDeltaEvent(_, _, _, _) => StreamHeard(w, h, e);
    case ToolOutputEvent(_, _) => StreamHeard(w, h, e);
    case CompletedEvent(env) => CompletedHeard(w, h, env);
    case ToolDoneEvent(kind, code, env) => ToolDoneHeard(w, h, kind, code, env);
    case PermissionEvent(allow, env) => PermissionHeard(w, h, allow, env);
    case _ => QuietHeard(w, h, e);
  }

  /** Over every run the buffers hold exactly the deltas heard since what they belong to began. */
  lemma {:induction false} RunHeard(w: World, h: Heard, es: seq<Event>)
    requires Inv(w) && RunEnabled(w, es) && Keeps(w.c, h)
    ensures Inv(Run(w, es)) && Keeps(Run(w, es).c, HeardOver(w, h, es))
    decreases es
  {
    hide Step, Inv, Roomy, Enabled, Keeps, Hear;
    if es != [] {
      StepKeepsInv(w, es[0]);
      StepHeard(w, h, es[0]);
      RunHeard(Step(w, es[0]), Hear(w, h, es[0]), es[1..]);
    }
  }

  // ----- the reply -----

  predicate Rising(s: seq<Streamed>) {
    forall i, j :: 0 <= i < j < |s| ==> s[i].index < s[j].index
  }

  lemma {:induction false} InsertRises(s: Streamed, sorted: seq<Streamed>)
    requires Rising(sorted) && forall i :: 0 <= i < |sorted| ==> sorted[i].index != s.index
    ensures Rising(InsertByIndex(s, sorted))
    ensures forall x :: x in InsertByIndex(s, sorted) <==> x == s || x in sorted
  {
    if sorted != [] && s.index > sorted[0].index {
      InsertRises(s, sorted[1..]);
      assert sorted == [sorted[0]] + sorted[1..];
      var rest := InsertByIndex(s, sorted[1..]);
      forall j | 0 <= j < |rest| ensures sorted[0].index < rest[j].index {
        assert rest[j] in rest;
      }
    }
  }

  lemma {:induction false} SortRises(streamed: seq<Streamed>)
    requires forall i, j :: 0 <= i < j < |streamed| ==> streamed[i].index != streamed[j].index
    ensures Rising(SortByIndex(streamed))
    ensures forall x :: x in SortByIndex(streamed) <==> x in streamed
  {
    if streamed != [] {
      SortRises(streamed[1..]);
      var rest := SortByIndex(streamed[1..]);
      forall i | 0 <= i < |rest| ensures rest[i].index != streamed[0].index {
        assert rest[i] in streamed[1..];
      }
      InsertRises(streamed[0], rest);
      assert streamed == [streamed[0]] + streamed[1..];
    }
  }

  /** Mirrors of one map have the same entries. */
  lemma SortMirrors(streamed: seq<Streamed>, calls: map<nat, ToolCall>)
    requires Mirrors(streamed, calls)
    ensures Rising(SortByIndex(streamed)) && Mirrors(SortByIndex(streamed), calls)
  {
    SortRises(streamed);
    var sorted := SortByIndex(streamed);
    forall i | 0 <= i < |sorted| ensures sorted[i].index in calls && calls[sorted[i].index] == CallOf(sorted[i]) {
      assert sorted[i] in streamed;
    }
    forall k | k in calls ensures exists i :: 0 <= i < |sorted| && sorted[i].index == k {
      var j :| 0 <= j < |streamed| && streamed[j].index == k;
      assert streamed[j] in sorted;
    }
  }

  lemma {:induction false} MirrorsSize(streamed: seq<Streamed>, calls: map<nat, ToolCall>)
    requires Mirrors(streamed, calls)
    ensures |streamed| == |calls|
    decreases streamed
  {
    if streamed == [] {
      assert calls == map[];
    } else {
      var init, last := streamed[..|streamed| - 1], streamed[|streamed| - 1];
      var fewer := calls - {last.index};
      assert calls == fewer[last.index := CallOf(last)];
      forall k | k in fewer ensures exists i :: 0 <= i < |init| && init[i].index == k {
        var i :| 0 <= i < |streamed| && streamed[i].index == k;
        assert init[i].index == k;
      }
      MirrorsSize(init, fewer);
    }
  }

  /** Calls 0, 1, ... without a gap, each with an id, a name and arguments. */
  predicate Whole(calls: map<nat, ToolCall>) {
    forall k :: k in calls ==> k < |calls| && CallValid(calls[k])
  }

  lemma {:induction false} RisingAtLeast(s: seq<Streamed>, i: nat)
    requires Rising(s) && i < |s|
    ensures i <= s[i].index
  {
    if i > 0 { RisingAtLeast(s, i - 1); }
  }

  lemma {:induction false} RisingAtMost(s: seq<Streamed>, i: nat)
    requires Rising(s) && i < |s| && forall k :: 0 <= k < |s| ==> s[k].index < |s|
    ensures s[i].index <= i
    decreases |s| - i
  {
    if i + 1 < |s| { RisingAtMost(s, i + 1); }
  }

  lemma CompleteIffWhole(sorted: seq<Streamed>, calls: map<nat, ToolCall>)
    requires Rising(sorted) && Mirrors(sorted, calls)
    ensures |sorted| == |calls| && (CallsComplete(sorted) <==> Whole(calls))
    ensures Whole(calls) ==> forall i: nat :: i < |calls| ==> i in calls && calls[i] == CallOf(sorted[i])
  {
    MirrorsSize(sorted, calls);
    if Whole(calls) {
      assert forall k :: 0 <= k < |sorted| ==> sorted[k].index in calls;
      forall i: nat | i < |sorted|
        ensures sorted[i].index == i && i in calls && calls[i] == CallOf(sorted[i]) && CallValid(calls[i])
      {
        RisingAtLeast(sorted, i);
        RisingAtMost(sorted, i);
        assert sorted[i].index in calls;
      }
    }
  }

  /** The message a complete response makes of what was heard: None if its calls are not all there. */
  function ReplyOf(h: Heard): (reply: Option<Message>) {
    if !Whole(h.calls) then None
    else Some(Assistant(h.text, seq(|h.calls|, k requires 0 <= k < |h.calls| => CallSoFar(h.calls, k))))
  }

  lemma BuildSays(c: Conv, h: Heard)
    requires c.assistant == h.text && Mirrors(c.streamed, h.calls)
    ensures BuildAssistant(c) == ReplyOf(h)
  {
    SortMirrors(c.streamed, h.calls);
    var sorted := SortByIndex(c.streamed);
    CompleteIffWhole(sorted, h.calls);
    if Whole(h.calls) {
      assert ToCalls(sorted) == ReplyOf(h).value.calls;
    }
  }

  /** A reply is its deltas: the text and the calls heard since its request went out. */
  lemma ReplyIsHeard(w: World, h: Heard, es: seq<Event>, env: Env)
    requires Inv(w) && Keeps(w.c, h) && RunEnabled(w, es)
    requires Roomy(Run(w, es)) && Enabled(Run(w, es), CompletedEvent(env))
    ensures
      var before := Run(w, es);
      ReplyOutcome(before, Step(before, CompletedEvent(env)), ReplyOf(HeardOver(w, h, es)), env)
  {
    RunHeard(w, h, es);
    var before := Run(w, es);
    assert Running(before);
    hide Run, HeardOver, Roomy, Running, Mirrors, ReplyOutcome, BuildAssistant, ReplyOf;
    StepsTo(before, 0, 0, env);
    hide Step;
    BuildSays(before.c, HeardOver(w, h, es));
    CompletedDoes(before, env);
  }

  /** A result is its output: what the tool put out since it was started, made well-formed, and how it ended. */
  lemma ResultIsHeard(w: World, h: Heard, es: seq<Event>, kind: nat, code: int, env: Env)
    requires Inv(w) && Keeps(w.c, h) && RunEnabled(w, es)
    requires Roomy(Run(w, es)) && Enabled(Run(w, es), ToolDoneEvent(kind, code, env))
    ensures
      var before, output := Run(w, es), HeardOver(w, h, es).output;
      var after, text := Step(before, ToolDoneEvent(kind, code, env)), ToolText(output, kind, code);
      && before.c.toolIndex < |CurrentCalls(before.c)|
      && if |text| > MAX_CONTENT then after.c.lastStatus == NOMEM && !after.c.busy
         else WentOn(before, after, [Finished(CallInTurn(before.c), text, output)], BehindResult(before.c, text), env)
  {
    RunHeard(w, h, es);
    var before := Run(w, es);
    assert Running(before);
    RunningTool(before);
    hide Run, HeardOver, Roomy, Running, Mirrors, WentOn, ToolText, CurrentCalls, BehindResult, Interrupted;
    StepsTo(before, kind, code, env);
    hide Step;
    ToolDoneDoes(before, kind, code, env);
  }
}
