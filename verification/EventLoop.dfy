/** The callbacks as the program's event loop delivers them, one object driven through a whole run. */
module EventLoop {
  import opened Conversation
  import opened ConversationObject
  import TurnClosure
  import TurnSteps

  lemma CallInTurn(w: World)
    requires TurnSteps.Inv(w)
    ensures w.c.busy && (w.c.tool || w.c.pendingPermission) ==> w.c.toolIndex < |CurrentCalls(w.c)|
    ensures w.c.pendingPermission ==> w.c.busy
  {
  }

  /** One callback: the object moves as the specification does, and the invariant holds again behind it. */
  method Handle(session: Session, e: Event)
    requires TurnSteps.Inv(session.Whole()) && TurnSteps.Roomy(session.Whole())
    requires TurnClosure.Enabled(session.Whole(), e)
    modifies session, session.sink
    ensures session.Whole() == Step(old(session.Whole()), e) && TurnSteps.Inv(session.Whole())
    ensures session.sink.failed == (old(session.sink.failed) || TurnClosure.Refused(old(session.Whole()), e))
  {
    TurnClosure.StepKeepsInv(session.Whole(), e);
    CallInTurn(session.Whole());
    ghost var before := session.Whole();
    Deliver(session, e);
    assert session.Whole() == Step(before, e);
  }

  /** The callback of each event. */
  method Deliver(session: Session, e: Event)
    requires e.ToolDoneEvent? ==> session.toolIndex < |CurrentCalls(session.View())|
    requires e.PermissionEvent? && session.pendingPermission ==> session.toolIndex < |CurrentCalls(session.View())|
    modifies session, session.sink
    ensures session.Whole() == Step(old(session.Whole()), e)
  {
    hide Start, OnText, OnCallDelta, OnCompleted, OnFailed, OnToolOutput, OnToolDone, ResolvePermission, Cancel;
    hide QueueInput, ResolveQueue, Compact, ChangeSetting, CurrentCalls;
    match e
    case StartEvent(content, env) => session.StartTurn(content, env);
    case TextEvent(data, shown) => session.HandleText(data, shown);
    case CallDeltaEvent(index, id, name, arguments) => session.HandleCallDelta(index, id, name, arguments);
    case CompletedEvent(env) => session.HandleCompleted(env);
    case FailedEvent(status, errorShown) => session.HandleFailed(status, errorShown);
    case ToolOutputEvent(data, shown) => session.HandleToolOutput(data, shown);
    case ToolDoneEvent(kind, code, env) => session.HandleToolDone(kind, code, env);
    case PermissionEvent(allow, env) =>
      var status := session.HandlePermission(allow, env);
    case SteerEvent => session.SteerTurn();
    case CancelEvent => session.CancelTurn();
    case QueueEvent(content) => session.Queue(content);
    case ResolveQueueEvent(consumed) => session.Resolve(consumed);
    case CompactEvent(prefix, summary, model) => session.CompactPrefix(prefix, summary, model);
    case SettingEvent(field, value) =>
      var status := session.Change(field, value);
  }

  /** The loop itself: after any run the object is where the specification says, with the invariant holding. */
  method Drive(session: Session, es: seq<Event>)
    requires TurnSteps.Inv(session.Whole()) && TurnClosure.RunEnabled(session.Whole(), es)
    modifies session, session.sink
    ensures session.Whole() == Run(old(session.Whole()), es) && TurnSteps.Inv(session.Whole())
    ensures session.sink.failed == (old(session.sink.failed) || TurnClosure.RunRefuses(old(session.Whole()), es))
  {
    hide TurnSteps.Inv, TurnSteps.Roomy, TurnClosure.Enabled, TurnClosure.Refused, Step;
    ghost var start := session.Whole();
    var i := 0;
    assert es[0..] == es;
    while i < |es|
      invariant i <= |es|
      invariant TurnSteps.Inv(session.Whole()) && TurnClosure.RunEnabled(session.Whole(), es[i..])
      invariant Run(session.Whole(), es[i..]) == Run(start, es)
      invariant
        (session.sink.failed || TurnClosure.RunRefuses(session.Whole(), es[i..]))
        == (old(session.sink.failed) || TurnClosure.RunRefuses(start, es))
    {
      assert es[i..][1..] == es[i + 1..];
      Handle(session, es[i]);
      i := i + 1;
    }
  }
}
