/** A live run as its log on disk: every crash point recovers, and reloading gives exactly the live messages. */
module LiveLog {
  import opened Basics
  import opened Messages
  import opened History
  import opened CodecRoundTrip
  import opened Conversation
  import opened LiveRecords
  import opened ReplayLog
  import opened ReplayShape
  import opened Store
  import Codec
  import Replay
  import ReplayInvariants
  import Restart
  import Simulation
  import TurnClosure
  import TurnSteps

  // ----- the records of a run behind the history it started from -----

  lemma {:induction false} WrittenKeepsShape(log: Log, rs: seq<Record>)
    requires Sound(log) && WellShaped(log.b) && Written(log, rs) && AppendAll(log, rs).Some?
    ensures WellShaped(AppendAll(log, rs).value.b)
    decreases rs
  {
    hide Replay.Step, WellShaped, RepairWithCalls, CutsWell;
    if rs != [] {
      AppendKeepsSound(log, rs[0]);
      StepKeepsShape(log.b, rs[0]);
      WrittenKeepsShape(Append(log, rs[0]).value, rs[1..]);
    }
  }

  lemma HistoryExtends(legacy: seq<Message>, typed: seq<Record>, rs: seq<Record>)
    requires typed != [] && LogOf(legacy, typed).Some? && Written(LogOf(legacy, typed).value, rs)
    ensures LogOf(legacy, typed + rs) == AppendAll(LogOf(legacy, typed).value, rs)
    ensures LogOf(legacy, typed + rs).Some?
  {
    hide LogOf, Written;
    WrittenAppends(LogOf(legacy, typed).value, rs);
    ReplayMore(legacy, typed, rs);
  }

  lemma OneMoreCut(legacy: seq<Message>, typed: seq<Record>, r: Record)
    requires typed != [] && LogOf(legacy, typed).Some? && AllCutWell(legacy, typed)
    requires Append(LogOf(legacy, typed).value, r).Some? && CutsWell(LogOf(legacy, typed).value.b, r)
    ensures LogOf(legacy, typed + [r]) == Append(LogOf(legacy, typed).value, r)
    ensures AllCutWell(legacy, typed + [r])
  {
    hide Append, CutsWell;
    ReplayOneMore(legacy, typed, r);
    assert (typed + [r])[..|typed|] == typed;
  }

  lemma WrittenHead(log: Log, rs: seq<Record>)
    requires Written(log, rs) && rs != []
    ensures Append(log, rs[0]).Some? && CutsWell(log.b, rs[0]) && Written(Append(log, rs[0]).value, rs[1..])
  {
    hide Append, CutsWell;
  }

  lemma {:induction false} CutsExtend(legacy: seq<Message>, typed: seq<Record>, rs: seq<Record>)
    requires typed != [] && LogOf(legacy, typed).Some? && Written(LogOf(legacy, typed).value, rs)
    requires AllCutWell(legacy, typed)
    ensures LogOf(legacy, typed + rs).Some? && AllCutWell(legacy, typed + rs)
    decreases rs
  {
    hide LogOf, Append, Written, AllCutWell, CutsWell;
    if rs == [] {
      assert typed + rs == typed;
    } else {
      WrittenHead(LogOf(legacy, typed).value, rs);
      OneMoreCut(legacy, typed, rs[0]);
      CutsExtend(legacy, typed + [rs[0]], rs[1..]);
      assert typed + [rs[0]] + rs[1..] == typed + rs;
    }
  }

  lemma {:induction false} NoneUnreadable(log: Log, rs: seq<Record>, i: nat)
    requires Written(log, rs) && i < |rs|
    ensures !RepairWithCalls(rs[i])
    decreases rs
  {
    if i > 0 { NoneUnreadable(Append(log, rs[0]).value, rs[1..], i - 1); }
  }

  /**
   * The records of a run: behind the history the session was opened with they are an accepted history whose state is
   * the live log, none of them is one the codec cannot read back, and checkpoints go on cutting at turns.
   */
  lemma RunRecords(legacy: seq<Message>, typed: seq<Record>, w: World, es: seq<Event>) returns (rs: seq<Record>)
    requires TurnSteps.Inv(w) && TurnClosure.RunEnabled(w, es)
    requires typed != [] && LogOf(legacy, typed) == Some(w.p.log)
    ensures Written(w.p.log, rs)
    ensures AppendAll(w.p.log, rs) == Some(Run(w, es).p.log) == LogOf(legacy, typed + rs)
    ensures AllCutWell(legacy, typed) ==> AllCutWell(legacy, typed + rs)
    ensures forall i :: 0 <= i < |rs| ==> !RepairWithCalls(rs[i])
  {
    RunGrows(w, es);
    rs :| Written(w.p.log, rs) && AppendAll(w.p.log, rs) == Some(Run(w, es).p.log);
    HistoryExtends(legacy, typed, rs);
    if AllCutWell(legacy, typed) { CutsExtend(legacy, typed, rs); }
    forall i | 0 <= i < |rs| ensures !RepairWithCalls(rs[i]) { NoneUnreadable(w.p.log, rs, i); }
  }

  /** The context stays an optional summary, whole turns and the turn under way over every run. */
  lemma RunKeepsShape(w: World, es: seq<Event>)
    requires TurnSteps.Inv(w) && TurnClosure.RunEnabled(w, es) && WellShaped(w.p.log.b)
    ensures WellShaped(Run(w, es).p.log.b)
  {
    assert Simulation.InStep(w);
    RunGrows(w, es);
    var rs :| Written(w.p.log, rs) && AppendAll(w.p.log, rs) == Some(Run(w, es).p.log);
    hide Run, WellShaped, Written, AppendAll;
    WrittenKeepsShape(w.p.log, rs);
  }

  /** The live model and directory are those of the last setting record, old history and run taken together. */
  lemma LiveSettings(legacy: seq<Message>, typed: seq<Record>, w: World, es: seq<Event>) returns (rs: seq<Record>)
    requires TurnSteps.Inv(w) && TurnClosure.RunEnabled(w, es) && SettingsLive(w)
    requires typed != [] && LogOf(legacy, typed) == Some(w.p.log)
    ensures AppendAll(w.p.log, rs) == Some(Run(w, es).p.log) == LogOf(legacy, typed + rs)
    ensures Some(Run(w, es).c.model) == ReplayInvariants.LastSetting(typed + rs, ModelSetting)
    ensures Some(Run(w, es).p.cwd) == ReplayInvariants.LastSetting(typed + rs, CwdSetting)
  {
    rs := RunRecords(legacy, typed, w, es);
    RunKeepsSettings(w, es);
    ReplayInvariants.SettingsAreLast(legacy, typed + rs);
    hide Run, Written, TurnSteps.Inv, AppendAll, ReplayInvariants.LastSetting;
  }

  // ----- crashes -----

  /** The 64-bit ids leave room for what startup writes behind this history. */
  predicate RoomToRecover(legacy: seq<Message>, typed: seq<Record>) {
    match LogOf(legacy, typed)
    case None => false
    case Some(log) => |legacy| + |typed| + |Replay.UnresolvedTools(log.b.tools)| + 6 < U64_MAX
  }

  /** What a start is given: the model flag, the cached or configured model, the directory entered, the step limit. */
  datatype Startup = Startup(explicit: Option<bytes>, fallback: bytes, cwd: bytes, maxModelSteps: nat)

  predicate StartupOk(start: Startup) {
    && TurnClosure.SettingOk(start.fallback) && TurnClosure.SettingOk(start.cwd) && 0 < start.maxModelSteps
    && (start.explicit.Some? ==> TurnClosure.SettingOk(start.explicit.value))
  }

  /**
   * Startup extends this history to one a fresh session opens over with the joint invariant holding, its model the
   * one flag or history say and last recorded, and its context in shape if the checkpoints cut at turns.
   */
  ghost predicate Continues(legacy: seq<Message>, typed: seq<Record>, start: Startup)
    requires LogOf(legacy, typed).Some?
  {
    exists recovered ::
      && typed <= recovered && LogOf(legacy, recovered).Some?
      && var model := Restart.ResolvedModel(Replay.Fold(legacy, typed).value, start.explicit, start.fallback);
         var session := Restart.Reopened(LogOf(legacy, recovered).value, model, start.cwd, start.maxModelSteps);
         && TurnSteps.Inv(session) && SettingsLive(session)
         && (AllCutWell(legacy, typed) ==> WellShaped(LogOf(legacy, recovered).value.b))
  }

  /** A crash behind any record of any run, also in the middle of a callback, is recovered from. */
  lemma CrashThenContinue(
    legacy: seq<Message>, typed: seq<Record>, w: World, es: seq<Event>, start: Startup) returns (rs: seq<Record>)
    requires TurnSteps.Inv(w) && TurnClosure.RunEnabled(w, es) && StartupOk(start)
    requires typed != [] && LogOf(legacy, typed) == Some(w.p.log)
    ensures AppendAll(w.p.log, rs) == Some(Run(w, es).p.log)
    ensures
      forall k :: 0 <= k <= |rs| ==>
        && LogOf(legacy, typed + rs[..k]).Some?
        && (AllCutWell(legacy, typed) ==> AllCutWell(legacy, typed + rs[..k]))
        && (RoomToRecover(legacy, typed + rs[..k]) ==> Continues(legacy, typed + rs[..k], start))
  {
    assert Simulation.InStep(w);
    rs := RunRecords(legacy, typed, w, es);
    hide Run, Written, TurnSteps.Inv, AllCutWell, WellShaped, Continues, RoomToRecover, LogOf;
    forall k | 0 <= k <= |rs|
      ensures LogOf(legacy, typed + rs[..k]).Some?
      ensures AllCutWell(legacy, typed) ==> AllCutWell(legacy, typed + rs[..k])
      ensures RoomToRecover(legacy, typed + rs[..k]) ==> Continues(legacy, typed + rs[..k], start)
    {
      WrittenPrefix(w.p.log, rs, k);
      HistoryExtends(legacy, typed, rs[..k]);
      if AllCutWell(legacy, typed) { CutsExtend(legacy, typed, rs[..k]); }
      if RoomToRecover(legacy, typed + rs[..k]) { HistoryContinues(legacy, typed + rs[..k], start); }
    }
  }

  lemma HistoryContinues(legacy: seq<Message>, typed: seq<Record>, start: Startup)
    requires RoomToRecover(legacy, typed) && StartupOk(start)
    ensures LogOf(legacy, typed).Some? && Continues(legacy, typed, start)
  {
    hide TurnSteps.Inv, AllCutWell, WellShaped, SettingsLive;
    var recovered :=
      Restart.RecoveredContinues(legacy, typed, start.explicit, start.fallback, start.cwd, start.maxModelSteps);
  }

  // ----- the bytes on disk -----

  function Attempts(rs: seq<Record>): (result: seq<Attempt>) {
    seq(|rs|, i requires 0 <= i < |rs| => Attempt(rs[i], OK))
  }

  predicate LinesFit(rs: seq<Record>) {
    forall i :: 0 <= i < |rs| ==> Codec.Encoded(rs[i]).Some?
  }

  lemma {:induction false} WrittenLast(log: Log, rs: seq<Record>, r: Record)
    requires Written(log, rs + [r])
    ensures Written(log, rs) && AppendAll(log, rs).Some? && Append(AppendAll(log, rs).value, r).Some?
    ensures AppendAll(log, rs + [r]) == Append(AppendAll(log, rs).value, r)
    ensures !RepairWithCalls(r)
    decreases rs
  {
    hide CutsWell, RepairWithCalls, Append;
    if rs == [] {
      assert [] + [r] == [r] && [r][1..] == [];
    } else {
      assert (rs + [r])[1..] == rs[1..] + [r];
      WrittenLast(Append(log, rs[0]).value, rs[1..], r);
    }
  }

  lemma AttemptsLast(s: Contents, rs: seq<Record>, r: Record)
    ensures AfterAttempts(s, Attempts(rs + [r])) == Appended(AfterAttempts(s, Attempts(rs)), r, OK).0
    ensures LinesFit(rs + [r]) <==> LinesFit(rs) && Codec.Encoded(r).Some?
  {
    hide Appended, Codec.Encoded;
    var all := rs + [r];
    assert Attempts(all)[..|rs|] == Attempts(rs) && Attempts(all)[|rs|] == Attempt(r, OK);
    assert forall i :: 0 <= i < |rs| ==> all[i] == rs[i];
    assert all[|rs|] == r;
  }

  /** Appending a run's records to the store writes every one of them and keeps the store reloadable. */
  lemma {:induction false} StoreFollows(s: Contents, rs: seq<Record>)
    requires Reloads(s) && s.typed != [] && LogOf(s.legacy, s.typed).Some?
    requires Written(LogOf(s.legacy, s.typed).value, rs) && LinesFit(rs)
    ensures
      var after := AfterAttempts(s, Attempts(rs));
      && after.legacy == s.legacy && after.typed == s.typed + rs && Reloads(after)
      && LogOf(after.legacy, after.typed) == AppendAll(LogOf(s.legacy, s.typed).value, rs)
    decreases |rs|
  {
    hide Reloads, LogOf, Written, RepairWithCalls, ReplayLog.Append, Appended, Codec.Encoded, LinesFit;
    if rs == [] {
      assert s.typed + [] == s.typed;
    } else {
      var init, last := rs[..|rs| - 1], rs[|rs| - 1];
      assert rs == init + [last];
      WrittenLast(LogOf(s.legacy, s.typed).value, init, last);
      AttemptsLast(s, init, last);
      hide AppendAll, Attempts, AfterAttempts;
      StoreFollows(s, init);
      OneMoreLine(AfterAttempts(s, Attempts(init)), last);
      assert s.typed + init + [last] == s.typed + rs;
    }
  }

  lemma OneMoreLine(s: Contents, r: Record)
    requires Reloads(s) && s.typed != [] && LogOf(s.legacy, s.typed).Some?
    requires Append(LogOf(s.legacy, s.typed).value, r).Some? && Codec.Encoded(r).Some? && !RepairWithCalls(r)
    ensures
      var after := Appended(s, r, OK).0;
      && after.legacy == s.legacy && after.typed == s.typed + [r] && Reloads(after)
      && LogOf(after.legacy, after.typed) == Append(LogOf(s.legacy, s.typed).value, r)
  {
    AppendIsOneStep(s, r, OK);
    AttemptReloads(s, Attempt(r, OK));
    hide Reloads, LogOf, RepairWithCalls, ReplayLog.Append, RecordValid, Codec.Encoded;
  }

  /**
   * The log of a run, as byte lines: if every line fits, the store has written exactly the run's records, reloads to
   * itself, and what it reloads to are exactly the live messages.
   */
  lemma LogReloadsLive(s: Contents, w: World, es: seq<Event>) returns (rs: seq<Record>)
    requires TurnSteps.Inv(w) && TurnClosure.RunEnabled(w, es)
    requires Reloads(s) && s.typed != [] && LogOf(s.legacy, s.typed) == Some(w.p.log)
    ensures Written(w.p.log, rs) && AppendAll(w.p.log, rs) == Some(Run(w, es).p.log)
    ensures
      LinesFit(rs) ==>
        var after := AfterAttempts(s, Attempts(rs));
        && after.typed == s.typed + rs
        && Loaded(after.lines).Some? && Loaded(after.lines).value.0 == after
        && var state := Loaded(after.lines).value.1;
        && ContextMessages(state.context) == Run(w, es).c.messages
        && (SettingsLive(w) ==>
              state.lastModel == Some(Run(w, es).c.model) && state.lastCwd == Some(Run(w, es).p.cwd))
  {
    RunGrows(w, es);
    TurnClosure.RunKeepsInv(w, es);
    rs :| Written(w.p.log, rs) && AppendAll(w.p.log, rs) == Some(Run(w, es).p.log);
    var final := Run(w, es);
    assert Simulation.InStep(final);
    if SettingsLive(w) { RunKeepsSettings(w, es); }
    hide Run, Written, TurnSteps.Inv, AfterAttempts, Loaded, LinesFit;
    if LinesFit(rs) {
      StoreFollows(s, rs);
      LoadedState(AfterAttempts(s, Attempts(rs)));
    }
  }

  lemma LoadedState(s: Contents)
    requires Reloads(s)
    ensures LogOf(s.legacy, s.typed).Some?
    ensures
      var state, b := Loaded(s.lines).value.1, LogOf(s.legacy, s.typed).value.b;
      state.context == b.context && state.lastModel == b.lastModel && state.lastCwd == b.lastCwd
  {
  }
}
