/** The durable store of src/cli_history_store.c over a log of byte strings. */
module Store {
  import opened Basics
  import opened Messages
  import opened History
  import opened Replay
  import opened ReplayLog
  import opened CodecMethods
  import opened CodecRoundTrip
  import opened ReplayBuilder
  import Codec
  import JsonText
  import Recovery

  /** What is in memory beside the log's lines. */
  datatype Contents = Contents(lines: seq<bytes>, legacy: seq<Message>, typed: seq<Record>)

  /** An open brace and the quoted key every typed line starts with. */
  const TYPED_PREFIX: bytes := [0x7B, 0x22] + Codec.VERSION + [0x22]

  predicate HasTypedPrefix(line: bytes) {
    |TYPED_PREFIX| <= |line| && line[..|TYPED_PREFIX|] == TYPED_PREFIX
  }

  // ----- appending -----

  predicate IdFollows(typed: seq<Record>, r: Record) {
    typed != [] ==> typed[|typed| - 1].recordId < U64_MAX && r.recordId == typed[|typed| - 1].recordId + 1
  }

  /**
   * `oi_cli_history_store_append`: the record is kept only if the whole longer history replays, its line
   * can be encoded, and the log takes the line; `logged` is the log's answer.
   */
  function Appended(s: Contents, r: Record, logged: Status): (result: (Contents, Status, Option<ReplayState>)) {
    if !RecordValid(r) || !IdFollows(s.typed, r) then (s, INVAL, None)
    else if ReplayStatus(s.legacy, s.typed + [r]) != OK then (s, ReplayStatus(s.legacy, s.typed + [r]), None)
    else if Codec.Encoded(r).None? then (s, NOMEM, None)
    else if logged != OK then (s, logged, None)
    else
      (Contents(s.lines + [Codec.Encoded(r).value], s.legacy, s.typed + [r]), OK,
       ReplayHistory(s.legacy, s.typed + [r]))
  }

  // ----- loading -----

  /** The store being rebuilt; the first failure stops it. */
  datatype Loading = Loading(legacy: seq<Message>, typed: seq<Record>, status: Status)

  function LoadLegacy(l: Loading, line: bytes): (next: Loading) {
    if |line| > MAX_CONTENT then l.(status := PARSE)
    else l.(legacy := l.legacy + [if |l.legacy| % 2 == 0 then User(line) else Assistant(line, [])])
  }

  function LoadTyped(l: Loading, r: Record): (next: Loading) {
    if RecordValid(r) && IdFollows(l.typed, r) then l.(typed := l.typed + [r]) else l.(status := INVAL)
  }

  /** `load_record`: old lines up to the transition, typed records from there on. */
  function LoadLine(l: Loading, line: bytes): (next: Loading) {
    if l.status != OK then l
    else
      match Codec.Decoded(line)
      case None =>
        if l.typed != [] || Codec.DecodeStatus(line) == NOMEM then l.(status := Codec.DecodeStatus(line))
        else if HasTypedPrefix(line) then l.(status := PARSE)
        else LoadLegacy(l, line)
      case Some(r) =>
        if l.typed == [] && !(r.payload.Transition? && r.payload.legacyRecordCount == |l.legacy|)
        then l.(status := PARSE)
        else if l.typed != [] && r.payload.Transition? then l.(status := PARSE)
        else LoadTyped(l, r)
  }

  function LoadLines(lines: seq<bytes>): (next: Loading) {
    if lines == [] then Loading([], [], OK)
    else LoadLine(LoadLines(lines[..|lines| - 1]), lines[|lines| - 1])
  }

  /** `oi_cli_history_store_load`: every line loads and the history they make up replays. */
  function Loaded(lines: seq<bytes>): (result: Option<(Contents, ReplayState)>) {
    var l := LoadLines(lines);
    if l.status != OK then None
    else
      match ReplayHistory(l.legacy, l.typed)
      case None => None
      case Some(state) => Some((Contents(lines, l.legacy, l.typed), state))
  }

  /** The status it returns. */
  function LoadStatus(lines: seq<bytes>): (status: Status)
    ensures status == OK <==> Loaded(lines).Some?
  {
    var l := LoadLines(lines);
    if l.status != OK then l.status else ReplayStatus(l.legacy, l.typed)
  }

  /** The store is what loading its own log would give. */
  predicate Reloads(s: Contents) {
    Loaded(s.lines).Some? && Loaded(s.lines).value.0 == s
  }

  // ----- what append promises -----

  /** A failed append leaves everything as it was and publishes nothing. */
  lemma FailureChangesNothing(s: Contents, r: Record, logged: Status)
    ensures
      var (after, status, published) := Appended(s, r, logged);
      && (status != OK ==> after == s && published.None?)
      && (status == OK ==> published.Some? && after.typed == s.typed + [r] && after.legacy == s.legacy)
  {
  }

  lemma LastId(legacy: seq<Message>, typed: seq<Record>)
    requires typed != [] && LogOf(legacy, typed).Some?
    ensures LogOf(legacy, typed).value.nextId == typed[|typed| - 1].recordId + 1
  {
  }

  /** The state a history is in, and the state one record later: the first record is the transition. */
  function NextLog(legacy: seq<Message>, typed: seq<Record>, r: Record): (longer: Option<Log>) {
    match LogOf(legacy, typed)
    case None => None
    case Some(log) =>
      if typed != [] then Append(log, r)
      else if TransitionFits(legacy, r) && r.recordId < U64_MAX then Some(Log(log.b, r.recordId + 1))
      else None
  }

  /**
   * Re-replaying the whole longer history is one step of the state already reached: append succeeds exactly
   * when that step is accepted, the line fits and the log takes it, and publishes the state after the step.
   */
  lemma AppendIsOneStep(s: Contents, r: Record, logged: Status)
    requires LogOf(s.legacy, s.typed).Some?
    ensures
      var next := NextLog(s.legacy, s.typed, r);
      var (after, status, published) := Appended(s, r, logged);
      && (status == OK <==> next.Some? && Codec.Encoded(r).Some? && logged == OK)
      && (status == OK ==>
            && LogOf(after.legacy, after.typed) == next
            && published == Some(Publish(next.value.b, r.recordId, false)))
  {
    hide Replay.Step, RecordValid, Codec.Encoded, ApplyLegacy, ReplayStatus;
    assert (s.typed + [r])[..|s.typed|] == s.typed;
    if s.typed != [] {
      LastId(s.legacy, s.typed);
      ReplayOneMore(s.legacy, s.typed, r);
    }
  }

  /** The status of an append: that of the one step, or of the line. */
  lemma AppendReports(s: Contents, r: Record)
    requires s.typed != [] && LogOf(s.legacy, s.typed).Some?
    ensures
      var step := AppendStatus(LogOf(s.legacy, s.typed).value, r);
      Appended(s, r, OK).1 == if step != OK then step else if Codec.Encoded(r).None? then NOMEM else OK
  {
    LastId(s.legacy, s.typed);
    ReplayOneMore(s.legacy, s.typed, r);
    assert (s.typed + [r])[..|s.typed|] == s.typed;
    hide Replay.Step, StepStatus, RecordValid, Codec.Encoded, ApplyLegacy;
  }

  lemma LoadSnoc(lines: seq<bytes>, line: bytes)
    ensures LoadLines(lines + [line]) == LoadLine(LoadLines(lines), line)
  {
    assert (lines + [line])[..|lines|] == lines;
  }

  lemma TransitionFirst(legacy: seq<Message>, typed: seq<Record>, r: Record)
    requires ReplayHistory(legacy, typed + [r]).Some?
    ensures typed == [] ==> r.payload.Transition? && r.payload.legacyRecordCount == |legacy|
    ensures typed != [] ==> !r.payload.Transition?
  {
    assert (typed + [r])[..|typed|] == typed;
  }

  /**
   * After a successful append, loading the log gives the same history and the published state, unless the
   * record is one the codec writes but refuses to read: then the log cannot be loaded any more.
   */
  lemma AppendReloads(s: Contents, r: Record)
    requires Reloads(s) && Appended(s, r, OK).1 == OK
    ensures
      var (after, _, published) := Appended(s, r, OK);
      && (Reloads(after) <==> !RepairWithCalls(r))
      && (if RepairWithCalls(r) then Loaded(after.lines).None?
          else Loaded(after.lines) == Some((after, published.value)))
  {
    hide Codec.Encoded, Codec.Decoded, Codec.DecodeStatus, RecordValid, ReplayHistory, ReplayStatus;
    var line := Codec.Encoded(r).value;
    LoadSnoc(s.lines, line);
    RecordRoundTrip(r);
    TransitionFirst(s.legacy, s.typed, r);
    LineIsTyped(r);
  }

  predicate PlainLetters(s: bytes) {
    forall i :: 0 <= i < |s| ==> 0x61 <= s[i] <= 0x7A
  }

  lemma {:induction false} PlainEscape(s: bytes)
    requires PlainLetters(s)
    ensures JsonText.Escape(s) == s
  {
    if s != [] {
      assert 0x61 <= s[0] <= 0x7A;
      PlainEscape(s[1..]);
    }
  }

  /** No line the codec writes is ever taken for an old untyped message. */
  lemma LineIsTyped(r: Record)
    requires Codec.Encoded(r).Some?
    ensures HasTypedPrefix(Codec.Encoded(r).value)
  {
    hide RecordValid, Codec.PayloadMembers;
    VersionQuoted();
    TextStarts(Codec.HeaderMembers(r) + Codec.PayloadMembers(r.payload));
  }

  lemma VersionQuoted()
    ensures TYPED_PREFIX == [JsonText.OPEN_BRACE] + JsonText.Quote(Codec.VERSION)
  {
    hide JsonText.Escape;
    VersionPlain();
    PlainEscape(Codec.VERSION);
  }

  lemma VersionPlain()
    ensures PlainLetters(Codec.VERSION)
  {
    assert |Codec.VERSION| == 7;
  }

  lemma TextStarts(members: seq<JsonText.Member>)
    requires members != []
    ensures
      var start := [JsonText.OPEN_BRACE] + JsonText.Quote(members[0].key);
      && |start| <= |JsonText.Text(JsonText.Object(members))|
      && JsonText.Text(JsonText.Object(members))[..|start|] == start
  {
    hide JsonText.Quote;
    var key := JsonText.Quote(members[0].key);
    var rest := [JsonText.COLON] + JsonText.Text(members[0].value) + JsonText.MembersText(members[1..], false);
    assert JsonText.MembersText(members, true) == key + rest;
    assert JsonText.Text(JsonText.Object(members)) == [JsonText.OPEN_BRACE] + key + (rest + [JsonText.CLOSE_BRACE]);
  }

  datatype Attempt = Attempt(r: Record, logged: Status)

  function AfterAttempts(s: Contents, attempts: seq<Attempt>): (after: Contents) {
    if attempts == [] then s
    else
      var last := attempts[|attempts| - 1];
      Appended(AfterAttempts(s, attempts[..|attempts| - 1]), last.r, last.logged).0
  }

  lemma AttemptReloads(s: Contents, a: Attempt)
    requires Reloads(s) && !RepairWithCalls(a.r)
    ensures
      var after := Appended(s, a.r, a.logged).0;
      Reloads(after) && s.typed <= after.typed && s.lines <= after.lines
  {
    hide Reloads, RepairWithCalls, RecordValid, ReplayHistory, ReplayStatus, Codec.Encoded;
    if Appended(s, a.r, a.logged).1 == OK { AppendReloads(s, a.r); }
  }

  /** Over any run of appends, successful or not, the store stays what reloading its log would give. */
  lemma {:induction false} RunReloads(s: Contents, attempts: seq<Attempt>)
    requires Reloads(s) && forall i :: 0 <= i < |attempts| ==> !RepairWithCalls(attempts[i].r)
    ensures Reloads(AfterAttempts(s, attempts))
    ensures s.typed <= AfterAttempts(s, attempts).typed && s.lines <= AfterAttempts(s, attempts).lines
  {
    hide Reloads, RepairWithCalls, Appended;
    if attempts != [] {
      RunReloads(s, attempts[..|attempts| - 1]);
      AttemptReloads(AfterAttempts(s, attempts[..|attempts| - 1]), attempts[|attempts| - 1]);
    }
  }

  /** The store object; its `lines` stand for the session log behind it. */
  class HistoryStore {
    var lines: seq<bytes>
    var legacy: seq<Message>
    var typed: seq<Record>

    ghost function View(): (after: Contents)
      reads this
    {
      Contents(lines, legacy, typed)
    }

    /** An empty store bound to a log. */
    constructor (log: seq<bytes>)
      ensures View() == Contents(log, [], [])
    {
      lines, legacy, typed := log, [], [];
    }

    method AppendLegacy(line: bytes) returns (status: Status)
      modifies this`legacy
      ensures Loading(legacy, typed, status) == LoadLegacy(Loading(old(legacy), typed, OK), line)
    {
      if |line| > MAX_CONTENT { return PARSE; }
      if |legacy| % 2 == 0 {
        legacy := legacy + [User(line)];
      } else {
        legacy := legacy + [Assistant(line, [])];
      }
      return OK;
    }

    method LoadRecord(line: bytes) returns (status: Status)
      modifies this`legacy, this`typed
      ensures
        Loading(legacy, typed, status) == LoadLine(Loading(old(legacy), old(typed), OK), line)
      ensures |legacy| <= |old(legacy)| + 1
    {
      hide RecordValid, Codec.Decoded, Codec.DecodeStatus;
      var record;
      status, record := DecodeRecord(line);
      if |typed| == 0 {
        if status == OK {
          if !record.value.payload.Transition? || record.value.payload.legacyRecordCount != |legacy| {
            status := PARSE;
          } else {
            status, typed := Recovery.AppendTake(typed, record.value);
          }
        } else if status != NOMEM {
          if HasTypedPrefix(line) { status := PARSE; } else { status := AppendLegacy(line); }
        }
      } else if status == OK {
        if record.value.payload.Transition? {
          status := PARSE;
        } else {
          status, typed := Recovery.AppendTake(typed, record.value);
        }
      }
    }

    /** Rebuilds the store from its log; on failure nothing is published. */
    method Load() returns (status: Status, state: Option<ReplayState>)
      requires legacy == [] && typed == [] && |lines| <= U64_MAX
      modifies this`legacy, this`typed
      ensures status == LoadStatus(lines)
      ensures
        match Loaded(lines)
        case None => state.None?
        case Some((contents, published)) => View() == contents && state == Some(published)
    {
      hide LoadLine;
      status := OK;
      var i := 0;
      assert lines[..0] == [];
      while i < |lines|
        invariant |legacy| <= i <= |lines|
        invariant LoadLines(lines[..i]) == Loading(legacy, typed, status)
      {
        LoadSnoc(lines[..i], lines[i]);
        assert lines[..i] + [lines[i]] == lines[..i + 1];
        if status == OK {
          status := LoadRecord(lines[i]);
        } else {
          StoppedStays(Loading(legacy, typed, status), lines[i]);
        }
        i := i + 1;
      }
      assert lines[..i] == lines;
      if status != OK { return status, None; }
      status, state := ReplayAll(legacy, typed);
    }

    method Take(r: Record) returns (status: Status)
      modifies this`typed
      ensures status == if RecordValid(r) && IdFollows(old(typed), r) then OK else INVAL
      ensures typed == if status == OK then old(typed) + [r] else old(typed)
    {
      hide RecordValid;
      status, typed := Recovery.AppendTake(typed, r);
    }

    /** `typed_history_pop`. */
    method Pop(ghost prior: seq<Record>, r: Record)
      requires typed == prior + [r]
      modifies this`typed
      ensures typed == prior
    {
      typed := typed[..|typed| - 1];
    }

    /** Appends in memory first and takes the record back if replay, the codec or the log refuses it. */
    method Append(r: Record, logged: Status) returns (status: Status, state: Option<ReplayState>)
      requires |legacy| <= U64_MAX
      modifies this
      ensures (View(), status, state) == Appended(old(View()), r, logged)
    {
      hide RecordValid, IdFollows, ReplayHistory, ReplayStatus, Codec.Encoded;
      if !RecordValid(r) { return INVAL, None; }
      ghost var prior := typed;
      status := Take(r);
      if status != OK { return status, None; }
      status, state := ReplayAll(legacy, typed);
      if status != OK {
        Pop(prior, r);
        return status, None;
      }
      var json;
      status, json := EncodeRecord(r);
      if status == OK { status := logged; }
      if status != OK {
        Pop(prior, r);
        return status, None;
      }
      lines := lines + [json];
    }
  }

  lemma StoppedStays(l: Loading, line: bytes)
    requires l.status != OK
    ensures LoadLine(l, line) == l
  {
  }
}
