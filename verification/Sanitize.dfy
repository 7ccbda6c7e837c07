/** The control and escape stripper of src/cli_render_sanitize.c: sections 5.4 and 5.6 of ECMA-48. */
module Sanitize {
  import opened Basics
  import opened Utf8
  import Utf8Stream

  const ESC: byte := 0x1B
  const BEL: byte := 0x07
  const DEL: byte := 0x7F
  const LEAD_C2: byte := 0xC2
  const OPEN_BRACKET: byte := 0x5B
  const BACKSLASH: byte := 0x5C

  /** How many bytes one sequence may swallow before scanning resumes. */
  const MAX_SEQUENCE: nat := 4096

  datatype Phase = Normal | SawC2 | Escape | ControlSequence | ControlString | StringEscape

  datatype State = State(phase: Phase, swallowed: nat)

  const START: State := State(Normal, 0)

  datatype Fed = Fed(state: State, out: bytes)

  predicate IsStringIntroducer(b: byte) {
    b == 0x50 || b == 0x5D || b == 0x58 || b == 0x5E || b == 0x5F
  }

  predicate Passes(b: byte) {
    b != ESC && b != LEAD_C2 && (b == 0x0A || b == 0x09 || (b >= 0x20 && b != DEL))
  }

  /** The second byte of a C1 control after 0xC2. */
  predicate IsC1(b: byte) {
    0x80 <= b <= 0x9F
  }

  function Capped(phase: Phase, swallowed: nat): (next: State) {
    if swallowed >= MAX_SEQUENCE then START else State(phase, swallowed)
  }

  /** `feed_one`; the flag asks for the same byte again in the new state. */
  function FeedOne(s: State, b: byte): (result: (Fed, bool)) {
    match s.phase
    case Normal =>
      if b == ESC then (Fed(State(Escape, 1), []), false)
      else if b == LEAD_C2 then (Fed(s.(phase := SawC2), []), false)
      else (Fed(s, if Passes(b) then [b] else []), false)
    case SawC2 =>
      if IsC1(b) then (Fed(s.(phase := Normal), []), false)
      else (Fed(s.(phase := Normal), [LEAD_C2]), true)
    case Escape =>
      if b == OPEN_BRACKET then (Fed(Capped(ControlSequence, s.swallowed + 1), []), false)
      else if IsStringIntroducer(b) then (Fed(Capped(ControlString, s.swallowed + 1), []), false)
      else (Fed(START, []), !(0x20 <= b <= 0x7E))
    case ControlSequence =>
      (Fed(if 0x40 <= b <= 0x7E then START else Capped(ControlSequence, s.swallowed + 1), []), false)
    case ControlString =>
      (Fed(if b == BEL then START
           else Capped(if b == ESC then StringEscape else ControlString, s.swallowed + 1), []), false)
    case StringEscape =>
      (Fed(if b == BACKSLASH then START else Capped(ControlString, s.swallowed + 1), []), false)
  }

  function FeedByte(s: State, b: byte): (fed: Fed) {
    var (first, again) := FeedOne(s, b);
    if !again then first
    else
      var second := FeedOne(first.state, b).0;
      Fed(second.state, first.out + second.out)
  }

  function Feed(s: State, input: bytes): (fed: Fed)
    decreases input
  {
    if input == [] then Fed(s, [])
    else
      var head := FeedByte(s, input[0]);
      var tail := Feed(head.state, input[1..]);
      Fed(tail.state, head.out + tail.out)
  }

  /** Everything shown of an input; what is still held at its end is dropped. */
  function Sanitized(input: bytes): (text: bytes) {
    Feed(START, input).out
  }

  lemma {:induction false} FeedConcat(s: State, a: bytes, b: bytes)
    ensures
      var first := Feed(s, a);
      var second := Feed(first.state, b);
      Feed(s, a + b) == Fed(second.state, first.out + second.out)
    decreases a
  {
    hide FeedByte;
    if a == [] {
      assert a + b == b;
    } else {
      var head := FeedByte(s, a[0]);
      FeedConcat(head.state, a[1..], b);
      assert (a + b)[1..] == a[1..] + b;
      var mid := Feed(head.state, a[1..]);
      assert head.out + (mid.out + Feed(mid.state, b).out) == head.out + mid.out + Feed(mid.state, b).out;
    }
  }

  function FeedChunks(s: State, chunks: seq<bytes>): (fed: Fed)
    decreases chunks
  {
    if chunks == [] then Fed(s, [])
    else
      var head := Feed(s, chunks[0]);
      var tail := FeedChunks(head.state, chunks[1..]);
      Fed(tail.state, head.out + tail.out)
  }

  /** Cutting the input into chunks changes neither the output nor the state. */
  lemma {:induction false} ChunksDoNotMatter(s: State, chunks: seq<bytes>)
    ensures FeedChunks(s, chunks) == Feed(s, Concat(chunks))
    decreases chunks
  {
    if chunks != [] {
      ChunksDoNotMatter(Feed(s, chunks[0]).state, chunks[1..]);
      FeedConcat(s, chunks[0], Concat(chunks[1..]));
    }
  }

  // ----- what comes out -----

  /** No ESC, no DEL, and of the C0 controls only newline and tab. */
  predicate ControlFree(s: bytes) {
    forall i :: 0 <= i < |s| ==> Passes(s[i]) || s[i] == LEAD_C2
  }

  /** For any input, in any chunking. */
  lemma {:induction false} OutputControlFree(s: State, input: bytes)
    ensures ControlFree(Feed(s, input).out)
    decreases input
  {
    if input != [] {
      OutputControlFree(FeedByte(s, input[0]).state, input[1..]);
      assert ControlFree(FeedByte(s, input[0]).out);
    }
  }

  /** Only shown bytes, and every 0xC2 leads a character that is not a C1 control. */
  predicate Clean(s: bytes) {
    && ControlFree(s)
    && forall i :: 0 <= i < |s| && s[i] == LEAD_C2 ==> i + 1 < |s| && !IsC1(s[i + 1])
  }

  lemma PassesThrough(s: bytes)
    requires s != [] && Passes(s[0])
    ensures Feed(START, s) == Fed(Feed(START, s[1..]).state, [s[0]] + Feed(START, s[1..]).out)
  {
  }

  lemma TwoBytes(s: State, input: bytes)
    requires |input| >= 2
    ensures
      var first := FeedByte(s, input[0]);
      var second := FeedByte(first.state, input[1]);
      Feed(s, input)
      == Fed(Feed(second.state, input[2..]).state, first.out + second.out + Feed(second.state, input[2..]).out)
  {
    hide FeedByte;
    assert input[1..][1..] == input[2..];
    var first := FeedByte(s, input[0]);
    var second := FeedByte(first.state, input[1]);
    assert first.out + (second.out + Feed(second.state, input[2..]).out)
        == first.out + second.out + Feed(second.state, input[2..]).out;
  }

  lemma LeadReleased(b: byte)
    requires !IsC1(b)
    ensures FeedByte(START, LEAD_C2) == Fed(State(SawC2, 0), [])
    ensures FeedByte(State(SawC2, 0), b) == Fed(FeedByte(START, b).state, [LEAD_C2] + FeedByte(START, b).out)
  {
  }

  lemma LeadThrough(s: bytes)
    requires |s| > 1 && s[0] == LEAD_C2 && !IsC1(s[1])
    ensures Feed(START, s) == Fed(Feed(START, s[1..]).state, [s[0]] + Feed(START, s[1..]).out)
  {
    LeadReleased(s[1]);
    hide FeedByte;
    TwoBytes(START, s);
    assert s[1..][1..] == s[2..];
    var after := FeedByte(START, s[1]);
    var rest := Feed(after.state, s[2..]).out;
    assert Feed(START, s[1..]).out == after.out + rest;
    assert [] + ([LEAD_C2] + after.out) + rest == [s[0]] + (after.out + rest);
  }

  lemma CleanRest(s: bytes)
    requires s != [] && Clean(s)
    ensures Clean(s[1..]) && (Passes(s[0]) || (s[0] == LEAD_C2 && |s| > 1 && !IsC1(s[1])))
  {
    var rest := s[1..];
    assert forall i :: 0 <= i < |rest| ==> rest[i] == s[i + 1];
    assert Passes(s[0]) || s[0] == LEAD_C2;
  }

  /** A clean text is shown as it is. */
  lemma {:induction false} CleanShown(s: bytes)
    requires Clean(s)
    ensures Feed(START, s) == Fed(START, s)
    decreases |s|
  {
    if s != [] {
      CleanRest(s);
      hide Clean, Passes, IsC1;
      CleanShown(s[1..]);
      if Passes(s[0]) { PassesThrough(s); } else { LeadThrough(s); }
      assert s == [s[0]] + s[1..];
    }
  }

  // ----- when a second pass changes nothing -----

  function HeldBack(s: State): (n: nat) {
    if s.phase.SawC2? then 1 else 0
  }

  lemma {:induction false} OutputShrinks(s: State, input: bytes)
    ensures |Feed(s, input).out| + HeldBack(Feed(s, input).state) <= |input| + HeldBack(s)
    decreases input
  {
    if input != [] {
      var head := FeedByte(s, input[0]);
      assert |head.out| + HeldBack(head.state) <= 1 + HeldBack(s);
      OutputShrinks(head.state, input[1..]);
    }
  }

  lemma {:induction false} UncleanShrinks(s: bytes)
    requires ControlFree(s) && !Clean(s)
    ensures |Sanitized(s)| < |s|
    decreases |s|
  {
    var rest := s[1..];
    assert forall i :: 0 <= i < |rest| ==> rest[i] == s[i + 1];
    assert Passes(s[0]) || s[0] == LEAD_C2;
    if Passes(s[0]) {
      UncleanShrinks(rest);
      PassesThrough(s);
    } else if |s| == 1 {
      assert Feed(State(SawC2, 0), s[1..]) == Fed(State(SawC2, 0), []);
    } else if IsC1(s[1]) {
      C1Dropped(s);
      OutputShrinks(START, s[2..]);
    } else {
      UncleanShrinks(rest);
      LeadThrough(s);
    }
  }

  lemma C1Dropped(s: bytes)
    requires |s| > 1 && s[0] == LEAD_C2 && IsC1(s[1])
    ensures Feed(START, s) == Feed(START, s[2..])
  {
    assert s[1..][1..] == s[2..];
    assert Feed(State(SawC2, 0), s[1..]) == Feed(START, s[2..]);
  }

  /** The texts the sanitizer leaves alone are exactly the clean ones. */
  lemma LeftAloneIffClean(s: bytes)
    ensures Sanitized(s) == s <==> Clean(s)
  {
    if Clean(s) {
      CleanShown(s);
    } else {
      OutputControlFree(START, s);
      if ControlFree(s) { UncleanShrinks(s); }
    }
  }

  /** Every 0xC2 is followed by a continuation byte: all the sanitizer needs of its input. */
  predicate LeadsFollowed(s: bytes) {
    forall i :: 0 <= i < |s| && s[i] == LEAD_C2 ==> i + 1 < |s| && IsTail(s[i + 1])
  }

  lemma CleanConcat(a: bytes, b: bytes)
    requires Clean(a) && Clean(b)
    ensures Clean(a + b)
  {
  }

  lemma StepClean(s: State, b: byte)
    requires !s.phase.SawC2?
    ensures
      var fed := FeedByte(s, b);
      if fed.state.phase.SawC2? then b == LEAD_C2 && fed.out == [] else Clean(fed.out)
  {
  }

  lemma LeadClean(s: State, b: byte)
    requires s.phase.SawC2? && IsTail(b)
    ensures Clean(FeedByte(s, b).out) && FeedByte(s, b).state.phase.Normal?
  {
  }

  lemma LaterLeads(s: bytes, k: nat)
    requires LeadsFollowed(s) && k <= |s|
    ensures LeadsFollowed(s[k..])
  {
    assert forall i :: k <= i < |s| ==> s[k..][i - k] == s[i];
  }

  lemma {:induction false} OutputClean(s: State, input: bytes)
    requires LeadsFollowed(input) && !s.phase.SawC2?
    ensures Clean(Feed(s, input).out)
    decreases |input|
  {
    if input != [] {
      var head := FeedByte(s, input[0]);
      StepClean(s, input[0]);
      assert head.state.phase.SawC2? ==> |input| >= 2 && IsTail(input[1]);
      hide FeedByte, Clean, LeadsFollowed;
      if head.state.phase.SawC2? {
        TwoBytes(s, input);
        var second := FeedByte(head.state, input[1]);
        LeadClean(head.state, input[1]);
        LaterLeads(input, 2);
        OutputClean(second.state, input[2..]);
        assert head.out + second.out == second.out;
        CleanConcat(second.out, Feed(second.state, input[2..]).out);
      } else {
        LaterLeads(input, 1);
        OutputClean(head.state, input[1..]);
        CleanConcat(head.out, Feed(head.state, input[1..]).out);
      }
    }
  }

  lemma CharLead(c: bytes)
    requires IsChar(c)
    ensures forall i :: 0 <= i < |c| && c[i] == LEAD_C2 ==> i == 0 && |c| == 2 && IsTail(c[1])
  {
  }

  lemma CharLeads(c: bytes)
    requires IsChar(c)
    ensures LeadsFollowed(c)
  {
    CharLead(c);
    hide IsChar;
  }

  lemma LeadsConcat(a: bytes, b: bytes)
    requires LeadsFollowed(a) && LeadsFollowed(b)
    ensures LeadsFollowed(a + b)
  {
  }

  lemma {:induction false} WellFormedLeads(s: bytes)
    requires WellFormed(s)
    ensures LeadsFollowed(s)
    decreases |s|
  {
    if s != [] {
      hide LeadsFollowed, SequenceLength, IsChar, WellFormed;
      var n := FirstChar(s);
      WellFormedLeads(s[n..]);
      CharLeads(s[..n]);
      LeadsConcat(s[..n], s[n..]);
    }
  }

  /** On well-formed text no C1 control survives either, and a second pass changes nothing. */
  lemma WellFormedIsCleaned(s: bytes)
    requires WellFormed(s)
    ensures Clean(Sanitized(s)) && Sanitized(Sanitized(s)) == Sanitized(s)
  {
    WellFormedLeads(s);
    OutputClean(START, s);
    LeftAloneIffClean(Sanitized(s));
  }

  /** So for any bytes at all, once the UTF-8 fixer has run first. */
  lemma PipelineIsClean(s: bytes)
    ensures Clean(Sanitized(Utf8Stream.Fixed(s)))
    ensures Sanitized(Sanitized(Utf8Stream.Fixed(s))) == Sanitized(Utf8Stream.Fixed(s))
  {
    Utf8Stream.FixedIsWellFormed(s);
    WellFormedIsCleaned(Utf8Stream.Fixed(s));
  }

  /** Without it a C1 control can come out, and the second pass takes it away. */
  lemma IllFormedLetsC1Through()
    ensures Sanitized([LEAD_C2, ESC, 0x63, 0x85]) == [LEAD_C2, 0x85]
    ensures Sanitized([LEAD_C2, 0x85]) == []
  {
    var s := [LEAD_C2, ESC, 0x63, 0x85];
    TwoBytes(START, s);
    TwoBytes(State(Escape, 1), s[2..]);
    assert s[2..][2..] == [];
    C1Dropped([LEAD_C2, 0x85]);
    assert [LEAD_C2, 0x85][2..] == [];
  }

  // ----- when a second pass changes nothing, on the input -----

  /** The first byte shown of an input. */
  function FirstShown(s: State, input: bytes): (first: Option<byte>)
    decreases input
  {
    if input == [] then None
    else
      var head := FeedByte(s, input[0]);
      if head.out != [] then Some(head.out[0]) else FirstShown(head.state, input[1..])
  }

  /**
   * Wherever a held 0xC2 is let out by a byte that is itself not shown, a later byte is shown, and the first
   * such byte does not turn the two into a C1 control.
   */
  predicate LeadsKept(s: State, input: bytes)
    decreases input
  {
    input == [] ||
    var head, rest := FeedByte(s, input[0]), input[1..];
    && LeadsKept(head.state, rest)
    && (s.phase.SawC2? && !IsC1(input[0]) && !Passes(input[0]) ==>
          var next := FirstShown(head.state, rest);
          next.Some? && !IsC1(next.value))
  }

  lemma {:induction false} FirstShownIs(s: State, input: bytes)
    ensures
      var out := Feed(s, input).out;
      FirstShown(s, input) == if out == [] then None else Some(out[0])
    decreases input
  {
    if input != [] { FirstShownIs(FeedByte(s, input[0]).state, input[1..]); }
  }

  /** What one byte shows is clean but for a released 0xC2 at its end. */
  lemma ByteShown(s: State, b: byte)
    ensures
      var out := FeedByte(s, b).out;
      if s.phase.SawC2? && !IsC1(b) && !Passes(b) then out == [LEAD_C2] else Clean(out)
  {
  }

  lemma JoinedClean(a: bytes, b: bytes)
    requires a == [LEAD_C2] || Clean(a)
    ensures a == [LEAD_C2] ==> !Clean(a)
    ensures Clean(a + b) <==> Clean(b) && (Clean(a) || (b != [] && !IsC1(b[0])))
  {
    assert forall i :: 0 <= i < |b| ==> (a + b)[|a| + i] == b[i];
    assert forall i :: 0 <= i < |a| ==> (a + b)[i] == a[i];
    if Clean(a) && Clean(b) { CleanConcat(a, b); }
    if a == [LEAD_C2] { assert a[0] == LEAD_C2; }
  }

  /** The condition on the input, from any state, for the output to carry no C1 control. */
  lemma {:induction false} CleanIffLeadsKept(s: State, input: bytes)
    ensures Clean(Feed(s, input).out) <==> LeadsKept(s, input)
    decreases input
  {
    if input != [] {
      var head, rest := FeedByte(s, input[0]), input[1..];
      ByteShown(s, input[0]);
      FirstShownIs(head.state, rest);
      CleanIffLeadsKept(head.state, rest);
      hide FeedByte, Clean;
      JoinedClean(head.out, Feed(head.state, rest).out);
    }
  }

  /** So for any bytes a second pass changes nothing exactly when every released 0xC2 keeps its place. */
  lemma SecondPassIff(s: bytes)
    ensures Sanitized(Sanitized(s)) == Sanitized(s) <==> LeadsKept(START, s)
  {
    LeftAloneIffClean(Sanitized(s));
    CleanIffLeadsKept(START, s);
  }

  // ----- whole sequences -----

  predicate SequenceBytes(s: bytes) {
    forall i :: 0 <= i < |s| ==> !(0x40 <= s[i] <= 0x7E)
  }

  lemma {:induction false} ParametersSwallowed(n: nat, body: bytes)
    requires SequenceBytes(body) && n + |body| < MAX_SEQUENCE
    ensures Feed(State(ControlSequence, n), body) == Fed(State(ControlSequence, n + |body|), [])
    decreases body
  {
    if body != [] {
      assert !(0x40 <= body[0] <= 0x7E);
      ParametersSwallowed(n + 1, body[1..]);
    }
  }

  /** A control sequence (section 5.4 of ECMA-48) of up to 4096 bytes leaves no trace. */
  lemma ControlSequenceVanishes(body: bytes, final: byte, rest: bytes)
    requires SequenceBytes(body) && 0x40 <= final <= 0x7E && 2 + |body| < MAX_SEQUENCE
    ensures Feed(START, [ESC, OPEN_BRACKET] + body + [final] + rest) == Feed(START, rest)
  {
    var whole := [ESC, OPEN_BRACKET] + body + [final] + rest;
    TwoBytes(START, whole);
    assert whole[2..] == body + ([final] + rest);
    ParametersSwallowed(2, body);
    FeedConcat(State(ControlSequence, 2), body, [final] + rest);
    assert ([final] + rest)[1..] == rest;
  }

  predicate StringBytes(s: bytes) {
    forall i :: 0 <= i < |s| ==> s[i] != BEL && s[i] != ESC
  }

  lemma {:induction false} BodySwallowed(n: nat, body: bytes)
    requires StringBytes(body) && n + |body| < MAX_SEQUENCE
    ensures Feed(State(ControlString, n), body) == Fed(State(ControlString, n + |body|), [])
    decreases body
  {
    if body != [] {
      assert body[0] != BEL && body[0] != ESC;
      BodySwallowed(n + 1, body[1..]);
    }
  }

  /** So does a control string (section 5.6 of ECMA-48), ended by BEL or by ESC and a backslash. */
  lemma ControlStringVanishes(introducer: byte, body: bytes, terminator: bytes, rest: bytes)
    requires IsStringIntroducer(introducer) && StringBytes(body) && 3 + |body| < MAX_SEQUENCE
    requires terminator == [BEL] || terminator == [ESC, BACKSLASH]
    ensures Feed(START, [ESC, introducer] + body + terminator + rest) == Feed(START, rest)
  {
    var whole := [ESC, introducer] + body + terminator + rest;
    TwoBytes(START, whole);
    var tail := terminator + rest;
    assert whole[2..] == body + tail;
    BodySwallowed(2, body);
    FeedConcat(State(ControlString, 2), body, tail);
    if terminator == [BEL] {
      assert tail[1..] == rest;
    } else {
      TwoBytes(State(ControlString, 2 + |body|), tail);
      assert tail[2..] == rest;
    }
  }

  /** Inside a sequence the count stays under the cap. */
  predicate Bounded(s: State) {
    match s.phase
    case Normal => s.swallowed == 0
    case SawC2 => s.swallowed == 0
    case Escape => s.swallowed == 1
    case _ => 2 <= s.swallowed < MAX_SEQUENCE
  }

  /** Once a sequence has its introducer, scanning is back to normal text after at most 4096 bytes of it. */
  lemma {:induction false} SwallowingEnds(s: State, input: bytes) returns (k: nat)
    requires Bounded(s) && !s.phase.Escape? && |input| >= MAX_SEQUENCE - s.swallowed
    ensures k <= MAX_SEQUENCE - s.swallowed && Bounded(Feed(s, input[..k]).state)
    ensures Feed(s, input[..k]).state.phase.Normal? || Feed(s, input[..k]).state.phase.SawC2?
    decreases |input|
  {
    if s.phase.Normal? || s.phase.SawC2? {
      k := 0;
    } else {
      var next := FeedByte(s, input[0]).state;
      if next.phase.Normal? || next.phase.SawC2? {
        k := 1;
        assert input[..1][1..] == [];
      } else {
        assert next.swallowed == s.swallowed + 1;
        var rest := SwallowingEnds(next, input[1..]);
        k := rest + 1;
        assert input[..k][1..] == input[1..][..rest];
      }
    }
  }

  // ----- when the output is well-formed -----

  /** The cap, if it fires at all inside this character, fires on its last byte. */
  predicate Unsplit(s: State, c: bytes) {
    s.phase.Normal? || s.phase.Escape? || s.swallowed + |c| <= MAX_SEQUENCE
  }

  /** No character of a well-formed input is split by the cap. */
  predicate NothingSplit(s: State, input: bytes)
    decreases |input|
  {
    var n := SequenceLength(input);
    n == 0 || n > |input| || (Unsplit(s, input[..n]) && NothingSplit(Feed(s, input[..n]).state, input[n..]))
  }

  /** A tail byte is swallowed inside a sequence and shown outside. */
  lemma TailStep(s: State, b: byte)
    requires IsTail(b) && Bounded(s)
    ensures s.phase.Normal? ==> FeedByte(s, b) == Fed(START, [b])
    ensures s.phase.ControlSequence? ==> FeedByte(s, b) == Fed(Capped(ControlSequence, s.swallowed + 1), [])
    ensures s.phase.ControlString? ==> FeedByte(s, b) == Fed(Capped(ControlString, s.swallowed + 1), [])
  {
  }

  lemma {:induction false} TailsShown(tails: bytes)
    requires forall i :: 0 <= i < |tails| ==> IsTail(tails[i])
    ensures Feed(START, tails) == Fed(START, tails)
  {
    if tails != [] {
      assert IsTail(tails[0]);
      TailStep(START, tails[0]);
      TailsShown(tails[1..]);
      assert tails == [tails[0]] + tails[1..];
    }
  }

  /** Tail bytes inside a sequence: all swallowed, unless the cap fires first and the others are shown. */
  lemma {:induction false} TailsSwallowed(s: State, tails: bytes)
    requires forall i :: 0 <= i < |tails| ==> IsTail(tails[i])
    requires Bounded(s) && (s.phase.ControlSequence? || s.phase.ControlString?)
    ensures
      var fed := Feed(s, tails);
      if s.swallowed + |tails| < MAX_SEQUENCE then fed == Fed(State(s.phase, s.swallowed + |tails|), [])
      else fed == Fed(START, tails[MAX_SEQUENCE - s.swallowed..])
    decreases tails
  {
    if tails != [] {
      assert IsTail(tails[0]);
      TailStep(s, tails[0]);
      var next := Capped(s.phase, s.swallowed + 1);
      if next == START {
        TailsShown(tails[1..]);
      } else {
        TailsSwallowed(next, tails[1..]);
        if s.swallowed + |tails| >= MAX_SEQUENCE {
          assert tails[1..][MAX_SEQUENCE - s.swallowed - 1..] == tails[MAX_SEQUENCE - s.swallowed..];
        }
      }
    }
  }

  predicate Settled(s: State) {
    Bounded(s) && !s.phase.SawC2?
  }

  /** What one character can do: be shown whole, be swallowed whole, or be cut so that only tail bytes show. */
  predicate CharOutcome(s: State, c: bytes, fed: Fed) {
    && Settled(fed.state)
    && if Unsplit(s, c) then fed.out == [] || fed.out == c else fed.out != [] && IsTail(fed.out[0])
  }

  lemma CharParts(c: bytes)
    requires IsChar(c)
    ensures |c| == 1 ==> c[0] <= 0x7F
    ensures |c| > 1 ==> c[0] >= LEAD_C2 && forall i :: 0 <= i < |c[1..]| ==> IsTail(c[1..][i])
    ensures c[0] == LEAD_C2 ==> |c| == 2
  {
  }

  lemma AsciiOutcome(s: State, c: bytes)
    requires Settled(s) && |c| == 1 && c[0] <= 0x7F
    ensures CharOutcome(s, c, Feed(s, c))
  {
    var head := FeedByte(s, c[0]);
    assert c[1..] == [] && Feed(head.state, []) == Fed(head.state, []);
    assert head.out + [] == head.out;
    assert c == [c[0]];
  }

  lemma LeadShown(s: State, c: bytes)
    requires Settled(s) && (s.phase.Normal? || s.phase.Escape?)
    requires |c| == 2 && c[0] == LEAD_C2 && IsTail(c[1..][0])
    ensures CharOutcome(s, c, Feed(s, c))
  {
    TwoBytes(s, c);
    assert c[2..] == [] && c[1..][0] == c[1];
    assert c == [c[0], c[1]];
  }

  lemma ShownOutcome(s: State, c: bytes)
    requires Settled(s) && (s.phase.Normal? || s.phase.Escape?)
    requires |c| > 1 && c[0] >= LEAD_C2 && forall i :: 0 <= i < |c[1..]| ==> IsTail(c[1..][i])
    requires c[0] == LEAD_C2 ==> |c| == 2
    ensures CharOutcome(s, c, Feed(s, c))
  {
    if c[0] == LEAD_C2 {
      LeadShown(s, c);
    } else {
      TailsShown(c[1..]);
      assert FeedByte(s, c[0]) == Fed(START, [c[0]]);
      hide FeedByte;
      assert c == [c[0]] + c[1..];
    }
  }

  lemma SwallowedOutcome(s: State, c: bytes)
    requires Settled(s) && !(s.phase.Normal? || s.phase.Escape?)
    requires |c| > 1 && c[0] >= LEAD_C2 && forall i :: 0 <= i < |c[1..]| ==> IsTail(c[1..][i])
    ensures CharOutcome(s, c, Feed(s, c))
  {
    var next := FeedByte(s, c[0]).state;
    var tails := c[1..];
    if next == START { TailsShown(tails); } else { TailsSwallowed(next, tails); }
  }

  lemma CharFed(s: State, c: bytes)
    requires Settled(s) && IsChar(c)
    ensures CharOutcome(s, c, Feed(s, c))
  {
    CharParts(c);
    if |c| == 1 {
      AsciiOutcome(s, c);
    } else if s.phase.Normal? || s.phase.Escape? {
      ShownOutcome(s, c);
    } else {
      SwallowedOutcome(s, c);
    }
  }

  lemma TailFirst(s: bytes)
    requires s != [] && IsTail(s[0])
    ensures !WellFormed(s)
  {
    WellFormedStep(s);
  }

  /**
   * For well-formed input the output is well-formed exactly when the 4096-byte cap splits no character.
   */
  lemma {:induction false} WellFormedIffUnsplit(s: State, input: bytes)
    requires Settled(s) && WellFormed(input)
    ensures WellFormed(Feed(s, input).out) <==> NothingSplit(s, input)
    decreases |input|
  {
    if input != [] {
      var n := FirstChar(input);
      var c, rest := input[..n], input[n..];
      CharFed(s, c);
      var head := Feed(s, c);
      FeedConcat(s, c, rest);
      WellFormedIffUnsplit(head.state, rest);
      hide Feed, IsChar, SequenceLength;
      var tail := Feed(head.state, rest).out;
      if Unsplit(s, c) {
        if head.out == c { CharWellFormed(c); }
        WellFormedConcat(head.out, tail);
      } else {
        TailFirst(head.out + tail);
      }
    }
  }

  function Repeat(b: byte, n: nat): (text: bytes) {
    seq(n, _ => b)
  }

  /** A well-formed input whose output is not: the cap cuts an `é` behind a long control string in two. */
  lemma CapSplitsCharacter()
    ensures
      var input := [ESC, 0x5D] + Repeat(0x61, 4093) + [0xC3, 0xA9];
      WellFormed(input) && Sanitized(input) == [0xA9] && !WellFormed(Sanitized(input))
  {
    var body, tail: bytes := Repeat(0x61, 4093), [0xC3, 0xA9];
    var input := [ESC, 0x5D] + body + tail;
    LongStringWellFormed(body, tail);
    LongStringCut(body, tail);
    TailFirst([0xA9]);
  }

  lemma LongStringWellFormed(body: bytes, tail: bytes)
    requires body == Repeat(0x61, 4093) && tail == [0xC3, 0xA9]
    ensures WellFormed([ESC, 0x5D] + body + tail)
  {
    AsciiWellFormed([ESC, 0x5D] + body);
    CharWellFormed(tail);
    WellFormedConcat([ESC, 0x5D] + body, tail);
  }

  lemma LongStringCut(body: bytes, tail: bytes)
    requires body == Repeat(0x61, 4093) && tail == [0xC3, 0xA9]
    ensures Sanitized([ESC, 0x5D] + body + tail) == [0xA9]
  {
    var input := [ESC, 0x5D] + body + tail;
    TwoBytes(START, input);
    assert input[2..] == body + tail;
    assert StringBytes(body) && |body| == 4093;
    BodySwallowed(2, body);
    FeedConcat(State(ControlString, 2), body, tail);
    TwoBytes(State(ControlString, 4095), tail);
    assert tail[2..] == [];
    NothingFed(START);
    hide Feed;
  }

  // ----- the object -----

  class Sanitizer {
    var phase: Phase
    var swallowed: nat

    ghost function View(): (next: State)
      reads this
    {
      State(phase, swallowed)
    }

    constructor ()
      ensures View() == START
    {
      phase, swallowed := Normal, 0;
    }

    method CheckCap()
      modifies this
      ensures View() == Capped(old(phase), old(swallowed))
    {
      if swallowed >= MAX_SEQUENCE { phase, swallowed := Normal, 0; }
    }

    method StepByte(b: byte, out: bytes) returns (longer: bytes, again: bool)
      modifies this
      ensures
        var (fed, repeat) := FeedOne(old(View()), b);
        View() == fed.state && longer == out + fed.out && again == repeat
      ensures again ==> (old(phase) == SawC2 || old(phase) == Escape) && phase == Normal
    {
      longer, again := out, false;
      match phase
      case Normal =>
        if b == ESC {
          phase, swallowed := Escape, 1;
        } else if b == LEAD_C2 {
          phase := SawC2;
        } else if Passes(b) {
          longer := out + [b];
        }
      case SawC2 =>
        phase := Normal;
        if !IsC1(b) { longer, again := out + [LEAD_C2], true; }
      case Escape =>
        if b == OPEN_BRACKET || IsStringIntroducer(b) {
          phase := if b == OPEN_BRACKET then ControlSequence else ControlString;
          swallowed := swallowed + 1;
          CheckCap();
        } else {
          phase, swallowed := Normal, 0;
          again := !(0x20 <= b <= 0x7E);
        }
      case ControlSequence =>
        swallowed := swallowed + 1;
        if 0x40 <= b <= 0x7E { phase, swallowed := Normal, 0; } else { CheckCap(); }
      case ControlString =>
        if b == BEL {
          phase, swallowed := Normal, 0;
        } else {
          swallowed := swallowed + 1;
          if b == ESC { phase := StringEscape; }
          CheckCap();
        }
      case StringEscape =>
        swallowed := swallowed + 1;
        if b == BACKSLASH {
          phase, swallowed := Normal, 0;
        } else {
          phase := ControlString;
          CheckCap();
        }
    }

    /** Runs of ordinary bytes are copied in one piece; every other byte goes through the machine. */
    method FeedChunk(input: bytes, out: bytes) returns (longer: bytes)
      modifies this
      ensures View() == Feed(old(View()), input).state
      ensures longer == out + Feed(old(View()), input).out
    {
      hide Feed, FeedOne, Passes;
      longer := out;
      var i := 0;
      assert input[0..] == input;
      while i < |input|
        invariant i <= |input|
        invariant Feed(old(View()), input).state == Feed(View(), input[i..]).state
        invariant out + Feed(old(View()), input).out == longer + Feed(View(), input[i..]).out
        decreases |input| - i, if phase == SawC2 || phase == Escape then 1 else 0
      {
        if phase == Normal && Passes(input[i]) {
          var start := i;
          ghost var before := longer;
          assert View().phase.Normal?;
          while i < |input| && Passes(input[i])
            invariant start <= i <= |input| && View() == State(Normal, swallowed)
            invariant start < i || Passes(input[start])
            invariant Feed(old(View()), input).state == Feed(View(), input[i..]).state
            invariant
              out + Feed(old(View()), input).out == before + input[start..i] + Feed(View(), input[i..]).out
          {
            PlainStep(View(), input, i, before + input[start..i]);
            assert before + input[start..i] + [input[i]] == before + input[start..i + 1];
            i := i + 1;
          }
          longer := longer + input[start..i];
        } else {
          ghost var state, seen := View(), longer;
          var again;
          longer, again := StepByte(input[i], longer);
          ByteStep(state, input, i, seen);
          if !again { i := i + 1; }
        }
      }
      assert input[i..] == [];
      NothingFed(View());
    }
  }

  lemma NothingFed(s: State)
    ensures Feed(s, []) == Fed(s, [])
  {
  }

  lemma PlainStep(s: State, input: bytes, i: nat, out: bytes)
    requires i < |input| && s.phase.Normal? && Passes(input[i])
    ensures Feed(s, input[i..]).state == Feed(s, input[i + 1..]).state
    ensures out + Feed(s, input[i..]).out == out + [input[i]] + Feed(s, input[i + 1..]).out
  {
    assert input[i..][1..] == input[i + 1..];
    assert out + ([input[i]] + Feed(s, input[i + 1..]).out) == out + [input[i]] + Feed(s, input[i + 1..]).out;
  }

  /** One call of the step: the rest of the input from the state it leaves, with or without this byte. */
  lemma ByteStep(s: State, input: bytes, i: nat, out: bytes)
    requires i < |input|
    ensures
      var (fed, again) := FeedOne(s, input[i]);
      var rest := Feed(fed.state, if again then input[i..] else input[i + 1..]);
      && Feed(s, input[i..]).state == rest.state
      && out + Feed(s, input[i..]).out == out + fed.out + rest.out
  {
    var (fed, again) := FeedOne(s, input[i]);
    assert input[i..][1..] == input[i + 1..];
    var rest := Feed(fed.state, if again then input[i..] else input[i + 1..]);
    if again {
      var second := FeedOne(fed.state, input[i]).0;
      var tail := Feed(second.state, input[i + 1..]);
      assert !FeedOne(fed.state, input[i]).1;
      assert fed.out + second.out + tail.out == fed.out + (second.out + tail.out);
    }
    assert out + (fed.out + rest.out) == out + fed.out + rest.out;
  }
}