/** The incremental UTF-8 fixer of src/cli_utf8_stream.c and the batch one of src/cli_conversation.c. */
module Utf8Stream {
  import opened Basics
  import opened Utf8

  const REPLACEMENT: bytes := [0xEF, 0xBF, 0xBD]

  /** The bytes held back and the length their lead byte announced. */
  datatype Fixer = Fixer(pending: bytes, expected: nat)

  const IDLE: Fixer := Fixer([], 0)

  /** A step's new state and output. */
  datatype Fed = Fed(fixer: Fixer, out: bytes)

  predicate Held(f: Fixer) {
    f.pending != [] ==>
      && |f.pending| < f.expected == LeadLength(f.pending[0])
      && forall i :: 1 <= i < |f.pending| ==> IsTail(f.pending[i])
  }

  /** Nothing is held: pass ASCII, hold a lead byte, replace anything else. */
  function FeedFirst(f: Fixer, b: byte): (fed: Fed) {
    var n := LeadLength(b);
    if n == 0 then Fed(f.(pending := []), REPLACEMENT)
    else if n == 1 then Fed(f.(pending := []), [b])
    else Fed(Fixer([b], n), [])
  }

  function FlushPending(f: Fixer): (fed: Fed) {
    var fixer := f.(pending := []);
    if f.pending != [] && SequenceLength(f.pending) == |f.pending| then Fed(fixer, f.pending)
    else Fed(fixer, REPLACEMENT)
  }

  function FeedByte(f: Fixer, b: byte): (fed: Fed) {
    if f.pending == [] then FeedFirst(f, b)
    else if !IsTail(b) then
      var again := FeedFirst(f.(pending := []), b);
      Fed(again.fixer, REPLACEMENT + again.out)
    else
      var longer := f.(pending := f.pending + [b]);
      if |longer.pending| < f.expected then Fed(longer, []) else FlushPending(longer)
  }

  function Feed(f: Fixer, s: bytes): (fed: Fed)
    decreases s
  {
    if s == [] then Fed(f, [])
    else
      var head := FeedByte(f, s[0]);
      var tail := Feed(head.fixer, s[1..]);
      Fed(tail.fixer, head.out + tail.out)
  }

  function FinishOut(f: Fixer): (text: bytes) {
    if f.pending == [] then [] else REPLACEMENT
  }

  /** The whole output for an input fed from the start and finished. */
  function Fixed(s: bytes): (text: bytes) {
    var fed := Feed(IDLE, s);
    fed.out + FinishOut(fed.fixer)
  }

  lemma ByteKeepsHeld(f: Fixer, b: byte)
    requires Held(f)
    ensures Held(FeedByte(f, b).fixer)
  {
  }

  lemma ReplacementWellFormed()
    ensures WellFormed(REPLACEMENT)
  {
    CharWellFormed(REPLACEMENT);
  }

  lemma ByteOutWellFormed(f: Fixer, b: byte)
    requires Held(f)
    ensures WellFormed(FeedByte(f, b).out)
  {
    ReplacementWellFormed();
    var first := FeedFirst(f.(pending := []), b).out;
    assert WellFormed(first) by {
      if LeadLength(b) == 1 { CharWellFormed([b]); }
    }
    WellFormedConcat(REPLACEMENT, first);
    var longer := f.pending + [b];
    if SequenceLength(longer) == |longer| {
      SequenceIsChar(longer, |longer|);
      assert longer[..|longer|] == longer;
      CharWellFormed(longer);
    }
  }

  /** Whatever is fed, everything emitted is well-formed, and so it stays once the stream is finished. */
  lemma {:induction false} OutWellFormed(f: Fixer, s: bytes)
    requires Held(f)
    ensures WellFormed(Feed(f, s).out) && Held(Feed(f, s).fixer)
    ensures WellFormed(Feed(f, s).out + FinishOut(Feed(f, s).fixer))
    decreases s
  {
    ReplacementWellFormed();
    if s != [] {
      var head := FeedByte(f, s[0]);
      ByteKeepsHeld(f, s[0]);
      ByteOutWellFormed(f, s[0]);
      OutWellFormed(head.fixer, s[1..]);
      WellFormedConcat(head.out, Feed(head.fixer, s[1..]).out);
    }
    WellFormedConcat(Feed(f, s).out, FinishOut(Feed(f, s).fixer));
  }

  /** Feeding in two chunks is feeding their concatenation. */
  lemma {:induction false} FeedConcat(f: Fixer, a: bytes, b: bytes)
    ensures
      var first := Feed(f, a);
      var second := Feed(first.fixer, b);
      Feed(f, a + b) == Fed(second.fixer, first.out + second.out)
    decreases a
  {
    hide FeedByte;
    if a == [] {
      assert a + b == b;
    } else {
      var head := FeedByte(f, a[0]);
      FeedConcat(head.fixer, a[1..], b);
      assert (a + b)[1..] == a[1..] + b;
      var mid := Feed(head.fixer, a[1..]);
      assert head.out + (mid.out + Feed(mid.fixer, b).out) == head.out + mid.out + Feed(mid.fixer, b).out;
    }
  }

  function FeedChunks(f: Fixer, chunks: seq<bytes>): (fed: Fed)
    decreases chunks
  {
    if chunks == [] then Fed(f, [])
    else
      var head := Feed(f, chunks[0]);
      var tail := FeedChunks(head.fixer, chunks[1..]);
      Fed(tail.fixer, head.out + tail.out)
  }

  lemma {:induction false} ChunksDoNotMatter(f: Fixer, chunks: seq<bytes>)
    ensures FeedChunks(f, chunks) == Feed(f, Concat(chunks))
    decreases chunks
  {
    if chunks != [] {
      ChunksDoNotMatter(Feed(f, chunks[0]).fixer, chunks[1..]);
      FeedConcat(f, chunks[0], Concat(chunks[1..]));
    }
  }

  /** Bytes still owed for what is held. */
  function Owed(f: Fixer): (n: nat) {
    if f.pending == [] then 0 else 3
  }

  lemma {:induction false} OutBounded(f: Fixer, s: bytes)
    requires Held(f)
    ensures |Feed(f, s).out| + Owed(Feed(f, s).fixer) <= 3 * |s| + Owed(f)
    decreases s
  {
    if s != [] {
      ByteKeepsHeld(f, s[0]);
      OutBounded(FeedByte(f, s[0]).fixer, s[1..]);
    }
  }

  /** The fixed text is at most three times as long as the input. */
  lemma FixedBounded(s: bytes)
    ensures |Fixed(s)| <= 3 * |s|
  {
    OutBounded(IDLE, s);
  }

  lemma FeedTail(f: Fixer, c: bytes)
    requires 0 < |f.pending| && |f.pending| + 1 < f.expected == |c|
    requires f.pending == c[..|f.pending|] && IsTail(c[|f.pending|])
    ensures
      Feed(f, c[|f.pending|..]) == Feed(Fixer(c[..|f.pending| + 1], f.expected), c[|f.pending| + 1..])
  {
    var k := |f.pending|;
    assert c[k..][1..] == c[k + 1..] && f.pending + [c[k]] == c[..k + 1];
    var tail := Feed(Fixer(c[..k + 1], f.expected), c[k + 1..]);
    assert [] + tail.out == tail.out;
  }

  lemma FeedLast(f: Fixer, c: bytes)
    requires 0 < |f.pending| && |f.pending| + 1 == f.expected == |c|
    requires f.pending == c[..|f.pending|] && IsTail(c[|f.pending|]) && SequenceLength(c) == |c|
    ensures Feed(f, c[|f.pending|..]) == Fed(f.(pending := []), c)
  {
    var k := |f.pending|;
    assert c[k..] == [c[k]] && c[k..][1..] == [] && f.pending + [c[k]] == c;
    assert c + [] == c;
  }

  lemma {:induction false} HeldPasses(c: bytes, k: nat)
    requires 0 < k < |c| && SequenceLength(c) == |c| && forall i :: 1 <= i < |c| ==> IsTail(c[i])
    ensures Feed(Fixer(c[..k], |c|), c[k..]) == Fed(Fixer([], |c|), c)
    decreases |c| - k
  {
    if k + 1 == |c| {
      FeedLast(Fixer(c[..k], |c|), c);
    } else {
      FeedTail(Fixer(c[..k], |c|), c);
      HeldPasses(c, k + 1);
    }
  }

  lemma CharPasses(f: Fixer, c: bytes)
    requires IsChar(c) && f.pending == []
    ensures Feed(f, c).out == c && Feed(f, c).fixer.pending == []
  {
    SequenceIsChar(c, |c|);
    assert c[..|c|] == c;
    if |c| == 1 {
      assert c[1..] == [] && FeedByte(f, c[0]).out == c;
    } else {
      assert FeedByte(f, c[0]) == Fed(Fixer([c[0]], |c|), []);
      assert c[..1] == [c[0]];
      HeldPasses(c, 1);
      assert [] + c == c;
    }
  }

  lemma {:induction false} WellFormedPasses(f: Fixer, s: bytes)
    requires WellFormed(s) && f.pending == []
    ensures Feed(f, s).out == s && Feed(f, s).fixer.pending == []
    decreases |s|
  {
    if s != [] {
      hide Feed, IsChar, SequenceLength, WellFormed;
      var n := FirstChar(s);
      CharPasses(f, s[..n]);
      var first := Feed(f, s[..n]);
      WellFormedPasses(first.fixer, s[n..]);
      FeedConcat(f, s[..n], s[n..]);
    }
  }

  /** The fixer leaves a text alone exactly when it is well-formed; its output always is. */
  lemma FixedIsWellFormed(s: bytes)
    ensures WellFormed(Fixed(s))
    ensures Fixed(s) == s <==> WellFormed(s)
    ensures Fixed(Fixed(s)) == Fixed(s)
  {
    OutWellFormed(IDLE, s);
    if WellFormed(s) { WellFormedPasses(IDLE, s); }
    WellFormedPasses(IDLE, Fixed(s));
  }

  // ----- what is replaced -----

  /** A state with nothing held: the length it once expected does not matter. */
  lemma {:induction false} EmptyAlike(f: Fixer, g: Fixer, s: bytes)
    requires f.pending == [] && g.pending == []
    ensures Feed(f, s).out + FinishOut(Feed(f, s).fixer) == Feed(g, s).out + FinishOut(Feed(g, s).fixer)
    decreases s
  {
    if s != [] {
      var a, b := FeedByte(f, s[0]), FeedByte(g, s[0]);
      assert a.out == b.out && (a.fixer == b.fixer || (a.fixer.pending == [] && b.fixer.pending == []));
      if a.fixer != b.fixer { EmptyAlike(a.fixer, b.fixer, s[1..]); }
      Regroup(a.out, Feed(a.fixer, s[1..]).out, FinishOut(Feed(a.fixer, s[1..]).fixer));
      Regroup(b.out, Feed(b.fixer, s[1..]).out, FinishOut(Feed(b.fixer, s[1..]).fixer));
    }
  }

  lemma Regroup(a: bytes, b: bytes, c: bytes)
    ensures a + b + c == a + (b + c)
  {
  }

  /** A start that leaves nothing held. */
  lemma FixedBehind(a: bytes, rest: bytes, out: bytes)
    requires Feed(IDLE, a).out == out && Feed(IDLE, a).fixer.pending == []
    ensures Fixed(a + rest) == out + Fixed(rest)
  {
    hide FeedByte;
    var f := Feed(IDLE, a).fixer;
    FeedConcat(IDLE, a, rest);
    EmptyAlike(f, IDLE, rest);
    Regroup(out, Feed(f, rest).out, FinishOut(Feed(f, rest).fixer));
  }

  /** A character in front is kept. */
  lemma FixedChar(c: bytes, rest: bytes)
    requires IsChar(c)
    ensures Fixed(c + rest) == c + Fixed(rest)
  {
    hide Feed, Fixed;
    CharPasses(IDLE, c);
    FixedBehind(c, rest, c);
  }

  /** The bytes one replacement stands for: a byte that starts nothing, or a lead with the tails it can take. */
  predicate Broken(s: bytes, k: nat) {
    && 0 < k <= |s|
    && var n := if 0xC2 <= s[0] <= 0xDF then 2 else if 0xE0 <= s[0] <= 0xEF then 3
                else if 0xF0 <= s[0] <= 0xF4 then 4 else 1;
       && k <= n && (forall i :: 1 <= i < k ==> 0x80 <= s[i] <= 0xBF)
       && (k == n || k == |s| || !(0x80 <= s[k] <= 0xBF))
  }

  lemma {:induction false} TailsHeld(s: bytes, k: nat)
    requires 0 < k <= |s| && k < LeadLength(s[0]) && forall i :: 1 <= i < k ==> IsTail(s[i])
    ensures Feed(IDLE, s[..k]) == Fed(Fixer(s[..k], LeadLength(s[0])), [])
    decreases k
  {
    if k == 1 {
      assert s[..1] == [s[0]] && [s[0]][1..] == [];
    } else {
      TailsHeld(s, k - 1);
      var f := Fixer(s[..k - 1], LeadLength(s[0]));
      assert s[..k] == s[..k - 1] + [s[k - 1]];
      FeedConcat(IDLE, s[..k - 1], [s[k - 1]]);
      assert [s[k - 1]][1..] == [] && f.pending + [s[k - 1]] == s[..k];
      assert FeedByte(f, s[k - 1]) == Fed(Fixer(s[..k], f.expected), []);
    }
  }

  lemma StrayReplaced(b: byte)
    requires LeadLength(b) == 0
    ensures Feed(IDLE, [b]) == Fed(IDLE, REPLACEMENT)
  {
    assert [b][1..] == [];
    assert REPLACEMENT + [] == REPLACEMENT;
  }

  /** As many tails as the lead can take, and still no character. */
  lemma FullReplaced(s: bytes, n: nat)
    requires 2 <= n <= |s| && n == LeadLength(s[0]) && (forall i :: 1 <= i < n ==> IsTail(s[i])) && !IsChar(s[..n])
    ensures Feed(IDLE, s[..n]).out == REPLACEMENT && Feed(IDLE, s[..n]).fixer.pending == []
  {
    TailsHeld(s, n - 1);
    var f, last := Fixer(s[..n - 1], n), s[n - 1];
    assert s[..n] == s[..n - 1] + [last] && [last][1..] == [];
    FeedConcat(IDLE, s[..n - 1], [last]);
    SequenceIsChar(s[..n], n);
    assert s[..n][..n] == s[..n];
    assert FeedByte(f, last) == Fed(f.(pending := []), REPLACEMENT);
    assert [] + (REPLACEMENT + []) == REPLACEMENT;
  }

  /** A held stretch broken off by another byte. */
  lemma HeldReplaced(f: Fixer, s: bytes)
    requires f.pending != [] && s != [] && !IsTail(s[0])
    ensures
      Feed(f, s).out + FinishOut(Feed(f, s).fixer) == REPLACEMENT + Fixed(s)
  {
    var empty := f.(pending := []);
    var tail := Feed(FeedByte(empty, s[0]).fixer, s[1..]);
    assert FeedByte(f, s[0]) == Fed(FeedByte(empty, s[0]).fixer, REPLACEMENT + FeedByte(empty, s[0]).out);
    EmptyAlike(empty, IDLE, s);
    Regroup(REPLACEMENT, FeedByte(empty, s[0]).out, tail.out);
    Regroup(REPLACEMENT, Feed(empty, s).out, FinishOut(tail.fixer));
    hide FeedByte;
  }

  /** Where no character starts, the longest such stretch becomes one replacement, and the rest is read afresh. */
  lemma FixedBroken(s: bytes, k: nat)
    requires Broken(s, k) && forall n :: 0 < n <= |s| ==> !IsChar(s[..n])
    ensures Fixed(s) == REPLACEMENT + Fixed(s[k..])
  {
    var n := LeadLength(s[0]);
    assert s == s[..k] + s[k..];
    assert n != 1 by { assert !IsChar(s[..1]); }
    if n == 0 {
      StrayReplaced(s[0]);
      assert s[..1] == [s[0]];
      FixedBehind([s[0]], s[1..], REPLACEMENT);
    } else if k == n {
      FullReplaced(s, n);
      FixedBehind(s[..n], s[n..], REPLACEMENT);
    } else {
      TailsHeld(s, k);
      FeedConcat(IDLE, s[..k], s[k..]);
      var held := Fixer(s[..k], n);
      if k < |s| {
        HeldReplaced(held, s[k..]);
        assert [] + Feed(held, s[k..]).out == Feed(held, s[k..]).out;
      } else {
        assert s[k..] == [] && Feed(held, []) == Fed(held, []) && Fixed([]) == [];
      }
    }
  }

  /** `valid_utf8_sequence`: the conversation's own scanner. */
  function ValidSequence(s: bytes): (n: nat) {
    if s == [] then 0
    else if s[0] < 0x80 then 1
    else if 0xC2 <= s[0] <= 0xDF && |s| >= 2 && IsTail(s[1]) then 2
    else if 0xE0 <= s[0] <= 0xEF && |s| >= 3 && IsTail(s[1]) && IsTail(s[2])
            && !(s[0] == 0xE0 && s[1] < 0xA0) && !(s[0] == 0xED && s[1] >= 0xA0)
    then 3
    else if 0xF0 <= s[0] <= 0xF4 && |s| >= 4 && IsTail(s[1]) && IsTail(s[2]) && IsTail(s[3])
            && !(s[0] == 0xF0 && s[1] < 0x90) && !(s[0] == 0xF4 && s[1] >= 0x90)
    then 4
    else 0
  }

  /** Both scanners accept the grammar's characters and nothing else. */
  lemma ScannersAgree(s: bytes)
    ensures ValidSequence(s) == SequenceLength(s)
    ensures forall n :: 0 < n <= |s| ==> (ValidSequence(s) == n <==> IsChar(s[..n]))
  {
    forall n | 0 < n <= |s| ensures ValidSequence(s) == n <==> IsChar(s[..n]) {
      SequenceIsChar(s, n);
    }
  }

  /** `normalize_utf8` without its size limit: each stray byte becomes one replacement. */
  function Normalized(s: bytes): (text: bytes)
    decreases |s|
  {
    if s == [] then []
    else
      var n := ValidSequence(s);
      if n == 0 then REPLACEMENT + Normalized(s[1..])
      else s[..n] + Normalized(s[n..])
  }

  lemma {:induction false} NormalizedWellFormed(s: bytes)
    ensures WellFormed(Normalized(s))
    ensures WellFormed(s) ==> Normalized(s) == s
    decreases |s|
  {
    if s != [] {
      var n := ValidSequence(s);
      WellFormedStep(s);
      ScannersAgree(s);
      if n == 0 {
        NormalizedWellFormed(s[1..]);
        ReplacementWellFormed();
        WellFormedConcat(REPLACEMENT, Normalized(s[1..]));
      } else {
        NormalizedWellFormed(s[n..]);
        CharWellFormed(s[..n]);
        WellFormedConcat(s[..n], Normalized(s[n..]));
      }
    }
  }

  /** A character in front is kept; where none starts, one byte becomes one replacement. */
  lemma NormalizedPieces(c: bytes, rest: bytes)
    ensures IsChar(c) ==> Normalized(c + rest) == c + Normalized(rest)
    ensures
      rest != [] && (forall n :: 0 < n <= |rest| ==> !IsChar(rest[..n])) ==>
        Normalized(rest) == REPLACEMENT + Normalized(rest[1..])
  {
    ScannersAgree(c + rest);
    ScannersAgree(rest);
    if IsChar(c) { assert (c + rest)[..|c|] == c && (c + rest)[|c|..] == rest; }
    if rest != [] && ValidSequence(rest) > 0 { LengthWithin(rest); }
  }

  /** `normalize_utf8`: fails as soon as the output would pass the limit. */
  method NormalizeUtf8(data: bytes, limit: nat) returns (status: Status, output: bytes)
    ensures status == if |Normalized(data)| <= limit then OK else NOMEM
    ensures status == OK ==> output == Normalized(data)
  {
    output := [];
    var offset := 0;
    assert data[0..] == data;
    while offset < |data|
      invariant offset <= |data| && |output| <= limit
      invariant output + Normalized(data[offset..]) == Normalized(data)
    {
      var rest := data[offset..];
      var n := ValidSequence(rest);
      var piece := if n == 0 then REPLACEMENT else rest[..n];
      if |output| + |piece| > limit { return NOMEM, output; }
      assert output + piece + Normalized(rest[if n == 0 then 1 else n..]) == Normalized(data);
      output := output + piece;
      offset := offset + if n == 0 then 1 else n;
      assert rest[if n == 0 then 1 else n..] == data[offset..];
    }
    assert data[offset..] == [];
    return OK, output;
  }

  /** A result behind output already emitted. */
  function After(out: bytes, fed: Fed): (result: Fed) {
    fed.(out := out + fed.out)
  }

  lemma AfterTwice(a: bytes, b: bytes, fed: Fed)
    ensures After(a, After(b, fed)) == After(a + b, fed)
  {
    assert a + (b + fed.out) == a + b + fed.out;
  }

  lemma FeedHead(f: Fixer, s: bytes, i: nat)
    requires i < |s|
    ensures Feed(f, s[i..]) == After(FeedByte(f, s[i]).out, Feed(FeedByte(f, s[i]).fixer, s[i + 1..]))
  {
    assert s[i..][1..] == s[i + 1..];
  }

  class Stream {
    var pending: bytes
    var expectedLen: nat

    ghost function View(): (result: Fixer)
      reads this
    {
      Fixer(pending, expectedLen)
    }

    constructor ()
      ensures View() == IDLE
    {
      pending, expectedLen := [], 0;
    }

    /** `feed_one`: a byte that breaks a held sequence is given back, to be fed again. */
    method FeedOne(b: byte) returns (out: bytes, reprocess: bool)
      modifies this
      ensures reprocess == (old(pending) != [] && !IsTail(b))
      ensures reprocess ==> pending == [] && expectedLen == old(expectedLen) && out == REPLACEMENT
      ensures !reprocess ==> Fed(View(), out) == FeedByte(old(View()), b)
    {
      if |pending| == 0 {
        var n := LeadLength(b);
        if n == 0 { return REPLACEMENT, false; }
        if n == 1 { return [b], false; }
        pending, expectedLen := [b], n;
        return [], false;
      }
      if !IsTail(b) {
        pending := [];
        return REPLACEMENT, true;
      }
      pending := pending + [b];
      if |pending| < expectedLen { return [], false; }
      var n := SequenceLength(pending);
      out := if n == |pending| then pending else REPLACEMENT;
      pending := [];
      return out, false;
    }

    /** `oi_cli_utf8_stream_feed`, with its fast path over ASCII. */
    method FeedBytes(s: bytes) returns (out: bytes)
      modifies this
      ensures Fed(View(), out) == Feed(old(View()), s)
    {
      out := [];
      var i := 0;
      assert s[0..] == s;
      assert [] + Feed(View(), s).out == Feed(View(), s).out;
      while i < |s|
        invariant i <= |s|
        invariant Feed(old(View()), s) == After(out, Feed(View(), s[i..]))
        decreases |s| - i, |pending|
      {
        FeedHead(View(), s, i);
        if |pending| == 0 && s[i] < 0x80 {
          AfterTwice(out, [s[i]], Feed(View(), s[i + 1..]));
          out := out + [s[i]];
          i := i + 1;
        } else {
          var emitted, reprocess := FeedOne(s[i]);
          if reprocess {
            FeedHead(View(), s, i);
            AfterTwice(REPLACEMENT, FeedByte(View(), s[i]).out, Feed(FeedByte(View(), s[i]).fixer, s[i + 1..]));
            AfterTwice(out, emitted, Feed(View(), s[i..]));
          } else {
            AfterTwice(out, emitted, Feed(View(), s[i + 1..]));
            i := i + 1;
          }
          out := out + emitted;
        }
      }
      assert s[i..] == [] && out + [] == out;
    }

    method FinishStream() returns (out: bytes)
      modifies this
      ensures out == FinishOut(old(View())) && pending == []
    {
      if |pending| == 0 { return []; }
      pending := [];
      return REPLACEMENT;
    }
  }
}
