/** Inline Markdown as src/cli_markdown_inline.c reads it: delimiter runs and code spans. */
module MarkdownInline {
  import opened Basics
  import opened Emphasis

  const STAR: byte := 0x2A
  const UNDERSCORE: byte := 0x5F
  const BACKTICK: byte := 0x60

  datatype CharClass = Whitespace | Punctuation | Other

  function ClassifyByte(c: byte): (result: CharClass) {
    if c == 0x20 || 0x09 <= c <= 0x0D then Whitespace
    else if 0x21 <= c <= 0x2F || 0x3A <= c <= 0x40 || 0x5B <= c <= 0x60 || 0x7B <= c <= 0x7E then Punctuation
    else Other
  }

  /** The start of the text counts as whitespace, and so does its end. */
  function ClassifyBefore(text: bytes, start: nat): (c: CharClass)
    requires start <= |text|
  {
    if start == 0 then Whitespace else ClassifyByte(text[start - 1])
  }

  function ClassifyAfter(text: bytes, end: nat): (c: CharClass) {
    if end >= |text| then Whitespace else ClassifyByte(text[end])
  }

  /** Where the run of bytes `c` that goes on at `i` ends. */
  function RunEnd(text: bytes, i: nat, c: byte): (end: nat)
    requires i <= |text|
    ensures i <= end <= |text|
    ensures forall k :: i <= k < end ==> text[k] == c
    ensures end < |text| ==> text[end] != c
    decreases |text| - i
  {
    if i < |text| && text[i] == c then RunEnd(text, i + 1, c) else i
  }

  // ----- delimiter runs -----

  predicate IsDelimiter(c: byte) {
    c == STAR || c == UNDERSCORE
  }

  predicate LeftFlanking(before: CharClass, after: CharClass) {
    !after.Whitespace? && (!after.Punctuation? || !before.Other?)
  }

  predicate RightFlanking(before: CharClass, after: CharClass) {
    !before.Whitespace? && (!before.Punctuation? || !after.Other?)
  }

  /** Rules 1 to 8 of section 6.2 of CommonMark, for runs of up to three; longer ones do nothing. */
  function MakeRun(text: bytes, start: nat, end: nat): (result: Run)
    requires start < end <= |text|
  {
    var before, after := ClassifyBefore(text, start), ClassifyAfter(text, end);
    var left, right := LeftFlanking(before, after), RightFlanking(before, after);
    var star := text[start] == STAR;
    Run(start, end - start, if star then Star else Underscore,
        end - start <= 3 && left && (star || !right || before.Punctuation?),
        end - start <= 3 && right && (star || !left || after.Punctuation?))
  }

  function Tokens(text: bytes, i: nat): (runs: seq<Run>)
    requires i <= |text|
    decreases |text| - i
  {
    if i == |text| then []
    else if IsDelimiter(text[i]) then
      var end := RunEnd(text, i + 1, text[i]);
      [MakeRun(text, i, end)] + Tokens(text, end)
    else Tokens(text, i + 1)
  }

  predicate InRun(run: Run, k: nat) {
    run.start <= k < run.start + run.len
  }

  /** A maximal run of one delimiter byte. */
  predicate Maximal(text: bytes, run: Run) {
    && 0 < run.len && run.start + run.len <= |text|
    && var c := if run.kind.Star? then STAR else UNDERSCORE;
       && (forall k :: run.start <= k < run.start + run.len ==> text[k] == c)
       && (run.start > 0 ==> text[run.start - 1] != c)
       && (run.start + run.len < |text| ==> text[run.start + run.len] != c)
  }

  predicate RunOfByte(runs: seq<Run>, k: nat) {
    exists a :: 0 <= a < |runs| && InRun(runs[a], k)
  }

  predicate Boundary(text: bytes, i: nat)
    requires i <= |text|
  {
    0 < i < |text| && IsDelimiter(text[i]) ==> text[i - 1] != text[i]
  }

  lemma FirstRun(text: bytes, i: nat)
    requires i < |text| && Boundary(text, i) && IsDelimiter(text[i])
    ensures
      var end := RunEnd(text, i + 1, text[i]);
      Maximal(text, MakeRun(text, i, end)) && Boundary(text, end)
  {
  }

  predicate AllMaximal(text: bytes, runs: seq<Run>, from: nat) {
    forall a :: 0 <= a < |runs| ==> Maximal(text, runs[a]) && from <= runs[a].start
  }

  lemma LaidCons(first: Run, rest: seq<Run>, length: nat)
    requires first.start + first.len <= length && Laid(rest, length)
    requires forall a :: 0 <= a < |rest| ==> first.start + first.len <= rest[a].start
    ensures Laid([first] + rest, length)
  {
  }

  /** The runs from `i` on are maximal and in order. */
  lemma {:induction false} TokensMaximal(text: bytes, i: nat)
    requires i <= |text| && Boundary(text, i)
    ensures Laid(Tokens(text, i), |text|) && AllMaximal(text, Tokens(text, i), i)
    decreases |text| - i
  {
    hide Maximal, Laid, MakeRun;
    if i < |text| {
      if IsDelimiter(text[i]) {
        var end := RunEnd(text, i + 1, text[i]);
        FirstRun(text, i);
        TokensMaximal(text, end);
        RunPlace(text, i, end);
        LaidCons(MakeRun(text, i, end), Tokens(text, end), |text|);
      } else {
        TokensMaximal(text, i + 1);
      }
    } else {
      NoRuns(|text|);
    }
  }

  lemma NoRuns(length: nat)
    ensures Laid([], length)
  {
  }

  lemma RunPlace(text: bytes, start: nat, end: nat)
    requires start < end <= |text|
    ensures MakeRun(text, start, end).start == start && MakeRun(text, start, end).len == end - start
  {
  }

  /** They hold every delimiter byte from there on. */
  lemma {:induction false} TokensCover(text: bytes, i: nat, k: nat)
    requires i <= k < |text| && IsDelimiter(text[k])
    ensures RunOfByte(Tokens(text, i), k)
    decreases |text| - i
  {
    if IsDelimiter(text[i]) {
      var end := RunEnd(text, i + 1, text[i]);
      var first, rest := MakeRun(text, i, end), Tokens(text, end);
      if k < end {
        assert InRun(([first] + rest)[0], k);
      } else {
        TokensCover(text, end, k);
        var a :| 0 <= a < |rest| && InRun(rest[a], k);
        assert InRun(([first] + rest)[a + 1], k);
      }
    } else {
      TokensCover(text, i + 1, k);
    }
  }

  method Tokenize(text: bytes) returns (runs: seq<Run>)
    ensures runs == Tokens(text, 0)
  {
    runs := [];
    var i := 0;
    while i < |text|
      invariant i <= |text| && runs + Tokens(text, i) == Tokens(text, 0)
    {
      var c := text[i];
      if IsDelimiter(c) {
        var start := i;
        i := i + 1;
        while i < |text| && text[i] == c
          invariant start < i <= |text| && RunEnd(text, i, c) == RunEnd(text, start + 1, c)
        {
          i := i + 1;
        }
        assert runs + ([MakeRun(text, start, i)] + Tokens(text, i))
            == runs + [MakeRun(text, start, i)] + Tokens(text, i);
        runs := runs + [MakeRun(text, start, i)];
      } else {
        i := i + 1;
      }
    }
  }

  // ----- code spans -----

  /** An opening run of `ticks` backticks at `start` and the closing one at `close`. */
  datatype CodeSpan = CodeSpan(start: nat, ticks: nat, close: nat)

  /** The next run of exactly `ticks` backticks, from a place where a run may start. */
  function FindClose(text: bytes, j: nat, ticks: nat): (found: Option<nat>)
    requires j <= |text|
    ensures found.Some? ==>
      && j <= found.value < |text| && text[found.value] == BACKTICK
      && RunEnd(text, found.value, BACKTICK) == found.value + ticks
    decreases |text| - j
  {
    if j == |text| then None
    else if text[j] != BACKTICK then FindClose(text, j + 1, ticks)
    else
      var end := RunEnd(text, j, BACKTICK);
      if end - j == ticks then Some(j) else FindClose(text, end, ticks)
  }

  function CodeSpans(text: bytes, i: nat): (result: seq<CodeSpan>)
    requires i <= |text|
    decreases |text| - i
  {
    if i == |text| then []
    else if text[i] != BACKTICK then CodeSpans(text, i + 1)
    else
      var end := RunEnd(text, i, BACKTICK);
      match FindClose(text, end, end - i)
      case None => CodeSpans(text, end)
      case Some(close) => [CodeSpan(i, end - i, close)] + CodeSpans(text, close + (end - i))
  }

  /** Two runs of equally many backticks, the closing one behind the opening one. */
  predicate SpanGood(text: bytes, s: CodeSpan) {
    && 0 < s.ticks && s.start + s.ticks <= s.close && s.close + s.ticks <= |text|
    && (forall k :: s.start <= k < s.start + s.ticks ==> text[k] == BACKTICK)
    && (forall k :: s.close <= k < s.close + s.ticks ==> text[k] == BACKTICK)
    && (s.start + s.ticks < |text| ==> text[s.start + s.ticks] != BACKTICK)
    && (s.close + s.ticks < |text| ==> text[s.close + s.ticks] != BACKTICK)
  }

  predicate SpansApart(spans: seq<CodeSpan>, from: nat) {
    && (forall a :: 0 <= a < |spans| ==> from <= spans[a].start)
    && forall a, b :: 0 <= a < b < |spans| ==> spans[a].close + spans[a].ticks <= spans[b].start
  }

  lemma SpanHead(text: bytes, i: nat)
    requires i < |text| && text[i] == BACKTICK
    ensures
      var end := RunEnd(text, i, BACKTICK);
      var found := FindClose(text, end, end - i);
      found.Some? ==> SpanGood(text, CodeSpan(i, end - i, found.value))
  {
    var end := RunEnd(text, i, BACKTICK);
    var found := FindClose(text, end, end - i);
    if found.Some? { assert RunEnd(text, found.value, BACKTICK) == found.value + (end - i); }
  }

  predicate SpansGood(text: bytes, spans: seq<CodeSpan>, from: nat) {
    SpansApart(spans, from) && forall a :: 0 <= a < |spans| ==> SpanGood(text, spans[a])
  }

  lemma SpansCons(text: bytes, first: CodeSpan, rest: seq<CodeSpan>, from: nat)
    requires SpansGood(text, rest, first.close + first.ticks) && SpanGood(text, first) && from <= first.start
    ensures SpansGood(text, [first] + rest, from)
  {
  }

  lemma SpansLower(text: bytes, spans: seq<CodeSpan>, from: nat, lower: nat)
    requires SpansGood(text, spans, from) && lower <= from
    ensures SpansGood(text, spans, lower)
  {
  }

  lemma NoSpans(text: bytes, from: nat)
    ensures SpansGood(text, [], from)
  {
  }

  lemma CodeSpansAt(text: bytes, i: nat)
    requires i < |text|
    ensures text[i] != BACKTICK ==> CodeSpans(text, i) == CodeSpans(text, i + 1)
    ensures
      text[i] == BACKTICK ==>
        var end := RunEnd(text, i, BACKTICK);
        match FindClose(text, end, end - i)
        case None => CodeSpans(text, i) == CodeSpans(text, end)
        case Some(close) =>
          && SpanGood(text, CodeSpan(i, end - i, close))
          && CodeSpans(text, i) == [CodeSpan(i, end - i, close)] + CodeSpans(text, close + (end - i))
  {
    hide SpanGood;
    if text[i] == BACKTICK { SpanHead(text, i); }
  }

  /** The spans from `i` on are in order, apart, and each closed by a run as long as the one that opened it. */
  lemma {:induction false} CodeSpansGood(text: bytes, i: nat)
    requires i <= |text|
    ensures SpansGood(text, CodeSpans(text, i), i)
    decreases |text| - i
  {
    hide SpansGood, SpanGood, FindClose, RunEnd;
    if i == |text| {
      NoSpans(text, i);
    } else {
      hide CodeSpans;
      CodeSpansAt(text, i);
      var end := if text[i] == BACKTICK then RunEnd(text, i, BACKTICK) else i + 1;
      if text[i] == BACKTICK && FindClose(text, end, end - i).Some? {
        var next := FindClose(text, end, end - i).value + (end - i);
        CodeSpansGood(text, next);
        SpansCons(text, CodeSpan(i, end - i, next - (end - i)), CodeSpans(text, next), i);
      } else {
        CodeSpansGood(text, end);
        SpansLower(text, CodeSpans(text, i), end, i);
      }
    }
  }

  function CodeMarked(flags: seq<bool>, spans: seq<CodeSpan>): (marks: seq<bool>) {
    if spans == [] then flags
    else
      var s := spans[|spans| - 1];
      Mark(Mark(CodeMarked(flags, spans[..|spans| - 1]), s.start, s.start + s.ticks), s.close, s.close + s.ticks)
  }

  function Guarded(flags: seq<bool>, spans: seq<CodeSpan>): (marks: seq<bool>) {
    if spans == [] then flags
    else
      var s := spans[|spans| - 1];
      Mark(Guarded(flags, spans[..|spans| - 1]), s.start, s.close + s.ticks)
  }

  function PaintCode(style: seq<Style>, from: nat, to: nat): (styles: seq<Style>) {
    seq(|style|, k requires 0 <= k < |style| => if from <= k < to then style[k].(code := true) else style[k])
  }

  function CodePainted(style: seq<Style>, spans: seq<CodeSpan>): (styles: seq<Style>) {
    if spans == [] then style
    else
      var s := spans[|spans| - 1];
      PaintCode(CodePainted(style, spans[..|spans| - 1]), s.start + s.ticks, s.close)
  }

  lemma {:induction false} CodeSizes(flags: seq<bool>, style: seq<Style>, spans: seq<CodeSpan>)
    ensures |CodeMarked(flags, spans)| == |flags| == |Guarded(flags, spans)|
    ensures |CodePainted(style, spans)| == |style|
  {
    if spans != [] { CodeSizes(flags, style, spans[..|spans| - 1]); }
  }

  /** Code spans strip backticks only. */
  lemma {:induction false} CodeStripsTicks(text: bytes, spans: seq<CodeSpan>, k: nat)
    requires k < |text| && forall a :: 0 <= a < |spans| ==> SpanGood(text, spans[a])
    ensures |CodeMarked(Clear(|text|), spans)| == |text|
    ensures CodeMarked(Clear(|text|), spans)[k] ==> text[k] == BACKTICK
    decreases |spans|
  {
    if spans != [] {
      assert SpanGood(text, spans[|spans| - 1]);
      CodeStripsTicks(text, spans[..|spans| - 1], k);
    }
  }

  function Clear(n: nat): (marks: seq<bool>) {
    seq(n, _ => false)
  }

  function Plain(n: nat): (styles: seq<Style>) {
    seq(n, _ => Style(false, false, false))
  }

  method FindClosing(text: bytes, from: nat, ticks: nat) returns (found: Option<nat>)
    requires from <= |text|
    ensures found == FindClose(text, from, ticks)
  {
    var j := from;
    while j < |text|
      invariant from <= j <= |text| && FindClose(text, j, ticks) == FindClose(text, from, ticks)
    {
      if text[j] == BACKTICK {
        var start := j;
        while j < |text| && text[j] == BACKTICK
          invariant start <= j <= |text| && RunEnd(text, j, BACKTICK) == RunEnd(text, start, BACKTICK)
          invariant start < j || (j < |text| && text[j] == BACKTICK)
        {
          j := j + 1;
        }
        if j - start == ticks { return Some(start); }
      } else {
        j := j + 1;
      }
    }
    return None;
  }

  method PaintCodeRange(style: array<Style>, from: nat, to: nat)
    requires from <= to <= style.Length
    modifies style
    ensures style[..] == PaintCode(old(style[..]), from, to)
  {
    ghost var before := style[..];
    var k := from;
    while k < to
      invariant from <= k <= to
      invariant forall j :: 0 <= j < style.Length ==>
        style[j] == if from <= j < k then before[j].(code := true) else before[j]
    {
      style[k] := style[k].(code := true);
      k := k + 1;
    }
    assert style[..] == PaintCode(before, from, to);
  }

  lemma SpanSnoc(flags: seq<bool>, style: seq<Style>, spans: seq<CodeSpan>, s: CodeSpan)
    ensures CodeMarked(flags, spans + [s])
         == Mark(Mark(CodeMarked(flags, spans), s.start, s.start + s.ticks), s.close, s.close + s.ticks)
    ensures Guarded(flags, spans + [s]) == Mark(Guarded(flags, spans), s.start, s.close + s.ticks)
    ensures CodePainted(style, spans + [s]) == PaintCode(CodePainted(style, spans), s.start + s.ticks, s.close)
  {
    assert (spans + [s])[..|spans|] == spans;
  }

  method ApplySpan(s: CodeSpan, stripped: array<bool>, style: array<Style>, guard: array<bool>)
    requires s.start + s.ticks <= s.close && s.close + s.ticks <= stripped.Length
    requires stripped.Length == style.Length == guard.Length && stripped != guard
    modifies stripped, style, guard
    ensures stripped[..] == Mark(Mark(old(stripped[..]), s.start, s.start + s.ticks), s.close, s.close + s.ticks)
    ensures guard[..] == Mark(old(guard[..]), s.start, s.close + s.ticks)
    ensures style[..] == PaintCode(old(style[..]), s.start + s.ticks, s.close)
  {
    MarkRange(stripped, s.start, s.start + s.ticks);
    MarkRange(stripped, s.close, s.close + s.ticks);
    MarkRange(guard, s.start, s.close + s.ticks);
    PaintCodeRange(style, s.start + s.ticks, s.close);
  }

  /** Both delimiter runs are stripped, the interior is code, and the whole is closed to emphasis. */
  method ResolveCodeSpans(text: bytes, stripped: array<bool>, style: array<Style>, guard: array<bool>)
    requires stripped.Length == style.Length == guard.Length == |text| && stripped != guard
    modifies stripped, style, guard
    ensures stripped[..] == CodeMarked(old(stripped[..]), CodeSpans(text, 0))
    ensures guard[..] == Guarded(old(guard[..]), CodeSpans(text, 0))
    ensures style[..] == CodePainted(old(style[..]), CodeSpans(text, 0))
  {
    hide Mark, PaintCode, FindClose, SpanGood;
    ghost var flags, styles, guards := stripped[..], style[..], guard[..];
    ghost var done: seq<CodeSpan> := [];
    NothingApplied(flags, guards, styles);
    var i := 0;
    while i < |text|
      invariant i <= |text| && done + CodeSpans(text, i) == CodeSpans(text, 0)
      invariant stripped[..] == CodeMarked(flags, done) && guard[..] == Guarded(guards, done)
      invariant style[..] == CodePainted(styles, done)
    {
      hide CodeMarked, Guarded, CodePainted;
      if text[i] == BACKTICK {
        var start := i;
        while i < |text| && text[i] == BACKTICK
          invariant start <= i <= |text| && RunEnd(text, i, BACKTICK) == RunEnd(text, start, BACKTICK)
          invariant start < i || (i < |text| && text[i] == BACKTICK)
        {
          i := i + 1;
        }
        var found := FindClosing(text, i, i - start);
        if found.Some? {
          var span := CodeSpan(start, i - start, found.value);
          SpanHead(text, start);
          SpanFits(text, span);
          SpanSnoc(flags, styles, done, span);
          SpanSnoc(guards, styles, done, span);
          ApplySpan(span, stripped, style, guard);
          Reassociate(done, span, CodeSpans(text, found.value + (i - start)));
          done := done + [span];
          i := found.value + (i - start);
        }
      } else {
        i := i + 1;
      }
    }
    assert done + [] == done;
  }

  lemma Reassociate(done: seq<CodeSpan>, span: CodeSpan, rest: seq<CodeSpan>)
    ensures done + ([span] + rest) == done + [span] + rest
  {
  }

  lemma SpanFits(text: bytes, s: CodeSpan)
    requires SpanGood(text, s)
    ensures 0 < s.ticks && s.start + s.ticks <= s.close && s.close + s.ticks <= |text|
  {
  }

  lemma NothingApplied(flags: seq<bool>, guards: seq<bool>, style: seq<Style>)
    ensures CodeMarked(flags, []) == flags && Guarded(guards, []) == guards && CodePainted(style, []) == style
  {
  }
}
