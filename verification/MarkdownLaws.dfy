/** What an inline parse takes away from a text, and what it never touches. */
module MarkdownLaws {
  import opened Basics
  import opened Emphasis
  import opened MarkdownInline
  import opened MarkdownOutput

  predicate InCode(s: CodeSpan, k: nat) {
    s.start + s.ticks <= k < s.close
  }

  predicate InSpan(s: CodeSpan, k: nat) {
    s.start <= k < s.close + s.ticks
  }

  /** A byte is guarded when some code span holds it, and code when some interior does. */
  lemma {:induction false} CodeWhere(n: nat, spans: seq<CodeSpan>, k: nat)
    requires k < n
    ensures |Guarded(Clear(n), spans)| == |CodePainted(Plain(n), spans)| == n
    ensures Guarded(Clear(n), spans)[k] <==> exists a :: 0 <= a < |spans| && InSpan(spans[a], k)
    ensures CodePainted(Plain(n), spans)[k].code <==> exists a :: 0 <= a < |spans| && InCode(spans[a], k)
    ensures !CodePainted(Plain(n), spans)[k].bold && !CodePainted(Plain(n), spans)[k].italic
    decreases |spans|
  {
    if spans != [] {
      var init, last := spans[..|spans| - 1], spans[|spans| - 1];
      CodeWhere(n, init, k);
      CodeSizes(Clear(n), Plain(n), init);
      assert spans == init + [last];
    }
  }

  /** A run that starts outside every code span lies outside them: a span begins with a backtick. */
  lemma RunOutside(text: bytes, run: Run, s: CodeSpan, k: nat)
    requires Maximal(text, run) && SpanGood(text, s) && !InSpan(s, run.start) && InRun(run, k)
    ensures !InSpan(s, k)
  {
    assert text[s.start] == BACKTICK;
  }

  /** The runs emphasis works on are maximal, in order, and outside every code span. */
  lemma EmphasisRunsGood(text: bytes)
    ensures Laid(EmphasisRuns(text), |text|)
    ensures
      forall a :: 0 <= a < |EmphasisRuns(text)| ==>
        && Maximal(text, EmphasisRuns(text)[a])
        && forall b :: 0 <= b < |CodeSpans(text, 0)| ==> !InSpan(CodeSpans(text, 0)[b], EmphasisRuns(text)[a].start)
  {
    hide Tokens, CodeSpans, Laid, Guarded, FilterRuns;
    var runs, spans, guard := Tokens(text, 0), CodeSpans(text, 0), Guarded(Clear(|text|), CodeSpans(text, 0));
    TokensMaximal(text, 0);
    FilterKeeps(runs, guard, |text|);
    forall a | 0 <= a < |EmphasisRuns(text)|
      ensures Maximal(text, EmphasisRuns(text)[a])
      ensures forall b :: 0 <= b < |spans| ==> !InSpan(spans[b], EmphasisRuns(text)[a].start)
    {
      var run := EmphasisRuns(text)[a];
      assert run in runs;
      CodeWhere(|text|, spans, run.start);
    }
  }

  lemma EmphasisUntouched(text: bytes)
    ensures |CodeMarked(Clear(|text|), CodeSpans(text, 0))| == |text|
    ensures Untouched(CodeMarked(Clear(|text|), CodeSpans(text, 0)), EmphasisRuns(text))
  {
    hide EmphasisRuns, CodeSpans, CodeMarked, Laid, SpanGood, Maximal;
    var runs, spans := EmphasisRuns(text), CodeSpans(text, 0);
    EmphasisRunsGood(text);
    CodeSpansGood(text, 0);
    CodeSizes(Clear(|text|), Plain(|text|), spans);
    forall a, i | 0 <= a < |runs| && runs[a].start <= i < runs[a].start + runs[a].len && i < |text|
      ensures !CodeMarked(Clear(|text|), spans)[i]
    {
      RunBytes(text, runs[a], i);
      CodeStripsTicks(text, spans, i);
    }
  }

  lemma RunBytes(text: bytes, run: Run, k: nat)
    requires Maximal(text, run) && InRun(run, k)
    ensures k < |text| && IsDelimiter(text[k]) && text[k] != BACKTICK
  {
  }

  /** Only delimiter bytes are ever taken away: `*` and `_` by emphasis, backticks by code spans. */
  lemma OnlyDelimitersStripped(text: bytes, k: nat)
    requires k < |text|
    ensures |StrippedFlags(text)| == |text|
    ensures StrippedFlags(text)[k] ==> IsDelimiter(text[k]) || text[k] == BACKTICK
  {
    var runs, spans := EmphasisRuns(text), CodeSpans(text, 0);
    var m := Matched(runs, |runs|);
    ParseSizes(text);
    EmphasisRunsGood(text);
    CodeSpansGood(text, 0);
    MatchedGood(runs, |runs|);
    CodeSizes(Clear(|text|), Plain(|text|), spans);
    CodeStripsTicks(text, spans, k);
    MarkedWhere(CodeMarked(Clear(|text|), spans), runs, m, |runs|, k);
    hide EmphasisRuns, CodeSpans, CodeMarked, Laid, SpanGood, Maximal, Marked, Matched, Good;
    if SomeStripped(runs, m, |runs|, k) { StrippedInRun(text, runs, m, k); }
  }

  lemma StrippedInRun(text: bytes, runs: seq<Run>, m: Matching, k: nat)
    requires |m.remaining| == |m.asOpener| == |m.asCloser| == |runs| && Conserved(runs, m)
    requires forall a :: 0 <= a < |runs| ==> Maximal(text, runs[a])
    requires SomeStripped(runs, m, |runs|, k)
    ensures k < |text| && IsDelimiter(text[k])
    ensures exists a :: 0 <= a < |runs| && InRun(runs[a], k)
  {
    var a :| 0 <= a < |runs| && InStripped(runs, m, a, k);
    assert m.asOpener[a] + m.asCloser[a] + m.remaining[a] == Budget(runs[a]);
    assert InRun(runs[a], k);
    RunBytes(text, runs[a], k);
  }

  /** The inside of a code span is shown whole, as code, whatever it holds. */
  lemma CodeInteriorKept(text: bytes, a: nat, k: nat)
    requires a < |CodeSpans(text, 0)| && InCode(CodeSpans(text, 0)[a], k)
    ensures k < |StrippedFlags(text)| && !StrippedFlags(text)[k]
  {
    hide EmphasisRuns, CodeSpans, CodeMarked, Laid, Maximal, Marked, Matched, Conserved;
    var runs, spans := EmphasisRuns(text), CodeSpans(text, 0);
    var m := Matched(runs, |runs|);
    CodeSpansGood(text, 0);
    assert SpanGood(text, spans[a]);
    ParseSizes(text);
    EmphasisRunsGood(text);
    MatchedGood(runs, |runs|);
    CodeSizes(Clear(|text|), Plain(|text|), spans);
    InteriorUnmarked(text, spans, a, k);
    MarkedWhere(CodeMarked(Clear(|text|), spans), runs, m, |runs|, k);
    assert InSpan(spans[a], k);
    if SomeStripped(runs, m, |runs|, k) {
      StrippedInRun(text, runs, m, k);
      var b :| 0 <= b < |runs| && InRun(runs[b], k);
      RunOutside(text, runs[b], spans[a], k);
    }
  }

  lemma {:induction false} InteriorUnmarked(text: bytes, spans: seq<CodeSpan>, a: nat, k: nat)
    requires SpansGood(text, spans, 0) && a < |spans| && InCode(spans[a], k) && k < |text|
    ensures |CodeMarked(Clear(|text|), spans)| == |text| && !CodeMarked(Clear(|text|), spans)[k]
  {
    CodeSizes(Clear(|text|), Plain(|text|), spans);
    UnmarkedBy(text, spans, |spans|, a, k);
    assert spans[..|spans|] == spans;
  }

  lemma {:induction false} UnmarkedBy(text: bytes, spans: seq<CodeSpan>, n: nat, a: nat, k: nat)
    requires SpansGood(text, spans, 0) && a < |spans| && InCode(spans[a], k) && k < |text| && n <= |spans|
    ensures |CodeMarked(Clear(|text|), spans[..n])| == |text| && !CodeMarked(Clear(|text|), spans[..n])[k]
    decreases n
  {
    CodeSizes(Clear(|text|), Plain(|text|), spans[..n]);
    if n > 0 {
      UnmarkedBy(text, spans, n - 1, a, k);
      assert spans[..n][..n - 1] == spans[..n - 1];
      assert SpanGood(text, spans[n - 1]) && SpanGood(text, spans[a]);
    }
  }

  // ----- how much is taken away -----

  function Ticks(spans: seq<CodeSpan>): (n: nat) {
    if spans == [] then 0 else Ticks(spans[..|spans| - 1]) + spans[|spans| - 1].ticks
  }

  lemma {:induction false} NothingCounted(n: nat)
    ensures Count(Clear(n)) == 0
  {
    if n > 0 {
      NothingCounted(n - 1);
      assert Clear(n)[..n - 1] == Clear(n - 1);
    }
  }

  lemma {:induction false} BehindUnmarked(text: bytes, spans: seq<CodeSpan>, n: nat, k: nat)
    requires SpansGood(text, spans, 0) && n < |spans| && spans[n].start <= k < |text|
    ensures |CodeMarked(Clear(|text|), spans[..n])| == |text| && !CodeMarked(Clear(|text|), spans[..n])[k]
  {
    CodeSizes(Clear(|text|), Plain(|text|), spans[..n]);
    StaysUnmarked(text, spans, n, n, k);
  }

  lemma {:induction false} StaysUnmarked(text: bytes, spans: seq<CodeSpan>, i: nat, n: nat, k: nat)
    requires SpansGood(text, spans, 0) && i <= n < |spans| && spans[n].start <= k < |text|
    ensures |CodeMarked(Clear(|text|), spans[..i])| == |text| && !CodeMarked(Clear(|text|), spans[..i])[k]
    decreases i
  {
    CodeSizes(Clear(|text|), Plain(|text|), spans[..i]);
    if i > 0 {
      StaysUnmarked(text, spans, i - 1, n, k);
      assert spans[..i][..i - 1] == spans[..i - 1];
      assert SpanGood(text, spans[i - 1]) && spans[i - 1].close + spans[i - 1].ticks <= spans[n].start;
    }
  }

  lemma MarkTwo(flags: seq<bool>, s: CodeSpan)
    requires s.start + s.ticks <= s.close && s.close + s.ticks <= |flags|
    requires forall k :: s.start <= k < s.close + s.ticks ==> !flags[k]
    ensures
      Count(Mark(Mark(flags, s.start, s.start + s.ticks), s.close, s.close + s.ticks)) == Count(flags) + 2 * s.ticks
  {
    hide Count;
    CountMark(flags, s.start, s.start + s.ticks);
    CountMark(Mark(flags, s.start, s.start + s.ticks), s.close, s.close + s.ticks);
  }

  lemma BeforeUnmarked(text: bytes, spans: seq<CodeSpan>, n: nat)
    requires SpansGood(text, spans, 0) && n < |spans|
    ensures
      var before, s := CodeMarked(Clear(|text|), spans[..n]), spans[n];
      && s.start + s.ticks <= s.close && s.close + s.ticks <= |before| == |text|
      && forall k :: s.start <= k < s.close + s.ticks ==> !before[k]
  {
    hide CodeMarked, Clear;
    var before, s := CodeMarked(Clear(|text|), spans[..n]), spans[n];
    assert SpanGood(text, s);
    CodeSizes(Clear(|text|), Plain(|text|), spans[..n]);
    BehindUnmarked(text, spans, n, s.start);
    forall k | s.start <= k < s.close + s.ticks ensures !before[k] { BehindUnmarked(text, spans, n, k); }
  }

  lemma SpanCounts(text: bytes, spans: seq<CodeSpan>, n: nat)
    requires SpansGood(text, spans, 0) && n < |spans|
    ensures Ticks(spans[..n + 1]) == Ticks(spans[..n]) + spans[n].ticks
    ensures
      Count(CodeMarked(Clear(|text|), spans[..n + 1]))
      == Count(CodeMarked(Clear(|text|), spans[..n])) + 2 * spans[n].ticks
  {
    hide Count, SpansGood, Mark, Clear;
    assert spans[..n + 1][..n] == spans[..n];
    BeforeUnmarked(text, spans, n);
    MarkTwo(CodeMarked(Clear(|text|), spans[..n]), spans[n]);
  }

  lemma {:induction false} CodeCounts(text: bytes, spans: seq<CodeSpan>, n: nat)
    requires SpansGood(text, spans, 0) && n <= |spans|
    ensures Count(CodeMarked(Clear(|text|), spans[..n])) == 2 * Ticks(spans[..n])
    decreases n
  {
    if n == 0 {
      NothingCounted(|text|);
    } else {
      CodeCounts(text, spans, n - 1);
      hide Count, CodeMarked, Ticks, SpansGood, Clear;
      SpanCounts(text, spans, n - 1);
    }
  }

  lemma {:induction false} KeptCounts(text: bytes, flags: seq<bool>, n: nat)
    requires n <= |text| == |flags|
    ensures |KeptBytes(text, flags, n)| + Count(flags[..n]) == n
    decreases n
  {
    if n > 0 {
      KeptCounts(text, flags, n - 1);
      assert flags[..n][..n - 1] == flags[..n - 1];
    }
  }

  /** The output is shorter by two backtick runs per code span and two delimiters per delimiter used in a pair. */
  lemma LengthConserved(text: bytes)
    ensures |StrippedFlags(text)| == |text|
    ensures
      var runs := EmphasisRuns(text);
      |KeptBytes(text, StrippedFlags(text), |text|)|
      + 2 * Ticks(CodeSpans(text, 0)) + 2 * PairTotal(Matched(runs, |runs|).pairs) == |text|
  {
    hide EmphasisRuns, CodeSpans, CodeMarked, Laid, Marked, Matched, Untouched, SpansGood, Count, PairTotal, Ticks;
    var runs, spans := EmphasisRuns(text), CodeSpans(text, 0);
    ParseSizes(text);
    CodeSpansGood(text, 0);
    CodeCounts(text, spans, |spans|);
    assert spans[..|spans|] == spans;
    EmphasisUntouched(text);
    EmphasisRunsGood(text);
    StrippedTotal(CodeMarked(Clear(|text|), spans), runs);
    KeptCounts(text, StrippedFlags(text), |text|);
    assert StrippedFlags(text)[..|text|] == StrippedFlags(text);
  }
}
