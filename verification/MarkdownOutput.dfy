/** The whole inline parse: what is left of a text, and the spans that say how each byte of it is shown. */
module MarkdownOutput {
  import opened Basics
  import opened Emphasis
  import opened MarkdownInline

  /** A stretch of output bytes shown in one style. */
  datatype Span = Span(start: nat, len: nat, style: Style)

  function KeptBytes(text: bytes, flags: seq<bool>, n: nat): (result: bytes)
    requires n <= |text| == |flags|
  {
    if n == 0 then [] else KeptBytes(text, flags, n - 1) + if flags[n - 1] then [] else [text[n - 1]]
  }

  function KeptStyles(style: seq<Style>, flags: seq<bool>, n: nat): (styles: seq<Style>)
    requires n <= |style| == |flags|
  {
    if n == 0 then [] else KeptStyles(style, flags, n - 1) + if flags[n - 1] then [] else [style[n - 1]]
  }

  /** The style of every byte the spans speak of, in order. */
  function Spread(spans: seq<Span>): (styles: seq<Style>) {
    if spans == [] then []
    else Spread(spans[..|spans| - 1]) + seq(spans[|spans| - 1].len, _ => spans[|spans| - 1].style)
  }

  /** The spans follow one another from 0 to `length`, none empty. */
  predicate Cover(spans: seq<Span>, length: nat) {
    if spans == [] then length == 0
    else
      var last := spans[|spans| - 1];
      0 < last.len <= length && last.start + last.len == length && Cover(spans[..|spans| - 1], last.start)
  }

  lemma CoverSnoc(spans: seq<Span>, start: nat, len: nat, style: Style)
    requires Cover(spans, start) && len > 0
    ensures Cover(spans + [Span(start, len, style)], start + len)
    ensures Spread(spans + [Span(start, len, style)]) == Spread(spans) + seq(len, _ => style)
  {
    assert (spans + [Span(start, len, style)])[..|spans|] == spans;
  }

  /** `oi_cli_md_span_list_covers`. */
  method SpanListCovers(spans: seq<Span>, length: nat) returns (covers: bool)
    ensures covers == Cover(spans, length)
  {
    var expected: nat := 0;
    var i := 0;
    while i < |spans|
      invariant i <= |spans| && Cover(spans[..i], expected)
    {
      if spans[i].start != expected || spans[i].len == 0 {
        if Cover(spans, length) { CoverPrefix(spans, length, i); }
        return false;
      }
      CoverSnoc(spans[..i], expected, spans[i].len, spans[i].style);
      assert spans[..i + 1] == spans[..i] + [Span(expected, spans[i].len, spans[i].style)];
      expected := expected + spans[i].len;
      i := i + 1;
    }
    assert spans[..i] == spans;
    if Cover(spans, length) { CoverUnique(spans, length, expected); }
    return expected == length;
  }

  lemma {:induction false} CoverUnique(spans: seq<Span>, a: nat, b: nat)
    requires Cover(spans, a) && Cover(spans, b)
    ensures a == b
  {
  }

  lemma {:induction false} CoverPrefix(spans: seq<Span>, length: nat, i: nat)
    requires Cover(spans, length) && i < |spans|
    ensures Cover(spans[..i], spans[i].start) && spans[i].len > 0
    decreases |spans|
  {
    var init := spans[..|spans| - 1];
    if i < |init| {
      CoverPrefix(init, spans[|spans| - 1].start, i);
      assert init[..i] == spans[..i];
    }
  }

  lemma {:induction false} KeptBytesRun(text: bytes, flags: seq<bool>, from: nat, end: nat)
    requires from <= end <= |text| == |flags| && forall k :: from <= k < end ==> !flags[k]
    ensures KeptBytes(text, flags, end) == KeptBytes(text, flags, from) + text[from..end]
    decreases end
  {
    if end > from {
      KeptBytesRun(text, flags, from, end - 1);
      assert text[from..end] == text[from..end - 1] + [text[end - 1]];
    }
  }

  lemma {:induction false} KeptStylesRun(style: seq<Style>, flags: seq<bool>, from: nat, end: nat, bits: Style)
    requires from <= end <= |style| == |flags|
    requires forall k :: from <= k < end ==> !flags[k] && style[k] == bits
    ensures KeptStyles(style, flags, end) == KeptStyles(style, flags, from) + seq(end - from, _ => bits)
    decreases end
  {
    if end > from {
      KeptStylesRun(style, flags, from, end - 1, bits);
      assert seq(end - from, _ => bits) == seq(end - 1 - from, _ => bits) + [bits];
    }
  }

  /** What is not stripped, cut into spans of one style each. */
  method Compact(text: bytes, stripped: seq<bool>, style: seq<Style>) returns (out: bytes, spans: seq<Span>)
    requires |stripped| == |style| == |text|
    ensures out == KeptBytes(text, stripped, |text|)
    ensures Spread(spans) == KeptStyles(style, stripped, |text|)
    ensures Cover(spans, |out|)
  {
    hide Cover, Spread, KeptBytes, KeptStyles;
    out, spans := [], [];
    NothingKept(text, stripped, style);
    var i := 0;
    while i < |text|
      invariant i <= |text| && out == KeptBytes(text, stripped, i)
      invariant Spread(spans) == KeptStyles(style, stripped, i) && Cover(spans, |out|)
    {
      if stripped[i] {
        StrippedOne(text, stripped, style, i);
        i := i + 1;
      } else {
        var start, bits := i, style[i];
        while i < |text| && !stripped[i] && style[i] == bits
          invariant start <= i <= |text|
          invariant start < i || (i < |text| && !stripped[i] && style[i] == bits)
          invariant forall k :: start <= k < i ==> !stripped[k] && style[k] == bits
        {
          i := i + 1;
        }
        KeptBytesRun(text, stripped, start, i);
        KeptStylesRun(style, stripped, start, i, bits);
        CoverSnoc(spans, |out|, i - start, bits);
        spans := spans + [Span(|out|, i - start, bits)];
        out := out + text[start..i];
      }
    }
  }

  lemma NothingKept(text: bytes, flags: seq<bool>, style: seq<Style>)
    requires |text| == |flags| == |style|
    ensures KeptBytes(text, flags, 0) == [] && KeptStyles(style, flags, 0) == [] && Spread([]) == [] && Cover([], 0)
  {
  }

  lemma StrippedOne(text: bytes, flags: seq<bool>, style: seq<Style>, i: nat)
    requires i < |text| == |flags| == |style| && flags[i]
    ensures KeptBytes(text, flags, i + 1) == KeptBytes(text, flags, i)
    ensures KeptStyles(style, flags, i + 1) == KeptStyles(style, flags, i)
  {
  }

  // ----- the whole parse -----

  function FilterRuns(runs: seq<Run>, guard: seq<bool>): (result: seq<Run>) {
    if runs == [] then []
    else
      var last := runs[|runs| - 1];
      FilterRuns(runs[..|runs| - 1], guard) + if last.start < |guard| && guard[last.start] then [] else [last]
  }

  /** The runs emphasis is made of: those that do not start inside a code span. */
  function EmphasisRuns(text: bytes): (runs: seq<Run>) {
    FilterRuns(Tokens(text, 0), Guarded(Clear(|text|), CodeSpans(text, 0)))
  }

  function StrippedFlags(text: bytes): (marks: seq<bool>) {
    var runs := EmphasisRuns(text);
    Marked(CodeMarked(Clear(|text|), CodeSpans(text, 0)), runs, Matched(runs, |runs|), |runs|)
  }

  ghost function ShownStyles(text: bytes): (styles: seq<Style>) {
    Shown(CodePainted(Plain(|text|), CodeSpans(text, 0)), EmphasisRuns(text))
  }

  lemma {:induction false} FilterKeeps(runs: seq<Run>, guard: seq<bool>, length: nat)
    requires Laid(runs, length)
    ensures Laid(FilterRuns(runs, guard), length)
    ensures
      forall a :: 0 <= a < |FilterRuns(runs, guard)| ==>
        var run := FilterRuns(runs, guard)[a];
        run in runs && !(run.start < |guard| && guard[run.start])
    decreases |runs|
  {
    if runs != [] {
      var init, last := runs[..|runs| - 1], runs[|runs| - 1];
      assert runs == init + [last];
      LaidSnoc(init, last, length);
      FilterKeeps(init, guard, length);
      var kept := FilterRuns(init, guard);
      assert forall a :: 0 <= a < |kept| ==> kept[a] in init;
      hide FilterRuns, Laid;
      LaidSnoc(kept, last, length);
    }
  }

  /** One run more: it lies within the text and behind every other. */
  lemma LaidSnoc(runs: seq<Run>, last: Run, length: nat)
    ensures
      Laid(runs + [last], length)
      <==> Laid(runs, length) && last.start + last.len <= length
           && forall r :: r in runs ==> r.start + r.len <= last.start
  {
    var all := runs + [last];
    assert forall k :: 0 <= k < |runs| ==> all[k] == runs[k];
    assert all[|runs|] == last;
  }

  lemma {:induction false} MarkedSize(flags: seq<bool>, runs: seq<Run>, m: Matching, n: nat)
    requires n <= |runs| && |m.asOpener| == |m.asCloser| == |runs|
    ensures |Marked(flags, runs, m, n)| == |flags|
    decreases n
  {
    if n > 0 { MarkedSize(flags, runs, m, n - 1); }
  }

  lemma {:induction false} PaintedSize(style: seq<Style>, runs: seq<Run>, pairs: seq<Pair>)
    requires forall a :: 0 <= a < |pairs| ==> Sensible(runs, pairs[a])
    ensures |Painted(style, runs, pairs)| == |style|
    decreases |pairs|
  {
    if pairs != [] { PaintedSize(style, runs, pairs[..|pairs| - 1]); }
  }

  lemma ParseSizes(text: bytes)
    ensures |StrippedFlags(text)| == |ShownStyles(text)| == |text|
  {
    var runs := EmphasisRuns(text);
    CodeSizes(Clear(|text|), Plain(|text|), CodeSpans(text, 0));
    MarkedSize(CodeMarked(Clear(|text|), CodeSpans(text, 0)), runs, Matched(runs, |runs|), |runs|);
    MatchedGood(runs, |runs|);
    PaintedSize(CodePainted(Plain(|text|), CodeSpans(text, 0)), runs, Matched(runs, |runs|).pairs);
  }

  method FilterGuarded(runs: seq<Run>, guard: seq<bool>) returns (filtered: seq<Run>)
    requires Laid(runs, |guard|) && forall a :: 0 <= a < |runs| ==> runs[a].len > 0
    ensures filtered == FilterRuns(runs, guard)
  {
    filtered := [];
    var i := 0;
    while i < |runs|
      invariant i <= |runs| && filtered == FilterRuns(runs[..i], guard)
    {
      assert runs[..i + 1][..i] == runs[..i];
      assert runs[i].start < |guard|;
      if !guard[runs[i].start] { filtered := filtered + [runs[i]]; }
      i := i + 1;
    }
    assert runs[..i] == runs;
  }

  /** `oi_cli_markdown_inline_parse`: code spans first, then emphasis outside them, then what is left. */
  method InlineParse(text: bytes) returns (out: bytes, spans: seq<Span>)
    ensures |StrippedFlags(text)| == |ShownStyles(text)| == |text|
    ensures out == KeptBytes(text, StrippedFlags(text), |text|)
    ensures Spread(spans) == KeptStyles(ShownStyles(text), StrippedFlags(text), |text|)
    ensures Cover(spans, |out|)
  {
    hide Tokens, CodeSpans, Laid, Marked, Shown, Matched, KeptBytes, KeptStyles, Cover, Spread;
    ParseSizes(text);
    if |text| == 0 {
      NothingKept(text, StrippedFlags(text), ShownStyles(text));
      return [], [];
    }
    var stripped := new bool[|text|](_ => false);
    var guard := new bool[|text|](_ => false);
    var style := new Style[|text|](_ => Style(false, false, false));
    assert stripped[..] == Clear(|text|) && guard[..] == Clear(|text|) && style[..] == Plain(|text|);
    ResolveCodeSpans(text, stripped, style, guard);
    var runs := Tokenize(text);
    TokensMaximal(text, 0);
    assert forall a :: 0 <= a < |runs| ==> Maximal(text, runs[a]);
    var filtered := FilterGuarded(runs, guard[..]);
    FilterKeeps(runs, guard[..], |text|);
    MatchEmphasis(filtered, style, stripped);
    out, spans := Compact(text, stripped[..], style[..]);
  }
}
