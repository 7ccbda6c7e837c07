/** Which delimiters of a text style it, read off the bytes around them: section 6.2 of CommonMark. */
module MarkdownFlanking {
  import opened Basics
  import opened Emphasis
  import opened MarkdownInline
  import opened MarkdownLaws
  import opened MarkdownOutput

  // ----- the bytes around a run -----

  /** White space, or beyond either end of the text. */
  predicate White(text: bytes, i: int) {
    i < 0 || i >= |text| || text[i] == 0x20 || 0x09 <= text[i] <= 0x0D
  }

  /** ASCII punctuation. */
  predicate Punct(text: bytes, i: int) {
    0 <= i < |text|
    && (0x21 <= text[i] <= 0x2F || 0x3A <= text[i] <= 0x40 || 0x5B <= text[i] <= 0x60 || 0x7B <= text[i] <= 0x7E)
  }

  /** Anything else: letters, digits, and every byte of a longer character. */
  predicate Wordy(text: bytes, i: int) {
    !White(text, i) && !Punct(text, i)
  }

  /** A whole run of one delimiter byte, from `s` up to `e`. */
  predicate WholeRun(text: bytes, s: int, e: int) {
    && 0 <= s < e <= |text| && (text[s] == '*' as int || text[s] == '_' as int)
    && (forall k :: s <= k < e ==> text[k] == text[s])
    && (s > 0 ==> text[s - 1] != text[s]) && (e < |text| ==> text[e] != text[s])
  }

  predicate LeftFlank(text: bytes, s: int, e: int) {
    !White(text, e) && (Punct(text, e) ==> White(text, s - 1) || Punct(text, s - 1))
  }

  predicate RightFlank(text: bytes, s: int, e: int) {
    !White(text, s - 1) && (Punct(text, s - 1) ==> White(text, e) || Punct(text, e))
  }

  /** It may open emphasis: rules 1, 2, 5 and 6, for runs of up to three. */
  predicate Opens(text: bytes, s: int, e: int) {
    && WholeRun(text, s, e) && e - s <= 3 && LeftFlank(text, s, e)
    && (text[s] == '_' as int ==> !RightFlank(text, s, e) || Punct(text, s - 1))
  }

  /** It may close emphasis: rules 3, 4, 7 and 8. */
  predicate Closes(text: bytes, s: int, e: int) {
    && WholeRun(text, s, e) && e - s <= 3 && RightFlank(text, s, e)
    && (text[s] == '_' as int ==> !LeftFlank(text, s, e) || Punct(text, e))
  }

  /** One run opens and a later one of the same byte closes, under the rule of three of rules 9 and 10. */
  predicate Pairs(text: bytes, s: int, e: int, s2: int, e2: int) {
    && Opens(text, s, e) && Closes(text, s2, e2) && e <= s2 && text[s] == text[s2]
    && (Closes(text, s, e) || Opens(text, s2, e2) ==>
          (e - s + e2 - s2) % 3 != 0 || ((e - s) % 3 == 0 && (e2 - s2) % 3 == 0))
  }

  /** A pair of runs around byte `k`, each of at least `n` delimiters. */
  ghost predicate PairAround(text: bytes, k: int, n: int) {
    exists s, e, s2, e2 :: Pairs(text, s, e, s2, e2) && e <= k < s2 && n <= e - s && n <= e2 - s2
  }

  // ----- the runs the parse works on -----

  predicate Made(text: bytes, run: Run) {
    0 < run.len && run.start + run.len <= |text| && run == MakeRun(text, run.start, run.start + run.len)
  }

  lemma {:induction false} TokensMade(text: bytes, i: nat)
    requires i <= |text|
    ensures forall run :: run in Tokens(text, i) ==> Made(text, run)
    decreases |text| - i
  {
    if i < |text| {
      if IsDelimiter(text[i]) {
        TokensMade(text, RunEnd(text, i + 1, text[i]));
      } else {
        TokensMade(text, i + 1);
      }
    }
  }

  /** The flags of a run say what its neighbours say. */
  lemma FlagsSay(text: bytes, run: Run)
    requires Made(text, run) && Maximal(text, run)
    ensures WholeRun(text, run.start, run.start + run.len)
    ensures run.canOpen == Opens(text, run.start, run.start + run.len)
    ensures run.canClose == Closes(text, run.start, run.start + run.len)
    ensures run.kind.Star? == (text[run.start] == '*' as int)
  {
  }

  lemma RunsMade(text: bytes)
    ensures Laid(EmphasisRuns(text), |text|)
    ensures forall a :: 0 <= a < |EmphasisRuns(text)| ==>
      Made(text, EmphasisRuns(text)[a]) && Maximal(text, EmphasisRuns(text)[a])
  {
    hide Tokens, CodeSpans, Laid, Guarded, FilterRuns, Maximal, Made;
    EmphasisRunsGood(text);
    TokensMaximal(text, 0);
    TokensMade(text, 0);
    FilterKeeps(Tokens(text, 0), Guarded(Clear(|text|), CodeSpans(text, 0)), |text|);
  }

  // ----- what styles a byte -----

  /** The whole parse's pairs. */
  ghost function AllPairs(text: bytes): (pairs: seq<Pair>) {
    Matched(EmphasisRuns(text), |EmphasisRuns(text)|).pairs
  }

  /** Inside the backticks of a code span. */
  predicate InSomeCode(spans: seq<CodeSpan>, k: nat) {
    exists a :: 0 <= a < |spans| && InCode(spans[a], k)
  }

  lemma CodeIff(text: bytes, k: nat)
    requires k < |text|
    ensures
      var base := CodePainted(Plain(|text|), CodeSpans(text, 0));
      && |base| == |text| && !base[k].bold && !base[k].italic
      && (base[k].code <==> InSomeCode(CodeSpans(text, 0), k))
  {
    hide CodeSpans;
    CodeWhere(|text|, CodeSpans(text, 0), k);
  }

  lemma ShownIff(text: bytes, k: nat)
    requires k < |text|
    ensures |ShownStyles(text)| == |text|
    ensures
      var shown := ShownStyles(text)[k];
      && (shown.bold <==> SomePairAround(EmphasisRuns(text), AllPairs(text), k, 2))
      && (shown.italic <==> SomePairAround(EmphasisRuns(text), AllPairs(text), k, 1))
      && (shown.code <==> InSomeCode(CodeSpans(text, 0), k))
  {
    hide EmphasisRuns, CodeSpans, Matched, Good, SomePairAround;
    var runs := EmphasisRuns(text);
    ParseSizes(text);
    MatchedGood(runs, |runs|);
    GoodPairs(runs, Matched(runs, |runs|), |runs|);
    CodeIff(text, k);
    hide CodePainted, InSomeCode;
    PaintedIff(CodePainted(Plain(|text|), CodeSpans(text, 0)), runs, AllPairs(text), k);
  }

  lemma GoodPairs(runs: seq<Run>, m: Matching, i: nat)
    requires Good(runs, m, i, i)
    ensures forall a :: 0 <= a < |m.pairs| ==> Sensible(runs, m.pairs[a])
    ensures Sized(runs, m, i) && Conserved(runs, m)
  {
  }

  /** A pair of the parse is a pair of runs of the text. */
  lemma PairSays(text: bytes, runs: seq<Run>, p: Pair)
    requires Sensible(runs, p) && Laid(runs, |text|)
    requires forall a :: 0 <= a < |runs| ==> Made(text, runs[a]) && Maximal(text, runs[a])
    ensures
      var o, c := runs[p.opener], runs[p.closer];
      && Pairs(text, o.start, o.start + o.len, c.start, c.start + c.len)
      && p.used <= o.len && p.used <= c.len
  {
    var o, c := runs[p.opener], runs[p.closer];
    FlagsSay(text, o);
    FlagsSay(text, c);
    hide Made, Maximal, Opens, Closes, WholeRun;
  }

  /** Only between two runs that may open and close is a byte italic; bold, between two of at least two delimiters. */
  lemma StyledBetween(text: bytes, k: nat)
    requires k < |text|
    ensures |ShownStyles(text)| == |text|
    ensures ShownStyles(text)[k].italic ==> PairAround(text, k, 1)
    ensures ShownStyles(text)[k].bold ==> PairAround(text, k, 2)
  {
    hide EmphasisRuns, CodeSpans, Matched, Good, Laid, Made, Maximal, Pairs, ShownStyles;
    var runs := EmphasisRuns(text);
    ShownIff(text, k);
    RunsMade(text);
    MatchedGood(runs, |runs|);
    GoodPairs(runs, Matched(runs, |runs|), |runs|);
    hide Sensible;
    forall a | 0 <= a < |AllPairs(text)| && Between(runs, AllPairs(text)[a], k)
      ensures PairAround(text, k, AllPairs(text)[a].used)
    {
      PairSays(text, runs, AllPairs(text)[a]);
    }
  }

  // ----- what is taken away -----

  /** A delimiter goes only with a run that may open or close; a backtick only with a code span. */
  lemma StrippedBy(text: bytes, k: nat)
    requires k < |text|
    ensures |StrippedFlags(text)| == |text|
    ensures
      StrippedFlags(text)[k] && text[k] != '`' as int ==>
        exists s, e :: s <= k < e && WholeRun(text, s, e) && (Opens(text, s, e) || Closes(text, s, e))
  {
    hide EmphasisRuns, CodeSpans, CodeMarked, Laid, SpanGood, Maximal, Made, Marked, Matched, Good, Opens, Closes,
         WholeRun;
    var runs, spans := EmphasisRuns(text), CodeSpans(text, 0);
    var m := Matched(runs, |runs|);
    ParseSizes(text);
    RunsMade(text);
    CodeSpansGood(text, 0);
    MatchedGood(runs, |runs|);
    GoodPairs(runs, m, |runs|);
    MatchedEntitled(runs, |runs|);
    CodeSizes(Clear(|text|), Plain(|text|), spans);
    CodeStripsTicks(text, spans, k);
    MarkedWhere(CodeMarked(Clear(|text|), spans), runs, m, |runs|, k);
    if SomeStripped(runs, m, |runs|, k) {
      var a :| 0 <= a < |runs| && InStripped(runs, m, a, k);
      FlagsSay(text, runs[a]);
      assert m.asOpener[a] + m.asCloser[a] + m.remaining[a] == Budget(runs[a]);
    }
  }

  /** A byte is in one whole run at most. */
  lemma RunUnique(text: bytes, s: int, e: int, s2: int, e2: int, k: int)
    requires WholeRun(text, s, e) && WholeRun(text, s2, e2) && s <= k < e && s2 <= k < e2
    ensures s == s2 && e == e2
  {
  }

  /** A run that may neither open nor close is shown as it is. */
  lemma InertKept(text: bytes, s: int, e: int, k: nat)
    requires WholeRun(text, s, e) && !Opens(text, s, e) && !Closes(text, s, e) && s <= k < e
    ensures |StrippedFlags(text)| == |text| && !StrippedFlags(text)[k]
  {
    hide StrippedFlags, Opens, Closes;
    StrippedBy(text, k);
    if StrippedFlags(text)[k] {
      var s2, e2 :| s2 <= k < e2 && WholeRun(text, s2, e2) && (Opens(text, s2, e2) || Closes(text, s2, e2));
      RunUnique(text, s, e, s2, e2, k);
    }
  }

  /**
   * Runs over three, underscores inside a word, and runs between white space do nothing; before white space or at
   * the end no run opens, behind white space or at the start none closes.
   */
  lemma InertRuns(text: bytes, s: int, e: int)
    ensures e - s > 3 ==> !Opens(text, s, e) && !Closes(text, s, e)
    ensures
      WholeRun(text, s, e) && text[s] == '_' as int && Wordy(text, s - 1) && Wordy(text, e) ==>
        !Opens(text, s, e) && !Closes(text, s, e)
    ensures White(text, e) ==> !Opens(text, s, e)
    ensures White(text, s - 1) ==> !Closes(text, s, e)
  {
  }

  /** Underscores inside a word stay where they are. */
  lemma WordKept(text: bytes, s: int, e: int, k: nat)
    requires WholeRun(text, s, e) && text[s] == '_' as int && Wordy(text, s - 1) && Wordy(text, e) && s <= k < e
    ensures |StrippedFlags(text)| == |text| && !StrippedFlags(text)[k]
  {
    InertRuns(text, s, e);
    InertKept(text, s, e, k);
  }

  lemma {:induction false} NoTicksNoSpans(text: bytes, i: nat)
    requires i <= |text| && '`' as int !in text
    ensures CodeSpans(text, i) == []
    decreases |text| - i
  {
    if i < |text| {
      assert text[i] != '`' as int;
      NoTicksNoSpans(text, i + 1);
    }
  }

  /** What is neither stripped nor styled comes out as it went in. */
  lemma {:induction false} KeptWhole(text: bytes, flags: seq<bool>, style: seq<Style>, n: nat)
    requires n <= |text| == |flags| == |style|
    requires forall k :: 0 <= k < n ==> !flags[k] && style[k] == Style(false, false, false)
    ensures KeptBytes(text, flags, n) == text[..n] && KeptStyles(style, flags, n) == Plain(n)
  {
    if n > 0 {
      KeptWhole(text, flags, style, n - 1);
      assert text[..n] == text[..n - 1] + [text[n - 1]];
      assert Plain(n) == Plain(n - 1) + [Style(false, false, false)];
    }
  }

  /** A text without backticks, all of whose delimiters are inert, is shown plain and unchanged. */
  lemma InertText(text: bytes)
    requires '`' as int !in text
    requires forall s, e :: WholeRun(text, s, e) ==> !Opens(text, s, e) && !Closes(text, s, e)
    ensures |StrippedFlags(text)| == |ShownStyles(text)| == |text|
    ensures KeptBytes(text, StrippedFlags(text), |text|) == text
    ensures KeptStyles(ShownStyles(text), StrippedFlags(text), |text|) == Plain(|text|)
  {
    ParseSizes(text);
    NoTicksNoSpans(text, 0);
    forall k | 0 <= k < |text|
      ensures !StrippedFlags(text)[k] && ShownStyles(text)[k] == Style(false, false, false)
    {
      hide StrippedFlags, ShownStyles, Opens, Closes, WholeRun, CodeSpans;
      StrippedBy(text, k);
      StyledBetween(text, k);
      ShownIff(text, k);
      assert text[k] in text;
      NotBetween(text, k);
    }
    hide StrippedFlags, ShownStyles;
    KeptWhole(text, StrippedFlags(text), ShownStyles(text), |text|);
    assert text[..|text|] == text;
  }

  lemma NotBetween(text: bytes, k: int)
    requires forall s, e :: WholeRun(text, s, e) ==> !Opens(text, s, e) && !Closes(text, s, e)
    ensures !PairAround(text, k, 1) && !PairAround(text, k, 2)
  {
    forall s, e, s2, e2 ensures !Pairs(text, s, e, s2, e2) {
      assert Opens(text, s, e) ==> WholeRun(text, s, e);
      hide Opens, Closes, WholeRun;
    }
  }

  // ----- nothing is passed over -----

  lemma {:induction false} FilterHas(runs: seq<Run>, guard: seq<bool>, run: Run)
    requires run in runs && !(run.start < |guard| && guard[run.start])
    ensures run in FilterRuns(runs, guard)
  {
    var init, last := runs[..|runs| - 1], runs[|runs| - 1];
    if run != last {
      assert runs == init + [last];
      FilterHas(init, guard, run);
    }
  }

  /** Every whole run that does not start inside a code span is one the parse works on. */
  lemma RunsComplete(text: bytes, s: nat, e: nat) returns (a: nat)
    requires WholeRun(text, s, e)
    requires forall b :: 0 <= b < |CodeSpans(text, 0)| ==> !InSpan(CodeSpans(text, 0)[b], s)
    ensures a < |EmphasisRuns(text)| && EmphasisRuns(text)[a].start == s && EmphasisRuns(text)[a].len == e - s
  {
    TokensCover(text, 0, s);
    TokensMade(text, 0);
    TokensMaximal(text, 0);
    hide Tokens, CodeSpans, Guarded, EmphasisRuns;
    var t :| 0 <= t < |Tokens(text, 0)| && InRun(Tokens(text, 0)[t], s);
    var run := Tokens(text, 0)[t];
    assert Made(text, run) && Maximal(text, run);
    FlagsSay(text, run);
    RunUnique(text, s, e, run.start, run.start + run.len, s);
    hide WholeRun, Made, Maximal, AllMaximal, Laid;
    RunListed(text, run);
    a :| 0 <= a < |EmphasisRuns(text)| && EmphasisRuns(text)[a] == run;
  }

  lemma RunListed(text: bytes, run: Run)
    requires run in Tokens(text, 0) && run.start < |text|
    requires forall b :: 0 <= b < |CodeSpans(text, 0)| ==> !InSpan(CodeSpans(text, 0)[b], run.start)
    ensures run in EmphasisRuns(text)
  {
    hide Tokens, CodeSpans, FilterRuns;
    CodeWhere(|text|, CodeSpans(text, 0), run.start);
    FilterHas(Tokens(text, 0), Guarded(Clear(|text|), CodeSpans(text, 0)), run);
  }

  /** A run with a delimiter still shown has one left to give. */
  lemma ShownLeft(text: bytes, a: nat, k: nat)
    requires a < |EmphasisRuns(text)| && InRun(EmphasisRuns(text)[a], k) && k < |text|
    requires EmphasisRuns(text)[a].len <= 3
    requires |StrippedFlags(text)| == |text| && !StrippedFlags(text)[k]
    ensures |Matched(EmphasisRuns(text), |EmphasisRuns(text)|).remaining| == |EmphasisRuns(text)|
    ensures Matched(EmphasisRuns(text), |EmphasisRuns(text)|).remaining[a] > 0
  {
    var runs, spans := EmphasisRuns(text), CodeSpans(text, 0);
    var m := Matched(runs, |runs|);
    RunsMade(text);
    MatchedGood(runs, |runs|);
    GoodPairs(runs, m, |runs|);
    CodeSizes(Clear(|text|), Plain(|text|), spans);
    hide EmphasisRuns, CodeSpans, CodeMarked, Laid, Maximal, Made, Marked, Matched, Good;
    MarkedWhere(CodeMarked(Clear(|text|), spans), runs, m, |runs|, k);
    assert m.asOpener[a] + m.asCloser[a] + m.remaining[a] == Budget(runs[a]);
    assert !InStripped(runs, m, a, k);
  }

  /** The runs that suit each other are those of the rules. */
  lemma PairsIff(text: bytes, o: Run, c: Run)
    requires Made(text, o) && Maximal(text, o) && Made(text, c) && Maximal(text, c) && o.start + o.len <= c.start
    ensures
      Compatible(o, c) && c.canClose <==> Pairs(text, o.start, o.start + o.len, c.start, c.start + c.len)
  {
    FlagsSay(text, o);
    FlagsSay(text, c);
    hide Made, Maximal, Opens, Closes, WholeRun;
  }

  /**
   * Two runs that suit each other, both with a delimiter still shown, are kept apart: a pair was made around the
   * first that ends no later than the second.
   */
  lemma NothingPassedOver(text: bytes, a: nat, b: nat, k: nat, k2: nat)
    requires a < b < |EmphasisRuns(text)| && k < |text| && k2 < |text|
    requires InRun(EmphasisRuns(text)[a], k) && InRun(EmphasisRuns(text)[b], k2)
    requires
      var o, c := EmphasisRuns(text)[a], EmphasisRuns(text)[b];
      Pairs(text, o.start, o.start + o.len, c.start, c.start + c.len)
    requires |StrippedFlags(text)| == |text| && !StrippedFlags(text)[k] && !StrippedFlags(text)[k2]
    ensures Enclosed(AllPairs(text), a, b)
  {
    var runs := EmphasisRuns(text);
    RunsMade(text);
    LaidApart(runs, |text|, a, b);
    PairsIff(text, runs[a], runs[b]);
    assert runs[a].len <= 3 && runs[b].len <= 3;
    ShownLeft(text, a, k);
    ShownLeft(text, b, k2);
    hide EmphasisRuns, StrippedFlags, Pairs, Laid, Made, Maximal, Compatible, Enclosed, Matched, Reachable;
    NothingMissed(runs, |runs|);
  }

  lemma LaidApart(runs: seq<Run>, length: nat, a: nat, b: nat)
    requires Laid(runs, length) && a < b < |runs|
    ensures runs[a].start + runs[a].len <= runs[b].start
  {
  }
}
