/** One pair of equal runs around a phrase: what the reader sees of `*x*`, `**x**` and `***x***`. */
module MarkdownSingle {
  import opened Basics
  import opened Emphasis
  import opened MarkdownInline
  import opened MarkdownOutput
  import opened MarkdownFlanking

  /** A byte that means something to the parse. */
  predicate Special(c: byte) {
    c == '*' as int || c == '_' as int || c == '`' as int
  }

  predicate IsWhite(c: byte) {
    c == 0x20 || 0x09 <= c <= 0x0D
  }

  /** Two runs of `n` delimiters, at `s` and at `s2`; white space or nothing beyond them, none directly inside. */
  predicate Phrase(text: bytes, s: nat, s2: nat, n: nat) {
    && 1 <= n <= 3 && s + n < s2 && s2 + n <= |text|
    && (text[s] == '*' as int || text[s] == '_' as int)
    && (forall k :: s <= k < s + n ==> text[k] == text[s])
    && (forall k :: s2 <= k < s2 + n ==> text[k] == text[s])
    && (forall k :: 0 <= k < |text| && !(s <= k < s + n) && !(s2 <= k < s2 + n) ==> !Special(text[k]))
    && !IsWhite(text[s + n]) && !IsWhite(text[s2 - 1])
    && (s == 0 || IsWhite(text[s - 1])) && (s2 + n == |text| || IsWhite(text[s2 + n]))
  }

  // ----- the two runs -----

  lemma {:induction false} SkipUnmarked(text: bytes, i: nat, j: nat)
    requires i <= j <= |text| && forall k :: i <= k < j ==> !IsDelimiter(text[k])
    ensures Tokens(text, i) == Tokens(text, j)
    decreases j - i
  {
    if i < j { SkipUnmarked(text, i + 1, j); }
  }

  lemma {:induction false} RunEndsAt(text: bytes, i: nat, e: nat, c: byte)
    requires i <= e <= |text| && (forall k :: i <= k < e ==> text[k] == c) && (e < |text| ==> text[e] != c)
    ensures RunEnd(text, i, c) == e
    decreases e - i
  {
    if i < e { RunEndsAt(text, i + 1, e, c); }
  }

  lemma TokenAt(text: bytes, s: nat, e: nat)
    requires s < e <= |text| && WholeRun(text, s, e)
    ensures Tokens(text, s) == [MakeRun(text, s, e)] + Tokens(text, e)
  {
    RunEndsAt(text, s + 1, e, text[s]);
  }

  lemma NoTokens(text: bytes)
    ensures Tokens(text, |text|) == []
  {
  }

  lemma PhraseRuns(text: bytes, s: nat, s2: nat, n: nat)
    requires Phrase(text, s, s2, n)
    ensures WholeRun(text, s, s + n) && WholeRun(text, s2, s2 + n) && text[s2] == text[s]
  {
  }

  lemma PhraseTokens(text: bytes, s: nat, s2: nat, n: nat)
    requires Phrase(text, s, s2, n)
    ensures Tokens(text, 0) == [MakeRun(text, s, s + n), MakeRun(text, s2, s2 + n)]
  {
    PhraseRuns(text, s, s2, n);
    hide Tokens, MakeRun, WholeRun;
    SkipUnmarked(text, 0, s);
    TokenAt(text, s, s + n);
    SkipUnmarked(text, s + n, s2);
    TokenAt(text, s2, s2 + n);
    SkipUnmarked(text, s2 + n, |text|);
    NoTokens(text);
  }

  /** The first run opens and does not close, the second closes and does not open. */
  lemma PhraseFlags(text: bytes, s: nat, s2: nat, n: nat) returns (o: Run, c: Run)
    requires Phrase(text, s, s2, n)
    ensures Tokens(text, 0) == [o, c]
    ensures o.start == s && o.len == n && c.start == s2 && c.len == n && o.kind == c.kind
    ensures o.canOpen && !o.canClose && c.canClose && !c.canOpen
  {
    PhraseTokens(text, s, s2, n);
    PhraseRuns(text, s, s2, n);
    o, c := MakeRun(text, s, s + n), MakeRun(text, s2, s2 + n);
    hide Tokens;
  }

  // ----- the match -----

  function Doubles(n: nat): (used: nat) {
    if n >= 2 then 2 else 1
  }

  predicate Fit(o: Run, c: Run) {
    o.canOpen && !o.canClose && c.canClose && !c.canOpen && o.kind == c.kind && 1 <= o.len == c.len <= 3
  }

  /** The state with `r` delimiters left in both runs. */
  function Left(n: nat, r: nat, pairs: seq<Pair>): (m: Matching)
    requires r <= n
  {
    Matching([r, r], [n - r, 0], [0, n - r], if r > 0 then [0] else [], pairs)
  }

  /** One more pair. */
  lemma ClosesOnce(o: Run, c: Run, r: nat, pairs: seq<Pair>)
    requires Fit(o, c) && 0 < r <= o.len
    ensures
      var next := Left(o.len, r - Doubles(r), pairs + [Pair(0, 1, Doubles(r))]);
      Close([o, c], Left(o.len, r, pairs), 1) == Close([o, c], next, 1)
  {
    var runs, m := [o, c], Left(o.len, r, pairs);
    assert Compatible(o, c);
    assert FindOpener(runs, m, 1, 1) == Some(0);
    hide FindOpener, Compatible;
    assert TakePair(runs, m, 0, 1) == Left(o.len, r - Doubles(r), pairs + [Pair(0, 1, Doubles(r))]);
  }

  lemma ClosedUp(o: Run, c: Run, pairs: seq<Pair>)
    requires Fit(o, c)
    ensures Close([o, c], Left(o.len, 0, pairs), 1) == Left(o.len, 0, pairs)
  {
  }

  lemma BeforeClosing(o: Run, c: Run)
    requires Fit(o, c)
    ensures Matched([o, c], 2) == Close([o, c], Left(o.len, o.len, []), 1)
  {
    hide Close;
    var runs := [o, c];
    assert Matched(runs, 0) == Matching([o.len, o.len], [0, 0], [0, 0], [], []);
    assert Matched(runs, 1) == Left(o.len, o.len, []);
  }

  /** Every delimiter of both runs is used: two at a time while there are two. */
  lemma PhraseMatched(o: Run, c: Run)
    requires Fit(o, c)
    ensures
      Matched([o, c], 2)
      == Left(o.len, 0, [Pair(0, 1, Doubles(o.len))] + if o.len == 3 then [Pair(0, 1, 1)] else [])
  {
    BeforeClosing(o, c);
    ClosesOnce(o, c, o.len, []);
    hide Matched, Close, Left, Fit;
    var first := [Pair(0, 1, Doubles(o.len))];
    assert [] + first == first && first + [] == first;
    if o.len == 3 {
      ClosesOnce(o, c, 1, first);
      ClosedUp(o, c, first + [Pair(0, 1, 1)]);
    } else {
      ClosedUp(o, c, first);
    }
  }

  // ----- what is shown -----

  lemma {:induction false} FilterAll(runs: seq<Run>, n: nat)
    ensures FilterRuns(runs, Clear(n)) == runs
  {
    if runs != [] {
      FilterAll(runs[..|runs| - 1], n);
      assert runs == runs[..|runs| - 1] + [runs[|runs| - 1]];
    }
  }

  lemma PhraseWork(text: bytes, s: nat, s2: nat, n: nat) returns (o: Run, c: Run)
    requires Phrase(text, s, s2, n)
    ensures EmphasisRuns(text) == [o, c] && CodeSpans(text, 0) == [] && Fit(o, c)
    ensures o.start == s && o.len == n && c.start == s2 && c.len == n
  {
    o, c := PhraseFlags(text, s, s2, n);
    assert '`' as int !in text by {
      assert forall k :: 0 <= k < |text| ==> text[k] != '`' as int;
    }
    NoTicksNoSpans(text, 0);
    hide Phrase, Tokens, CodeSpans;
    FilterAll([o, c], |text|);
  }

  lemma TwoStripped(o: Run, c: Run, m: Matching, k: nat)
    requires m.asOpener == [o.len, 0] && m.asCloser == [0, o.len] && c.len == o.len
    ensures SomeStripped([o, c], m, 2, k) <==> InRun(o, k) || InRun(c, k)
  {
    assert InStripped([o, c], m, 0, k) <==> InRun(o, k);
    assert InStripped([o, c], m, 1, k) <==> InRun(c, k);
  }

  lemma PhraseStripped(text: bytes, s: nat, s2: nat, n: nat, k: nat)
    requires Phrase(text, s, s2, n) && k < |text|
    ensures |StrippedFlags(text)| == |text|
    ensures StrippedFlags(text)[k] <==> s <= k < s + n || s2 <= k < s2 + n
  {
    var o, c := PhraseWork(text, s, s2, n);
    ParseSizes(text);
    PhraseMatched(o, c);
    var m := Matched([o, c], 2);
    RunsMade(text);
    MatchedGood([o, c], 2);
    GoodPairs([o, c], m, 2);
    assert CodeMarked(Clear(|text|), []) == Clear(|text|);
    hide EmphasisRuns, CodeSpans, Matched, Good, Laid, Made, Maximal, Fit, Phrase, Marked, Conserved;
    MarkedWhere(Clear(|text|), [o, c], m, 2, k);
    TwoStripped(o, c, m, k);
  }

  lemma PhraseStyles(text: bytes, s: nat, s2: nat, n: nat, k: nat)
    requires Phrase(text, s, s2, n) && k < |text|
    ensures |ShownStyles(text)| == |text|
    ensures ShownStyles(text)[k] == if s + n <= k < s2 then Style(n >= 2, n != 2, false) else Style(false, false, false)
  {
    var o, c := PhraseWork(text, s, s2, n);
    PhraseMatched(o, c);
    ShownIff(text, k);
    hide EmphasisRuns, CodeSpans, Matched, Fit, Phrase, ShownStyles;
    var pairs := AllPairs(text);
    assert pairs[0] == Pair(0, 1, Doubles(n)) && (n == 3 ==> |pairs| == 2 && pairs[1] == Pair(0, 1, 1));
    assert Between([o, c], Pair(0, 1, Doubles(n)), k) <==> s + n <= k < s2;
    assert Between([o, c], Pair(0, 1, 1), k) <==> s + n <= k < s2;
  }

  lemma {:induction false} StrippedRun(text: bytes, flags: seq<bool>, style: seq<Style>, from: nat, end: nat)
    requires from <= end <= |text| == |flags| == |style| && forall k :: from <= k < end ==> flags[k]
    ensures KeptBytes(text, flags, end) == KeptBytes(text, flags, from)
    ensures KeptStyles(style, flags, end) == KeptStyles(style, flags, from)
    decreases end
  {
    if from < end { StrippedRun(text, flags, style, from, end - 1); }
  }

  /** `n` bytes in one style. */
  function Alike(n: nat, bits: Style): (styles: seq<Style>) {
    seq(n, _ => bits)
  }

  /** A stretch that is taken away and one that is kept in one style. */
  lemma NextPart(text: bytes, flags: seq<bool>, style: seq<Style>, from: nat, mid: nat, end: nat, bits: Style)
    requires from <= mid <= end <= |text| == |flags| == |style|
    requires forall k :: from <= k < mid ==> flags[k]
    requires forall k :: mid <= k < end ==> !flags[k] && style[k] == bits
    ensures KeptBytes(text, flags, end) == KeptBytes(text, flags, from) + text[mid..end]
    ensures KeptStyles(style, flags, end) == KeptStyles(style, flags, from) + Alike(end - mid, bits)
  {
    StrippedRun(text, flags, style, from, mid);
    KeptBytesRun(text, flags, mid, end);
    KeptStylesRun(style, flags, mid, end, bits);
    assert seq(end - mid, _ => bits) == Alike(end - mid, bits);
  }

  /** What the parse of a phrase leaves: two runs to take away, one style between them. */
  predicate TwoCuts(flags: seq<bool>, style: seq<Style>, s: nat, s2: nat, n: nat, inner: Style) {
    && s + n <= s2 && s2 + n <= |flags| == |style|
    && forall k :: 0 <= k < |flags| ==>
         && (flags[k] <==> s <= k < s + n || s2 <= k < s2 + n)
         && style[k] == if s + n <= k < s2 then inner else Style(false, false, false)
  }

  lemma FirstPart(text: bytes, flags: seq<bool>, style: seq<Style>, s: nat, s2: nat, n: nat, inner: Style)
    requires TwoCuts(flags, style, s, s2, n, inner) && |text| == |flags|
    ensures KeptBytes(text, flags, s) == text[..s] && KeptStyles(style, flags, s) == Plain(s)
  {
    KeptWhole(text, flags, style, s);
  }

  lemma LaterParts(text: bytes, flags: seq<bool>, style: seq<Style>, s: nat, s2: nat, n: nat, inner: Style)
    requires TwoCuts(flags, style, s, s2, n, inner) && |text| == |flags|
    ensures KeptBytes(text, flags, s2) == KeptBytes(text, flags, s) + text[s + n..s2]
    ensures KeptBytes(text, flags, |text|) == KeptBytes(text, flags, s2) + text[s2 + n..]
    ensures KeptStyles(style, flags, s2) == KeptStyles(style, flags, s) + Alike(s2 - s - n, inner)
    ensures KeptStyles(style, flags, |text|) == KeptStyles(style, flags, s2) + Plain(|text| - s2 - n)
  {
    hide KeptBytes, KeptStyles;
    NextPart(text, flags, style, s, s + n, s2, inner);
    NextPart(text, flags, style, s2, s2 + n, |text|, Style(false, false, false));
    assert Alike(|text| - s2 - n, Style(false, false, false)) == Plain(|text| - s2 - n);
    hide Plain, Alike;
    assert text[s2 + n..|text|] == text[s2 + n..];
  }

  lemma ThreeParts(text: bytes, flags: seq<bool>, style: seq<Style>, s: nat, s2: nat, n: nat, inner: Style)
    requires TwoCuts(flags, style, s, s2, n, inner) && |text| == |flags|
    ensures KeptBytes(text, flags, |text|) == text[..s] + text[s + n..s2] + text[s2 + n..]
    ensures
      KeptStyles(style, flags, |text|) == Plain(s) + Alike(s2 - s - n, inner) + Plain(|text| - s2 - n)
  {
    FirstPart(text, flags, style, s, s2, n, inner);
    LaterParts(text, flags, style, s, s2, n, inner);
    hide KeptBytes, KeptStyles, Plain, Alike;
  }

  /** Only the delimiters go, and only the phrase between them is styled: italic, bold, or both. */
  lemma PhraseShown(text: bytes, s: nat, s2: nat, n: nat)
    requires Phrase(text, s, s2, n)
    ensures |StrippedFlags(text)| == |ShownStyles(text)| == |text|
    ensures KeptBytes(text, StrippedFlags(text), |text|) == text[..s] + text[s + n..s2] + text[s2 + n..]
    ensures
      KeptStyles(ShownStyles(text), StrippedFlags(text), |text|)
      == Plain(s) + Alike(s2 - s - n, Style(n >= 2, n != 2, false)) + Plain(|text| - s2 - n)
  {
    ParseSizes(text);
    var flags, style, inner := StrippedFlags(text), ShownStyles(text), Style(n >= 2, n != 2, false);
    forall k | 0 <= k < |text|
      ensures flags[k] <==> s <= k < s + n || s2 <= k < s2 + n
      ensures style[k] == if s + n <= k < s2 then inner else Style(false, false, false)
    {
      PhraseStripped(text, s, s2, n, k);
      PhraseStyles(text, s, s2, n, k);
    }
    hide StrippedFlags, ShownStyles, KeptBytes, KeptStyles;
    ThreeParts(text, flags, style, s, s2, n, inner);
  }
}
