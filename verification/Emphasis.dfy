/** The emphasis matcher of src/cli_markdown_inline.c: section 6.2 of CommonMark, runs over three inert. */
module Emphasis {
  import opened Basics

  datatype Kind = Star | Underscore

  /** A maximal run of one delimiter byte. */
  datatype Run = Run(start: nat, len: nat, kind: Kind, canOpen: bool, canClose: bool)

  /** What one byte of text is shown as. */
  datatype Style = Style(bold: bool, italic: bool, code: bool)

  /** An opener and a closer used up together: one delimiter of each, or two. */
  datatype Pair = Pair(opener: nat, closer: nat, used: nat)

  /** The arrays of the matcher, its stack of open runs, and the pairs made so far. */
  datatype Matching = Matching(
    remaining: seq<nat>, asOpener: seq<nat>, asCloser: seq<nat>, stack: seq<nat>, pairs: seq<Pair>)

  function Budget(run: Run): (n: nat) {
    if run.len > 3 then 0 else run.len
  }

  predicate BothWays(run: Run) {
    run.canOpen && run.canClose
  }

  predicate IncompatibleMultipleOfThree(opener: Run, closer: Run) {
    && (BothWays(opener) || BothWays(closer))
    && (opener.len + closer.len) % 3 == 0
    && !(opener.len % 3 == 0 && closer.len % 3 == 0)
  }

  predicate Compatible(opener: Run, closer: Run) {
    opener.kind == closer.kind && opener.canOpen && !IncompatibleMultipleOfThree(opener, closer)
  }

  /** Every array has one entry per run, and the stack names runs before `i`. */
  predicate Sized(runs: seq<Run>, m: Matching, i: nat) {
    && |m.remaining| == |m.asOpener| == |m.asCloser| == |runs|
    && i <= |runs|
    && forall s :: 0 <= s < |m.stack| ==> m.stack[s] < i
  }

  /** The place on the stack, below `n`, of the nearest run that can open for `i`. */
  function FindOpener(runs: seq<Run>, m: Matching, i: nat, n: nat): (found: Option<nat>)
    requires Sized(runs, m, i) && i < |runs| && n <= |m.stack|
    ensures
      match found
      case None => forall s :: 0 <= s < n ==> !(Compatible(runs[m.stack[s]], runs[i]) && m.remaining[m.stack[s]] > 0)
      case Some(f) =>
        && f < n
        && Compatible(runs[m.stack[f]], runs[i]) && m.remaining[m.stack[f]] > 0
        && forall s :: f < s < n ==> !(Compatible(runs[m.stack[s]], runs[i]) && m.remaining[m.stack[s]] > 0)
  {
    if n == 0 then None
    else if Compatible(runs[m.stack[n - 1]], runs[i]) && m.remaining[m.stack[n - 1]] > 0 then Some(n - 1)
    else FindOpener(runs, m, i, n - 1)
  }

  function Used(m: Matching, opener: nat, closer: nat): (n: nat)
    requires opener < |m.remaining| && closer < |m.remaining|
  {
    if m.remaining[opener] >= 2 && m.remaining[closer] >= 2 then 2 else 1
  }

  /** One pair: both runs pay, and everything above the opener leaves the stack. */
  function TakePair(runs: seq<Run>, m: Matching, found: nat, i: nat): (result: Matching)
    requires Sized(runs, m, i) && i < |runs| && found < |m.stack|
    requires m.remaining[m.stack[found]] > 0 && m.remaining[i] > 0
  {
    var o := m.stack[found];
    var used := Used(m, o, i);
    var left := m.remaining[o] - used;
    Matching(
      m.remaining[o := left][i := m.remaining[i] - used],
      m.asOpener[o := m.asOpener[o] + used],
      m.asCloser[i := m.asCloser[i] + used],
      m.stack[..if left > 0 then found + 1 else found],
      m.pairs + [Pair(o, i, used)])
  }

  /** Run `i` closes openers, nearest first, until it is used up or none suits. */
  function Close(runs: seq<Run>, m: Matching, i: nat): (r: Matching)
    requires Sized(runs, m, i) && i < |runs|
    ensures Sized(runs, r, i)
    decreases m.remaining[i]
  {
    if m.remaining[i] == 0 then m
    else
      match FindOpener(runs, m, i, |m.stack|)
      case None => m
      case Some(f) => Close(runs, TakePair(runs, m, f, i), i)
  }

  function StepRun(runs: seq<Run>, m: Matching, i: nat): (r: Matching)
    requires Sized(runs, m, i) && i < |runs|
    ensures Sized(runs, r, i + 1)
  {
    var after := if runs[i].canClose then Close(runs, m, i) else m;
    if runs[i].canOpen && (runs[i].canClose ==> after.remaining[i] > 0)
    then after.(stack := after.stack + [i])
    else after
  }

  function Start(runs: seq<Run>): (m: Matching) {
    Matching(
      seq(|runs|, k requires 0 <= k < |runs| => Budget(runs[k])), seq(|runs|, _ => 0), seq(|runs|, _ => 0), [], [])
  }

  /** The matching after the first `i` runs. */
  function Matched(runs: seq<Run>, i: nat): (r: Matching)
    requires i <= |runs|
    ensures Sized(runs, r, i)
  {
    if i == 0 then Start(runs) else StepRun(runs, Matched(runs, i - 1), i - 1)
  }

  // ----- what every matching keeps -----

  function Total(s: seq<nat>): (n: nat) {
    if s == [] then 0 else Total(s[..|s| - 1]) + s[|s| - 1]
  }

  function PairTotal(pairs: seq<Pair>): (n: nat) {
    if pairs == [] then 0 else PairTotal(pairs[..|pairs| - 1]) + pairs[|pairs| - 1].used
  }

  predicate Crossing(p: Pair, q: Pair) {
    p.opener < q.opener < p.closer < q.closer
  }

  predicate NoneCross(pairs: seq<Pair>) {
    forall a, b :: 0 <= a < |pairs| && 0 <= b < |pairs| ==> !Crossing(pairs[a], pairs[b])
  }

  /** A pair joins an opening run to a later closing run of its kind that the rule of three allows; both can pay. */
  predicate Sensible(runs: seq<Run>, p: Pair) {
    && p.opener < p.closer < |runs|
    && Compatible(runs[p.opener], runs[p.closer]) && runs[p.closer].canClose
    && 1 <= p.used <= 2 && p.used <= Budget(runs[p.opener]) && p.used <= Budget(runs[p.closer])
  }

  predicate Conserved(runs: seq<Run>, m: Matching)
    requires |m.remaining| == |m.asOpener| == |m.asCloser| == |runs|
  {
    forall k :: 0 <= k < |runs| ==> m.asOpener[k] + m.asCloser[k] + m.remaining[k] == Budget(runs[k])
  }

  /** No run still on the stack lies strictly inside a pair. */
  predicate StackOutside(m: Matching) {
    forall s, a :: 0 <= s < |m.stack| && 0 <= a < |m.pairs| ==>
      !(m.pairs[a].opener < m.stack[s] < m.pairs[a].closer)
  }

  predicate StackRising(stack: seq<nat>) {
    forall s, t :: 0 <= s < t < |stack| ==> stack[s] < stack[t]
  }

  /** The invariant, with every closer so far at most `limit`. */
  predicate Good(runs: seq<Run>, m: Matching, i: nat, limit: nat) {
    && Sized(runs, m, i)
    && Conserved(runs, m)
    && Total(m.asOpener) == Total(m.asCloser) == PairTotal(m.pairs)
    && NoneCross(m.pairs)
    && StackOutside(m)
    && StackRising(m.stack)
    && forall a :: 0 <= a < |m.pairs| ==> Sensible(runs, m.pairs[a]) && m.pairs[a].closer <= limit
  }

  lemma {:induction false} TotalUpdate(s: seq<nat>, i: nat, v: nat)
    requires i < |s|
    ensures Total(s[i := v]) == Total(s) - s[i] + v
  {
    var n := |s| - 1;
    if i == n {
      assert s[i := v][..n] == s[..n];
    } else {
      TotalUpdate(s[..n], i, v);
      assert s[i := v][..n] == s[..n][i := v];
    }
  }

  lemma {:induction false} TotalZero(n: nat)
    ensures Total(seq(n, _ => 0)) == 0
  {
    if n > 0 {
      TotalZero(n - 1);
      assert seq(n, _ => 0)[..n - 1] == seq(n - 1, _ => 0);
    }
  }

  lemma PairTotalSnoc(pairs: seq<Pair>, p: Pair)
    ensures PairTotal(pairs + [p]) == PairTotal(pairs) + p.used
  {
    assert (pairs + [p])[..|pairs|] == pairs;
  }

  lemma PairNests(runs: seq<Run>, m: Matching, found: nat, i: nat)
    requires Good(runs, m, i, i) && i < |runs| && runs[i].canClose
    requires found < |m.stack| && m.remaining[m.stack[found]] > 0 && m.remaining[i] > 0
    requires Compatible(runs[m.stack[found]], runs[i])
    ensures
      var next := TakePair(runs, m, found, i);
      && NoneCross(next.pairs) && StackOutside(next) && StackRising(next.stack)
      && forall a :: 0 <= a < |next.pairs| ==> Sensible(runs, next.pairs[a]) && next.pairs[a].closer <= i
  {
    var o := m.stack[found];
    assert m.asOpener[o] + m.asCloser[o] + m.remaining[o] == Budget(runs[o]);
    assert m.asOpener[i] + m.asCloser[i] + m.remaining[i] == Budget(runs[i]);
  }

  lemma PairConserves(runs: seq<Run>, m: Matching, found: nat, i: nat)
    requires Sized(runs, m, i) && Conserved(runs, m) && i < |runs|
    requires found < |m.stack| && m.remaining[m.stack[found]] > 0 && m.remaining[i] > 0
    ensures Sized(runs, TakePair(runs, m, found, i), i) && Conserved(runs, TakePair(runs, m, found, i))
  {
    var next := TakePair(runs, m, found, i);
    forall k | 0 <= k < |runs| ensures next.asOpener[k] + next.asCloser[k] + next.remaining[k] == Budget(runs[k]) {
      assert m.asOpener[k] + m.asCloser[k] + m.remaining[k] == Budget(runs[k]);
    }
  }

  lemma PairPays(runs: seq<Run>, m: Matching, found: nat, i: nat)
    requires Sized(runs, m, i) && i < |runs|
    requires Total(m.asOpener) == Total(m.asCloser) == PairTotal(m.pairs)
    requires found < |m.stack| && m.remaining[m.stack[found]] > 0 && m.remaining[i] > 0
    ensures
      var next := TakePair(runs, m, found, i);
      Total(next.asOpener) == Total(next.asCloser) == PairTotal(next.pairs)
  {
    hide Total, PairTotal;
    var o := m.stack[found];
    var used := Used(m, o, i);
    TotalUpdate(m.asOpener, o, m.asOpener[o] + used);
    TotalUpdate(m.asCloser, i, m.asCloser[i] + used);
    PairTotalSnoc(m.pairs, Pair(o, i, used));
  }

  lemma {:induction false} CloseKeepsGood(runs: seq<Run>, m: Matching, i: nat)
    requires Good(runs, m, i, i) && i < |runs| && runs[i].canClose
    ensures Good(runs, Close(runs, m, i), i, i)
    ensures
      var r := Close(runs, m, i);
      r.remaining[i] > 0 ==> FindOpener(runs, r, i, |r.stack|).None?
    decreases m.remaining[i]
  {
    hide Conserved, NoneCross, StackOutside, Total, PairTotal, Sensible;
    if m.remaining[i] > 0 {
      match FindOpener(runs, m, i, |m.stack|)
      case None =>
      case Some(f) =>
        PairNests(runs, m, f, i);
        PairConserves(runs, m, f, i);
        PairPays(runs, m, f, i);
        CloseKeepsGood(runs, TakePair(runs, m, f, i), i);
    }
  }

  lemma StepKeepsGood(runs: seq<Run>, m: Matching, i: nat)
    requires Good(runs, m, i, i) && i < |runs|
    ensures Good(runs, StepRun(runs, m, i), i + 1, i + 1)
  {
    hide NoneCross, Total, PairTotal, Sensible, Close, FindOpener;
    if runs[i].canClose { CloseKeepsGood(runs, m, i); }
  }

  lemma StartGood(runs: seq<Run>)
    ensures Good(runs, Start(runs), 0, 0)
  {
    TotalZero(|runs|);
  }

  /**
   * For any runs: pairs never cross; what a run gave as an opener, what it gave as a closer and what is left
   * add up to its length, or to nothing if it is longer than three; openers and closers give the same in all.
   */
  lemma {:induction false} MatchedGood(runs: seq<Run>, i: nat)
    requires i <= |runs|
    ensures Good(runs, Matched(runs, i), i, i)
  {
    hide Good, StepRun, Sized, Start;
    if i == 0 {
      StartGood(runs);
    } else {
      MatchedGood(runs, i - 1);
      StepKeepsGood(runs, Matched(runs, i - 1), i - 1);
    }
  }

  /** Only runs that may open give delimiters as openers, and only runs that may close as closers. */
  predicate Entitled(runs: seq<Run>, m: Matching)
    requires |m.asOpener| == |m.asCloser| == |runs|
  {
    forall k :: 0 <= k < |runs| ==>
      (m.asOpener[k] > 0 ==> runs[k].canOpen) && (m.asCloser[k] > 0 ==> runs[k].canClose)
  }

  lemma {:induction false} CloseEntitled(runs: seq<Run>, m: Matching, i: nat)
    requires Sized(runs, m, i) && i < |runs| && runs[i].canClose && Entitled(runs, m)
    ensures Entitled(runs, Close(runs, m, i))
    decreases m.remaining[i]
  {
    if m.remaining[i] > 0 {
      match FindOpener(runs, m, i, |m.stack|)
      case None =>
      case Some(f) =>
        assert Entitled(runs, TakePair(runs, m, f, i));
        CloseEntitled(runs, TakePair(runs, m, f, i), i);
    }
  }

  lemma {:induction false} MatchedEntitled(runs: seq<Run>, i: nat)
    requires i <= |runs|
    ensures Entitled(runs, Matched(runs, i))
  {
    if i > 0 {
      MatchedEntitled(runs, i - 1);
      if runs[i - 1].canClose { CloseEntitled(runs, Matched(runs, i - 1), i - 1); }
    }
  }

  // ----- what is not missed -----

  /** Some pair has run `k` strictly between its own, and closes by `limit`. */
  predicate Enclosed(pairs: seq<Pair>, k: nat, limit: nat) {
    exists a :: 0 <= a < |pairs| && pairs[a].opener < k < pairs[a].closer <= limit
  }

  /** A run that may still open is on the stack, unless a pair has closed around it. */
  predicate Reachable(runs: seq<Run>, m: Matching, i: nat)
    requires Sized(runs, m, i)
  {
    forall k :: 0 <= k < i && runs[k].canOpen && m.remaining[k] > 0 ==> k in m.stack || Enclosed(m.pairs, k, i)
  }

  /** Of the runs before `i`, no closer passed over an opener that suits it, but for those a pair had closed around. */
  predicate NoneMissed(runs: seq<Run>, m: Matching, i: nat)
    requires Sized(runs, m, i)
  {
    forall o, c ::
      0 <= o < c < i && Compatible(runs[o], runs[c]) && runs[c].canClose && m.remaining[o] > 0 && m.remaining[c] > 0
      ==> Enclosed(m.pairs, o, c)
  }

  lemma EnclosedStays(pairs: seq<Pair>, p: Pair, k: nat, limit: nat, later: nat)
    requires Enclosed(pairs, k, limit) && limit <= later
    ensures Enclosed(pairs + [p], k, later) && Enclosed(pairs, k, later) && Enclosed(pairs + [p], k, limit)
  {
    var a :| 0 <= a < |pairs| && pairs[a].opener < k < pairs[a].closer <= limit;
    assert (pairs + [p])[a] == pairs[a];
  }

  lemma TakeReaches(runs: seq<Run>, m: Matching, f: nat, i: nat)
    requires Good(runs, m, i, i) && i < |runs| && Reachable(runs, m, i) && NoneMissed(runs, m, i)
    requires f < |m.stack| && m.remaining[m.stack[f]] > 0 && m.remaining[i] > 0
    ensures
      var next := TakePair(runs, m, f, i);
      Sized(runs, next, i) && Reachable(runs, next, i) && NoneMissed(runs, next, i)
  {
    var next, o := TakePair(runs, m, f, i), m.stack[f];
    var p := next.pairs[|m.pairs|];
    hide Enclosed, Conserved, NoneCross, StackOutside, Total, PairTotal, Sensible;
    forall k | 0 <= k < i && runs[k].canOpen && next.remaining[k] > 0
      ensures k in next.stack || Enclosed(next.pairs, k, i)
    {
      if k in m.stack {
        var t :| 0 <= t < |m.stack| && m.stack[t] == k;
        if t > f { PairEncloses(next.pairs, |m.pairs|, k, i); } else { assert next.stack[t] == k; }
      } else {
        EnclosedStays(m.pairs, p, k, i, i);
      }
    }
    forall a, c | 0 <= a < c < i && Compatible(runs[a], runs[c]) && runs[c].canClose
                  && next.remaining[a] > 0 && next.remaining[c] > 0
      ensures Enclosed(next.pairs, a, c)
    {
      EnclosedStays(m.pairs, p, a, c, c);
    }
  }

  lemma PairEncloses(pairs: seq<Pair>, a: nat, k: nat, limit: nat)
    requires a < |pairs| && pairs[a].opener < k < pairs[a].closer <= limit
    ensures Enclosed(pairs, k, limit)
  {
  }

  lemma {:induction false} CloseReaches(runs: seq<Run>, m: Matching, i: nat)
    requires Good(runs, m, i, i) && i < |runs| && runs[i].canClose && Reachable(runs, m, i) && NoneMissed(runs, m, i)
    ensures Reachable(runs, Close(runs, m, i), i) && NoneMissed(runs, Close(runs, m, i), i)
    decreases m.remaining[i]
  {
    assert Sized(runs, m, i);
    hide Reachable, NoneMissed, Good, TakePair, Compatible;
    if m.remaining[i] > 0 {
      match FindOpener(runs, m, i, |m.stack|)
      case None =>
      case Some(f) =>
        TakeGood(runs, m, f, i);
        TakeReaches(runs, m, f, i);
        CloseReaches(runs, TakePair(runs, m, f, i), i);
    }
  }

  /** Once a closer is done, every opener that suits it is used up or closed around. */
  lemma CloserDone(runs: seq<Run>, m: Matching, i: nat)
    requires Sized(runs, m, i) && i < |runs| && Reachable(runs, m, i)
    requires m.remaining[i] > 0 ==> FindOpener(runs, m, i, |m.stack|).None?
    ensures
      forall o :: 0 <= o < i && Compatible(runs[o], runs[i]) && m.remaining[o] > 0 && m.remaining[i] > 0 ==>
        Enclosed(m.pairs, o, i)
  {
    hide Enclosed;
    forall o | 0 <= o < i && Compatible(runs[o], runs[i]) && m.remaining[o] > 0 && m.remaining[i] > 0
      ensures Enclosed(m.pairs, o, i)
    {
    }
  }

  lemma StepReaches(runs: seq<Run>, m: Matching, i: nat)
    requires Good(runs, m, i, i) && i < |runs| && Reachable(runs, m, i) && NoneMissed(runs, m, i)
    ensures Reachable(runs, StepRun(runs, m, i), i + 1) && NoneMissed(runs, StepRun(runs, m, i), i + 1)
  {
    var after := m;
    if runs[i].canClose {
      CloseKeepsGood(runs, m, i);
      CloseReaches(runs, m, i);
      after := Close(runs, m, i);
      CloserDone(runs, after, i);
    }
    hide Good, Close, FindOpener, Compatible, Enclosed, Reachable, NoneMissed;
    RunPassed(runs, after, StepRun(runs, m, i), i);
  }

  /** A closer done with and an opener put on the stack. */
  lemma RunPassed(runs: seq<Run>, m: Matching, next: Matching, i: nat)
    requires Sized(runs, m, i) && Sized(runs, next, i + 1) && i < |runs|
    requires Reachable(runs, m, i) && NoneMissed(runs, m, i)
    requires next == m.(stack := next.stack) && forall k :: k in m.stack ==> k in next.stack
    requires runs[i].canOpen && m.remaining[i] > 0 ==> i in next.stack
    requires runs[i].canClose ==>
      forall o :: 0 <= o < i && Compatible(runs[o], runs[i]) && m.remaining[o] > 0 && m.remaining[i] > 0 ==>
        Enclosed(m.pairs, o, i)
    ensures Reachable(runs, next, i + 1) && NoneMissed(runs, next, i + 1)
  {
    hide Compatible, Enclosed;
    forall k | 0 <= k < i + 1 && runs[k].canOpen && next.remaining[k] > 0
      ensures k in next.stack || Enclosed(next.pairs, k, i + 1)
    {
      if k < i && k !in m.stack { EnclosedLater(m.pairs, k, i, i + 1); }
    }
  }

  lemma EnclosedLater(pairs: seq<Pair>, k: nat, limit: nat, later: nat)
    requires Enclosed(pairs, k, limit) && limit <= later
    ensures Enclosed(pairs, k, later)
  {
  }

  /** No closer passes over an opener that suits it: both have delimiters left only if a pair closed around it. */
  lemma {:induction false} NothingMissed(runs: seq<Run>, i: nat)
    requires i <= |runs|
    ensures Reachable(runs, Matched(runs, i), i) && NoneMissed(runs, Matched(runs, i), i)
  {
    hide Reachable, NoneMissed, Good, StepRun;
    if i == 0 {
      StartMisses(runs);
    } else {
      MatchedGood(runs, i - 1);
      NothingMissed(runs, i - 1);
      StepReaches(runs, Matched(runs, i - 1), i - 1);
    }
  }

  lemma StartMisses(runs: seq<Run>)
    ensures Reachable(runs, Start(runs), 0) && NoneMissed(runs, Start(runs), 0)
  {
  }

  // ----- what is shown and what is stripped -----

  /** Runs in text order, apart from each other, inside a text of `length` bytes. */
  predicate Laid(runs: seq<Run>, length: nat) {
    && (forall k :: 0 <= k < |runs| ==> runs[k].start + runs[k].len <= length)
    && forall j, k :: 0 <= j < k < |runs| ==> runs[j].start + runs[j].len <= runs[k].start
  }

  function WithBit(s: Style, used: nat): (result: Style) {
    if used == 2 then s.(bold := true) else s.(italic := true)
  }

  function Paint(style: seq<Style>, from: nat, to: nat, used: nat): (styles: seq<Style>) {
    seq(|style|, k requires 0 <= k < |style| => if from <= k < to then WithBit(style[k], used) else style[k])
  }

  /** Each pair styles what lies between its two runs. */
  function Painted(style: seq<Style>, runs: seq<Run>, pairs: seq<Pair>): (styles: seq<Style>)
    requires forall a :: 0 <= a < |pairs| ==> Sensible(runs, pairs[a])
  {
    if pairs == [] then style
    else
      var p := pairs[|pairs| - 1];
      assert Sensible(runs, p);
      Paint(Painted(style, runs, pairs[..|pairs| - 1]),
            runs[p.opener].start + runs[p.opener].len, runs[p.closer].start, p.used)
  }

  /** The styles once every pair is made. */
  ghost function Shown(style: seq<Style>, runs: seq<Run>): (styles: seq<Style>) {
    MatchedGood(runs, |runs|);
    Painted(style, runs, Matched(runs, |runs|).pairs)
  }

  predicate Between(runs: seq<Run>, p: Pair, k: nat) {
    p.opener < |runs| && p.closer < |runs| && runs[p.opener].start + runs[p.opener].len <= k < runs[p.closer].start
  }

  predicate SomePairAround(runs: seq<Run>, pairs: seq<Pair>, k: nat, used: nat) {
    exists a :: 0 <= a < |pairs| && pairs[a].used == used && Between(runs, pairs[a], k)
  }

  lemma AroundSnoc(runs: seq<Run>, pairs: seq<Pair>, p: Pair, k: nat, used: nat)
    ensures
      SomePairAround(runs, pairs + [p], k, used)
      <==> SomePairAround(runs, pairs, k, used) || (p.used == used && Between(runs, p, k))
  {
    var more := pairs + [p];
    assert more[|pairs|] == p;
    if SomePairAround(runs, pairs, k, used) {
      var a :| 0 <= a < |pairs| && pairs[a].used == used && Between(runs, pairs[a], k);
      assert more[a] == pairs[a];
    }
  }

  /** A byte is bold exactly when it was, or lies inside a pair of two delimiters each; italic likewise for one. */
  lemma {:induction false} PaintedIff(style: seq<Style>, runs: seq<Run>, pairs: seq<Pair>, k: nat)
    requires forall a :: 0 <= a < |pairs| ==> Sensible(runs, pairs[a])
    requires k < |style|
    ensures |Painted(style, runs, pairs)| == |style|
    ensures
      var painted := Painted(style, runs, pairs)[k];
      && (painted.bold <==> style[k].bold || SomePairAround(runs, pairs, k, 2))
      && (painted.italic <==> style[k].italic || SomePairAround(runs, pairs, k, 1))
      && painted.code == style[k].code
    decreases |pairs|
  {
    if pairs != [] {
      var init, last := pairs[..|pairs| - 1], pairs[|pairs| - 1];
      PaintedIff(style, runs, init, k);
      AroundSnoc(runs, init, last, k, 1);
      AroundSnoc(runs, init, last, k, 2);
      assert pairs == init + [last];
      assert Sensible(runs, last);
    }
  }

  function Mark(flags: seq<bool>, from: nat, to: nat): (marks: seq<bool>) {
    seq(|flags|, k requires 0 <= k < |flags| => flags[k] || from <= k < to)
  }

  /** A closer loses its first delimiters, an opener its last ones. */
  function Marked(flags: seq<bool>, runs: seq<Run>, m: Matching, n: nat): (marks: seq<bool>)
    requires n <= |runs| && |m.asOpener| == |m.asCloser| == |runs|
  {
    if n == 0 then flags
    else
      var run := runs[n - 1];
      var before := Marked(flags, runs, m, n - 1);
      var end := run.start + run.len;
      Mark(Mark(before, run.start, run.start + m.asCloser[n - 1]),
           if m.asOpener[n - 1] <= end then end - m.asOpener[n - 1] else 0, end)
  }

  function Count(flags: seq<bool>): (n: nat) {
    if flags == [] then 0 else Count(flags[..|flags| - 1]) + if flags[|flags| - 1] then 1 else 0
  }

  /** Marking a stretch of which nothing is marked yet adds its length. */
  lemma {:induction false} CountMark(flags: seq<bool>, from: nat, to: nat)
    requires from <= to <= |flags| && forall k :: from <= k < to ==> !flags[k]
    ensures |Mark(flags, from, to)| == |flags| && Count(Mark(flags, from, to)) == Count(flags) + (to - from)
    decreases |flags|
  {
    if flags != [] {
      var n := |flags| - 1;
      var to' := if to > n then n else to;
      var from' := if from > n then n else from;
      CountMark(flags[..n], from', to');
      assert Mark(flags, from, to)[..n] == Mark(flags[..n], from', to');
    }
  }

  function SumTo(s: seq<nat>, n: nat): (result: nat)
    requires n <= |s|
  {
    if n == 0 then 0 else SumTo(s, n - 1) + s[n - 1]
  }

  lemma {:induction false} SumIsTotal(s: seq<nat>, n: nat)
    requires n <= |s|
    ensures SumTo(s, n) == Total(s[..n])
  {
    if n > 0 {
      SumIsTotal(s, n - 1);
      assert s[..n][..n - 1] == s[..n - 1];
    }
  }

  predicate Untouched(flags: seq<bool>, runs: seq<Run>) {
    forall k, i :: 0 <= k < |runs| && runs[k].start <= i < runs[k].start + runs[k].len && i < |flags| ==> !flags[i]
  }

  /** Byte `i` is one of the delimiters run `k` gave: the first as a closer, the last as an opener. */
  predicate InStripped(runs: seq<Run>, m: Matching, k: nat, i: nat) {
    && k < |runs| && k < |m.asOpener| && k < |m.asCloser|
    && var run := runs[k];
       || run.start <= i < run.start + m.asCloser[k]
       || run.start + run.len - m.asOpener[k] <= i < run.start + run.len
  }

  predicate SomeStripped(runs: seq<Run>, m: Matching, n: nat, i: nat) {
    exists k :: 0 <= k < n && InStripped(runs, m, k, i)
  }

  lemma StrippedSnoc(runs: seq<Run>, m: Matching, n: nat, i: nat)
    requires n > 0
    ensures SomeStripped(runs, m, n, i) <==> SomeStripped(runs, m, n - 1, i) || InStripped(runs, m, n - 1, i)
  {
  }

  /** Exactly the delimiters the runs gave are marked, beside what was marked before. */
  lemma {:induction false} MarkedWhere(flags: seq<bool>, runs: seq<Run>, m: Matching, n: nat, i: nat)
    requires n <= |runs| && i < |flags| && Laid(runs, |flags|)
    requires |m.remaining| == |m.asOpener| == |m.asCloser| == |runs| && Conserved(runs, m)
    ensures |Marked(flags, runs, m, n)| == |flags|
    ensures Marked(flags, runs, m, n)[i] <==> flags[i] || SomeStripped(runs, m, n, i)
    decreases n
  {
    if n > 0 {
      MarkedWhere(flags, runs, m, n - 1, i);
      StrippedSnoc(runs, m, n, i);
      assert m.asOpener[n - 1] + m.asCloser[n - 1] + m.remaining[n - 1] == Budget(runs[n - 1]);
      hide SomeStripped, Laid, Conserved;
    }
  }

  lemma LaterUnmarked(flags: seq<bool>, runs: seq<Run>, m: Matching, n: nat, i: nat)
    requires n < |runs| && Laid(runs, |flags|) && Untouched(flags, runs)
    requires |m.remaining| == |m.asOpener| == |m.asCloser| == |runs| && Conserved(runs, m)
    requires runs[n].start <= i < runs[n].start + runs[n].len
    ensures i < |flags| && |Marked(flags, runs, m, n)| == |flags| && !Marked(flags, runs, m, n)[i]
  {
    MarkedWhere(flags, runs, m, n, i);
  }

  lemma MarkRun(before: seq<bool>, run: Run, asOpener: nat, asCloser: nat)
    requires asOpener + asCloser <= run.len && run.start + run.len <= |before|
    requires forall i :: run.start <= i < run.start + run.len ==> !before[i]
    ensures
      var end := run.start + run.len;
      var marked := Mark(Mark(before, run.start, run.start + asCloser), end - asOpener, end);
      |marked| == |before| && Count(marked) == Count(before) + asCloser + asOpener
  {
    hide Count;
    var end := run.start + run.len;
    CountMark(before, run.start, run.start + asCloser);
    CountMark(Mark(before, run.start, run.start + asCloser), end - asOpener, end);
  }

  lemma RunRoom(runs: seq<Run>, m: Matching, length: nat, n: nat)
    requires n < |runs| && Laid(runs, length)
    requires |m.remaining| == |m.asOpener| == |m.asCloser| == |runs| && Conserved(runs, m)
    ensures runs[n].start + runs[n].len <= length && m.asOpener[n] + m.asCloser[n] <= runs[n].len
  {
    assert m.asOpener[n] + m.asCloser[n] + m.remaining[n] == Budget(runs[n]);
  }

  lemma MarkedStep(flags: seq<bool>, runs: seq<Run>, m: Matching, n: nat)
    requires n < |runs| && Laid(runs, |flags|) && Untouched(flags, runs)
    requires |m.remaining| == |m.asOpener| == |m.asCloser| == |runs| && Conserved(runs, m)
    requires |Marked(flags, runs, m, n)| == |flags|
    ensures |Marked(flags, runs, m, n + 1)| == |flags|
    ensures
      Count(Marked(flags, runs, m, n + 1)) == Count(Marked(flags, runs, m, n)) + m.asCloser[n] + m.asOpener[n]
  {
    var before, run := Marked(flags, runs, m, n), runs[n];
    RunRoom(runs, m, |flags|, n);
    hide Laid, Conserved, Untouched, Count, Mark, Budget;
    forall i | run.start <= i < run.start + run.len ensures !before[i] { LaterUnmarked(flags, runs, m, n, i); }
    MarkRun(before, run, m.asOpener[n], m.asCloser[n]);
  }

  /** As many bytes are marked as the runs gave: no delimiter is taken twice. */
  lemma {:induction false} MarkedCounts(flags: seq<bool>, runs: seq<Run>, m: Matching, n: nat)
    requires n <= |runs| && Laid(runs, |flags|) && Untouched(flags, runs)
    requires |m.remaining| == |m.asOpener| == |m.asCloser| == |runs| && Conserved(runs, m)
    ensures |Marked(flags, runs, m, n)| == |flags|
    ensures Count(Marked(flags, runs, m, n)) == Count(flags) + SumTo(m.asOpener, n) + SumTo(m.asCloser, n)
    decreases n
  {
    hide Conserved, Untouched, Count, Mark, Laid;
    if n > 0 {
      MarkedCounts(flags, runs, m, n - 1);
      MarkedStep(flags, runs, m, n - 1);
    }
  }

  /** In all, two delimiters are stripped for every delimiter a pair used: one on each side. */
  lemma StrippedTotal(flags: seq<bool>, runs: seq<Run>)
    requires Laid(runs, |flags|) && Untouched(flags, runs)
    ensures
      var m := Matched(runs, |runs|);
      Count(Marked(flags, runs, m, |runs|)) == Count(flags) + 2 * PairTotal(m.pairs)
  {
    var m := Matched(runs, |runs|);
    MatchedGood(runs, |runs|);
    MarkedCounts(flags, runs, m, |runs|);
    SumIsTotal(m.asOpener, |runs|);
    SumIsTotal(m.asCloser, |runs|);
    assert m.asOpener[..|runs|] == m.asOpener && m.asCloser[..|runs|] == m.asCloser;
  }

  // ----- the matcher -----

  /** ORs the bit for `used` delimiters onto a range. */
  method PaintRange(style: array<Style>, from: nat, to: nat, used: nat)
    requires to <= style.Length
    modifies style
    ensures style[..] == Paint(old(style[..]), from, to, used)
  {
    ghost var before := style[..];
    var k := from;
    while k < to
      invariant from <= k && if from <= to then k <= to else k == from
      invariant forall j :: 0 <= j < style.Length ==>
        style[j] == if from <= j < k then WithBit(before[j], used) else before[j]
    {
      style[k] := WithBit(style[k], used);
      k := k + 1;
    }
    assert style[..] == Paint(before, from, to, used);
  }

  method MarkRange(stripped: array<bool>, from: nat, to: nat)
    requires to <= stripped.Length
    modifies stripped
    ensures stripped[..] == Mark(old(stripped[..]), from, to)
  {
    ghost var before := stripped[..];
    var k := from;
    while k < to
      invariant from <= k && if from <= to then k <= to else k == from
      invariant forall j :: 0 <= j < stripped.Length ==> stripped[j] == (before[j] || from <= j < k)
    {
      stripped[k] := true;
      k := k + 1;
    }
    assert stripped[..] == Mark(before, from, to);
  }

  /** The stack from its top down to the nearest opener that suits run `i`. */
  method Search(runs: seq<Run>, remaining: array<nat>, stack: seq<nat>, i: nat, ghost m: Matching)
    returns (found: Option<nat>)
    requires Sized(runs, m, i) && i < |runs| && m.remaining == remaining[..] && m.stack == stack
    ensures found == FindOpener(runs, m, i, |stack|)
  {
    var s: nat := |stack|;
    while s > 0
      invariant s <= |stack| && FindOpener(runs, m, i, |stack|) == FindOpener(runs, m, i, s)
    {
      var candidate := stack[s - 1];
      if Compatible(runs[candidate], runs[i]) && remaining[candidate] > 0 { return Some(s - 1); }
      s := s - 1;
    }
    return None;
  }

  /** The arrays of the matcher. */
  class Matcher {
    const runs: seq<Run>
    var remaining: array<nat>
    var asOpener: array<nat>
    var asCloser: array<nat>
    var stack: seq<nat>
    ghost var pairs: seq<Pair>

    ghost predicate Valid()
      reads this, remaining, asOpener, asCloser
    {
      && remaining != asOpener && asOpener != asCloser && remaining != asCloser
      && remaining.Length == asOpener.Length == asCloser.Length == |runs|
    }

    ghost function View(): (m: Matching)
      reads this, remaining, asOpener, asCloser
    {
      Matching(remaining[..], asOpener[..], asCloser[..], stack, pairs)
    }

    constructor (runs: seq<Run>)
      ensures this.runs == runs && Valid() && View() == Start(runs)
      ensures fresh(remaining) && fresh(asOpener) && fresh(asCloser)
    {
      this.runs := runs;
      remaining := new nat[|runs|](k requires 0 <= k < |runs| => Budget(runs[k]));
      asOpener := new nat[|runs|](_ => 0);
      asCloser := new nat[|runs|](_ => 0);
      stack, pairs := [], [];
    }

    method Pay(found: nat, i: nat, used: nat)
      requires Valid() && Sized(runs, View(), i) && i < |runs| && found < |stack|
      requires remaining[stack[found]] > 0 && remaining[i] > 0 && used == Used(View(), stack[found], i)
      modifies this`stack, this`pairs, remaining, asOpener, asCloser
      ensures Valid() && View() == TakePair(runs, old(View()), found, i)
    {
      var opener := stack[found];
      remaining[opener] := remaining[opener] - used;
      remaining[i] := remaining[i] - used;
      asOpener[opener] := asOpener[opener] + used;
      asCloser[i] := asCloser[i] + used;
      stack := stack[..if remaining[opener] > 0 then found + 1 else found];
      pairs := pairs + [Pair(opener, i, used)];
    }
  
    /** Run `i` closes what it can, styling what lies between as it goes. */
    method CloseWith(i: nat, style: array<Style>, ghost base: seq<Style>)
      requires Valid() && i < |runs| && runs[i].canClose && Laid(runs, style.Length)
      requires Good(runs, View(), i, i) && style[..] == Painted(base, runs, pairs)
      modifies this`stack, this`pairs, remaining, asOpener, asCloser, style
      ensures Valid() && Good(runs, View(), i, i) && View() == Close(runs, old(View()), i)
      ensures style[..] == Painted(base, runs, pairs)
    {
      hide NoneCross, StackOutside, StackRising, Conserved, Total, PairTotal, Sensible;
      hide Close, TakePair, FindOpener, Painted, Paint;
      while remaining[i] > 0
        invariant Valid() && Good(runs, View(), i, i)
        invariant Close(runs, View(), i) == Close(runs, old(View()), i)
        invariant style[..] == Painted(base, runs, pairs)
        decreases remaining[i]
      {
        ghost var m := View();
        var found := Search(runs, remaining, stack, i, m);
        CloseOnce(runs, m, i);
        if found.None? { break; }
        var opener := stack[found.value];
        var used := if remaining[opener] >= 2 && remaining[i] >= 2 then 2 else 1;
        PaintedSnoc(base, runs, pairs, Pair(opener, i, used));
        PaintRange(style, runs[opener].start + runs[opener].len, runs[i].start, used);
        Pay(found.value, i, used);
      }
      CloseOnce(runs, View(), i);
    }

    method MatchRuns(style: array<Style>, ghost base: seq<Style>)
      requires Valid() && View() == Start(runs) && Laid(runs, style.Length) && style[..] == base
      modifies this`stack, this`pairs, remaining, asOpener, asCloser, style
      ensures Valid() && View() == Matched(runs, |runs|)
      ensures style[..] == Shown(base, runs)
    {
      hide NoneCross, StackOutside, StackRising, Conserved, Total, PairTotal, Sensible;
      hide Close, Painted, Start, Laid;
      var i := 0;
      StartGood(runs);
      NothingPainted(base, runs);
      while i < |runs|
        invariant i <= |runs| && Valid() && View() == Matched(runs, i) && Good(runs, View(), i, i)
        invariant style[..] == Painted(base, runs, pairs)
      {
        StepKeepsGood(runs, View(), i);
        if runs[i].canClose {
          CloseWith(i, style, base);
          if remaining[i] > 0 && runs[i].canOpen { stack := stack + [i]; }
        } else if runs[i].canOpen {
          stack := stack + [i];
        }
        i := i + 1;
      }
    }

    /** Marks what each run gave. */
    method Strip(stripped: array<bool>)
      requires Valid() && Laid(runs, stripped.Length) && Conserved(runs, View())
      modifies stripped
      ensures stripped[..] == Marked(old(stripped[..]), runs, View(), |runs|)
    {
      var i := 0;
      while i < |runs|
        invariant i <= |runs| && stripped[..] == Marked(old(stripped[..]), runs, View(), i)
      {
        assert asOpener[i] + asCloser[i] + remaining[i] == Budget(runs[i]);
        var end := runs[i].start + runs[i].len;
        MarkRange(stripped, runs[i].start, runs[i].start + asCloser[i]);
        MarkRange(stripped, end - asOpener[i], end);
        i := i + 1;
      }
    }
  }

  lemma NothingPainted(base: seq<Style>, runs: seq<Run>)
    ensures Start(runs).pairs == [] && Painted(base, runs, []) == base
  {
  }

  /** Taking a pair keeps the invariant and pays with the closer's delimiters. */
  lemma TakeGood(runs: seq<Run>, m: Matching, f: nat, i: nat)
    requires Good(runs, m, i, i) && i < |runs| && runs[i].canClose
    requires f < |m.stack| && m.remaining[m.stack[f]] > 0 && m.remaining[i] > 0
    requires Compatible(runs[m.stack[f]], runs[i])
    ensures
      var next, pair := TakePair(runs, m, f, i), Pair(m.stack[f], i, Used(m, m.stack[f], i));
      && Good(runs, next, i, i)
      && next.remaining[i] < m.remaining[i]
      && next.pairs == m.pairs + [pair]
      && Sensible(runs, pair)
  {
    PairNests(runs, m, f, i);
    PairConserves(runs, m, f, i);
    PairPays(runs, m, f, i);
    var next := TakePair(runs, m, f, i);
    assert next.pairs[|m.pairs|] == Pair(m.stack[f], i, Used(m, m.stack[f], i));
    hide NoneCross, StackOutside, StackRising, Conserved, Total, PairTotal, Sensible;
  }

  /** One turn of the closing loop. */
  lemma CloseOnce(runs: seq<Run>, m: Matching, i: nat)
    requires Good(runs, m, i, i) && i < |runs| && runs[i].canClose
    ensures m.remaining[i] == 0 ==> Close(runs, m, i) == m
    ensures
      m.remaining[i] > 0 ==>
        match FindOpener(runs, m, i, |m.stack|)
        case None => Close(runs, m, i) == m
        case Some(f) =>
          && Close(runs, m, i) == Close(runs, TakePair(runs, m, f, i), i)
          && Good(runs, TakePair(runs, m, f, i), i, i)
          && TakePair(runs, m, f, i).remaining[i] < m.remaining[i]
          && TakePair(runs, m, f, i).pairs == m.pairs + [Pair(m.stack[f], i, Used(m, m.stack[f], i))]
          && Sensible(runs, Pair(m.stack[f], i, Used(m, m.stack[f], i)))
  {
    if m.remaining[i] > 0 && FindOpener(runs, m, i, |m.stack|).Some? {
      var f := FindOpener(runs, m, i, |m.stack|).value;
      TakeGood(runs, m, f, i);
      hide Good, Sensible, NoneCross, StackOutside, StackRising, Conserved, Total, PairTotal, TakePair, Sized;
    }
  }

  lemma PaintedSnoc(base: seq<Style>, runs: seq<Run>, pairs: seq<Pair>, p: Pair)
    requires (forall a :: 0 <= a < |pairs| ==> Sensible(runs, pairs[a])) && Sensible(runs, p)
    ensures
      Painted(base, runs, pairs + [p])
      == Paint(Painted(base, runs, pairs), runs[p.opener].start + runs[p.opener].len, runs[p.closer].start, p.used)
  {
    assert (pairs + [p])[..|pairs|] == pairs;
  }

  method MatchEmphasis(runs: seq<Run>, style: array<Style>, stripped: array<bool>)
    requires style.Length == stripped.Length && Laid(runs, style.Length)
    modifies style, stripped
    ensures style[..] == Shown(old(style[..]), runs)
    ensures stripped[..] == Marked(old(stripped[..]), runs, Matched(runs, |runs|), |runs|)
  {
    if |runs| == 0 {
      return;
    }
    var matcher := new Matcher(runs);
    matcher.MatchRuns(style, style[..]);
    MatchedGood(runs, |runs|);
    matcher.Strip(stripped);
  }
}
