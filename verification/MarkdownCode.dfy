/** Code spans are the nearest ones there are, and backticks outside them have no partner. */
module MarkdownCode {
  import opened Basics
  import opened MarkdownInline
  import opened MarkdownLaws

  /** A whole run of backticks, from `p` up to `q`. */
  predicate TickRun(text: bytes, p: int, q: int) {
    && 0 <= p < q <= |text| && (forall k :: p <= k < q ==> text[k] == '`' as int)
    && (p > 0 ==> text[p - 1] != '`' as int) && (q < |text| ==> text[q] != '`' as int)
  }

  /** Not in the middle of a run of backticks. */
  predicate Outside(text: bytes, j: nat) {
    j <= |text| && (0 < j < |text| && text[j] == '`' as int ==> text[j - 1] != '`' as int)
  }

  lemma RunHere(text: bytes, j: nat, p: int, q: int)
    requires j < |text| && text[j] == '`' as int && Outside(text, j)
    ensures
      var end := RunEnd(text, j, BACKTICK);
      && j < end && Outside(text, end) && TickRun(text, j, end)
      && (TickRun(text, p, q) && p >= j ==> (p == j && q == end) || p >= end)
  {
    assert RunEnd(text, j, BACKTICK) == RunEnd(text, j + 1, BACKTICK);
  }

  /** The closing run is the first of its length. */
  lemma {:induction false} NearestClose(text: bytes, j: nat, ticks: nat, p: int, q: int)
    requires Outside(text, j) && TickRun(text, p, q) && j <= p && q - p == ticks
    ensures
      var found := FindClose(text, j, ticks);
      found.Some? && found.value <= p
    decreases |text| - j
  {
    if text[j] == '`' as int {
      RunHere(text, j, p, q);
      var end := RunEnd(text, j, BACKTICK);
      if end - j != ticks { NearestClose(text, end, ticks, p, q); }
    } else {
      NearestClose(text, j + 1, ticks, p, q);
    }
  }

  /** The run at `i` opens the first span, and no run between it and the span's end is as long. */
  lemma FirstNearest(text: bytes, i: nat, p: int, q: int)
    requires i < |text| && text[i] == BACKTICK && Outside(text, i) && TickRun(text, p, q)
    requires FindClose(text, RunEnd(text, i, BACKTICK), RunEnd(text, i, BACKTICK) - i).Some?
    ensures
      && CodeSpans(text, i) != []
      && var s := CodeSpans(text, i)[0];
      s.start + s.ticks <= p < s.close ==> q - p != s.ticks
  {
    RunHere(text, i, p, q);
    hide *;
    CodeSpansAt(text, i);
    var end := RunEnd(text, i, BACKTICK);
    var close := FindClose(text, end, end - i).value;
    assert CodeSpans(text, i)[0] == CodeSpan(i, end - i, close);
    if end <= p && q - p == end - i { NearestClose(text, end, end - i, p, q); }
  }

  /** Any other span is one of those from a later place on. */
  lemma LaterSpan(text: bytes, i: nat, a: nat) returns (next: nat, b: nat)
    requires i < |text| && Outside(text, i) && a < |CodeSpans(text, i)|
    requires
      text[i] == BACKTICK && a == 0 ==>
        FindClose(text, RunEnd(text, i, BACKTICK), RunEnd(text, i, BACKTICK) - i).None?
    ensures i < next && Outside(text, next)
    ensures b < |CodeSpans(text, next)| && CodeSpans(text, next)[b] == CodeSpans(text, i)[a]
  {
    OutsideNext(text, i);
    hide *;
    if text[i] != BACKTICK {
      CodeSpansAt(text, i);
      next, b := i + 1, a;
    } else {
      next, b := SpanBehind(text, i, a);
    }
  }

  lemma NoSpanHere(text: bytes, i: nat)
    requires i < |text| && text[i] == BACKTICK && Outside(text, i)
    requires FindClose(text, RunEnd(text, i, BACKTICK), RunEnd(text, i, BACKTICK) - i).None?
    ensures
      var end := RunEnd(text, i, BACKTICK);
      i < end && Outside(text, end) && CodeSpans(text, i) == CodeSpans(text, end)
  {
    assert BACKTICK == '`' as int;
    hide *;
    RunHere(text, i, 0, 0);
    CodeSpansAt(text, i);
  }

  lemma SpanHere(text: bytes, i: nat) returns (first: CodeSpan)
    requires i < |text| && text[i] == BACKTICK && Outside(text, i)
    requires FindClose(text, RunEnd(text, i, BACKTICK), RunEnd(text, i, BACKTICK) - i).Some?
    ensures i < first.close + first.ticks <= |text| && Outside(text, first.close + first.ticks)
    ensures CodeSpans(text, i) == [first] + CodeSpans(text, first.close + first.ticks)
  {
    assert BACKTICK == '`' as int;
    hide *;
    RunHere(text, i, 0, 0);
    CodeSpansAt(text, i);
    var end := RunEnd(text, i, BACKTICK);
    CloseOutside(text, end, end - i);
    first := CodeSpan(i, end - i, FindClose(text, end, end - i).value);
  }

  lemma SpanBehind(text: bytes, i: nat, a: nat) returns (next: nat, b: nat)
    requires i < |text| && text[i] == BACKTICK && Outside(text, i) && a < |CodeSpans(text, i)|
    requires a == 0 ==> FindClose(text, RunEnd(text, i, BACKTICK), RunEnd(text, i, BACKTICK) - i).None?
    ensures i < next && Outside(text, next)
    ensures b < |CodeSpans(text, next)| && CodeSpans(text, next)[b] == CodeSpans(text, i)[a]
  {
    hide *;
    var end := RunEnd(text, i, BACKTICK);
    if FindClose(text, end, end - i).None? {
      NoSpanHere(text, i);
      next, b := end, a;
    } else {
      var first := SpanHere(text, i);
      next, b := first.close + first.ticks, a - 1;
      IndexBehind(first, CodeSpans(text, next), a);
    }
  }

  lemma IndexBehind(s: CodeSpan, rest: seq<CodeSpan>, a: nat)
    requires 0 < a <= |rest|
    ensures ([s] + rest)[a] == rest[a - 1]
  {
  }

  lemma OutsideNext(text: bytes, i: nat)
    requires i < |text|
    ensures text[i] != BACKTICK ==> Outside(text, i + 1)
  {
  }

  /** Between the two runs of a span none is as long as they are. */
  lemma {:induction false} SpansNearest(text: bytes, i: nat, a: nat, p: int, q: int)
    requires Outside(text, i) && a < |CodeSpans(text, i)| && TickRun(text, p, q)
    requires
      var s := CodeSpans(text, i)[a];
      s.start + s.ticks <= p < s.close
    ensures q - p != CodeSpans(text, i)[a].ticks
    decreases |text| - i
  {
    CodeSpansStop(text, i);
    hide *;
    var end := RunEnd(text, i, BACKTICK);
    if text[i] == BACKTICK && a == 0 && FindClose(text, end, end - i).Some? {
      FirstNearest(text, i, p, q);
    } else {
      var next, b := LaterSpan(text, i, a);
      SpansNearest(text, next, b, p, q);
    }
  }

  lemma CodeSpansStop(text: bytes, i: nat)
    requires i <= |text| && CodeSpans(text, i) != []
    ensures i < |text|
  {
  }

  lemma CloseOutside(text: bytes, j: nat, ticks: nat)
    requires Outside(text, j) && FindClose(text, j, ticks).Some?
    ensures Outside(text, FindClose(text, j, ticks).value + ticks)
  {
    var c := FindClose(text, j, ticks).value;
    assert RunEnd(text, c, BACKTICK) == c + ticks;
  }

  predicate ClearOf(spans: seq<CodeSpan>, p: int) {
    p >= 0 && forall a :: 0 <= a < |spans| ==> !InSpan(spans[a], p)
  }

  lemma ClearCons(first: CodeSpan, rest: seq<CodeSpan>, p: int)
    ensures ClearOf([first] + rest, p) <==> p >= 0 && !InSpan(first, p) && ClearOf(rest, p)
  {
    var all := [first] + rest;
    assert all[0] == first && forall a :: 0 <= a < |rest| ==> all[a + 1] == rest[a];
  }

  lemma NoClose(text: bytes, j: nat, ticks: nat, p: int, q: int)
    requires Outside(text, j) && FindClose(text, j, ticks).None? && TickRun(text, p, q) && j <= p
    ensures q - p != ticks
  {
    if q - p == ticks { NearestClose(text, j, ticks, p, q); }
  }

  lemma SpanPast(text: bytes, i: nat, p: int)
    requires i < |text| && text[i] == '`' as int && i <= p && ClearOf(CodeSpans(text, i), p)
    ensures
      var end := RunEnd(text, i, BACKTICK);
      match FindClose(text, end, end - i)
      case None => ClearOf(CodeSpans(text, end), p)
      case Some(close) =>
        var behind := close + (end - i);
        behind <= p && behind <= |text| && ClearOf(CodeSpans(text, behind), p)
  {
    CodeSpansAt(text, i);
    hide CodeSpans, ClearOf;
    var end := RunEnd(text, i, BACKTICK);
    var found := FindClose(text, end, end - i);
    if found.Some? {
      ClearCons(CodeSpan(i, end - i, found.value), CodeSpans(text, found.value + (end - i)), p);
    }
  }

  lemma TickOrder(text: bytes, p: int, q: int)
    requires TickRun(text, p, q)
    ensures 0 <= p < q <= |text|
  {
  }

  /** Where the scan stands behind a run of backticks: at its end, or behind the span it opens. */
  lemma ScanPast(text: bytes, i: nat, p: int, q: int, p2: int, q2: int) returns (next: nat)
    requires i < |text| && text[i] == '`' as int && Outside(text, i)
    requires TickRun(text, p, q) && i <= p && TickRun(text, p2, q2) && q <= p2 && ClearOf(CodeSpans(text, i), p)
    ensures i < next && Outside(text, next) && ClearOf(CodeSpans(text, next), p)
    ensures next <= p || q2 - p2 != q - p
  {
    hide CodeSpans, ClearOf, TickRun, Outside, FindClose;
    SpanPast(text, i, p);
    RunHere(text, i, p, q);
    TickOrder(text, p, q);
    var end := RunEnd(text, i, BACKTICK);
    var found := FindClose(text, end, end - i);
    if found.Some? {
      CloseOutside(text, end, end - i);
      next := found.value + (end - i);
    } else {
      next := end;
      if p == i { NoClose(text, end, end - i, p2, q2); }
    }
  }

  /** A run of backticks outside every span has no later run of its length. */
  lemma {:induction false} LoneTicks(text: bytes, i: nat, p: int, q: int, p2: int, q2: int)
    requires Outside(text, i) && TickRun(text, p, q) && i <= p && TickRun(text, p2, q2) && q <= p2
    requires ClearOf(CodeSpans(text, i), p)
    ensures q2 - p2 != q - p
    decreases |text| - i
  {
    if text[i] != '`' as int {
      LoneTicks(text, i + 1, p, q, p2, q2);
    } else {
      hide CodeSpans, TickRun, ClearOf, Outside;
      var next := ScanPast(text, i, p, q, p2, q2);
      if next <= p { LoneTicks(text, next, p, q, p2, q2); }
    }
  }
}
