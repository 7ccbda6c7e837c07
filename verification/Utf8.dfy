/** UTF-8 sequences: section 4 of RFC 3629 and the scanners of src/cli_utf8.c that must agree with it. */
module Utf8 {
  import opened Basics

  predicate IsTail(b: byte) {
    0x80 <= b <= 0xBF
  }

  /** One character in the grammar of section 4 of RFC 3629 (`UTF8-char`). */
  predicate IsChar(s: bytes) {
    || (|s| == 1 && s[0] <= 0x7F)
    || (|s| == 2 && 0xC2 <= s[0] <= 0xDF && IsTail(s[1]))
    || (|s| == 3 && IsTail(s[2])
        && (|| (s[0] == 0xE0 && 0xA0 <= s[1] <= 0xBF)
            || (0xE1 <= s[0] <= 0xEC && IsTail(s[1]))
            || (s[0] == 0xED && 0x80 <= s[1] <= 0x9F)
            || (0xEE <= s[0] <= 0xEF && IsTail(s[1]))))
    || (|s| == 4 && IsTail(s[2]) && IsTail(s[3])
        && (|| (s[0] == 0xF0 && 0x90 <= s[1] <= 0xBF)
            || (0xF1 <= s[0] <= 0xF3 && IsTail(s[1]))
            || (s[0] == 0xF4 && 0x80 <= s[1] <= 0x8F)))
  }

  /** A sequence of characters (`UTF8-octets`). */
  predicate WellFormed(s: bytes) {
    s == [] || exists n :: 1 <= n <= |s| && IsChar(s[..n]) && WellFormed(s[n..])
  }

  /** The length a lead byte announces; 0 is OI_ERR_PARSE. */
  function LeadLength(b: byte): (n: nat) {
    if b <= 0x7F then 1
    else if 0xC2 <= b <= 0xDF then 2
    else if 0xE0 <= b <= 0xEF then 3
    else if 0xF0 <= b <= 0xF4 then 4
    else 0
  }

  /** The length of the character `s` starts with; 0 is OI_ERR_PARSE. */
  function SequenceLength(s: bytes): (result: nat) {
    if s == [] then 0
    else
      var n := LeadLength(s[0]);
      if n <= 1 then n
      else if |s| < n || !IsTail(s[1]) || (n >= 3 && !IsTail(s[2])) || (n == 4 && !IsTail(s[3])) then 0
      else if s[0] == 0xE0 && s[1] < 0xA0 then 0
      else if s[0] == 0xED && s[1] > 0x9F then 0
      else if s[0] == 0xF0 && s[1] < 0x90 then 0
      else if s[0] == 0xF4 && s[1] > 0x8F then 0
      else n
  }

  /** The scanner accepts exactly the grammar's characters, and only one prefix can be one. */
  lemma SequenceIsChar(s: bytes, n: nat)
    requires n <= |s|
    ensures n > 0 && SequenceLength(s) == n <==> IsChar(s[..n])
  {
    if n > 0 { assert s[..n][0] == s[0]; }
  }

  lemma LengthWithin(s: bytes)
    ensures SequenceLength(s) <= |s|
  {
  }

  lemma WellFormedStep(s: bytes)
    requires s != []
    ensures SequenceLength(s) <= |s|
    ensures WellFormed(s) <==> SequenceLength(s) > 0 && WellFormed(s[SequenceLength(s)..])
  {
    hide IsChar;
    var k := SequenceLength(s);
    LengthWithin(s);
    SequenceIsChar(s, k);
    if WellFormed(s) {
      var n :| 1 <= n <= |s| && IsChar(s[..n]) && WellFormed(s[n..]);
      SequenceIsChar(s, n);
    }
  }

  /** A well-formed text is its first character and a well-formed rest. */
  lemma FirstChar(s: bytes) returns (n: nat)
    requires s != [] && WellFormed(s)
    ensures n == SequenceLength(s) && 0 < n <= |s|
    ensures IsChar(s[..n]) && WellFormed(s[n..]) && s[..n] + s[n..] == s
  {
    hide WellFormed, IsChar, SequenceLength;
    n := SequenceLength(s);
    WellFormedStep(s);
    SequenceIsChar(s, n);
  }

  lemma SequenceExtends(s: bytes, t: bytes)
    requires SequenceLength(s) > 0
    ensures SequenceLength(s + t) == SequenceLength(s)
  {
    WellFormedStep(s);
    SequenceIsChar(s, SequenceLength(s));
    SequenceIsChar(s + t, SequenceLength(s));
    assert (s + t)[..SequenceLength(s)] == s[..SequenceLength(s)];
  }

  /** After a well-formed prefix, the whole is well-formed exactly when the rest is. */
  lemma {:induction false} WellFormedConcat(a: bytes, b: bytes)
    requires WellFormed(a)
    ensures WellFormed(a + b) <==> WellFormed(b)
    decreases |a|
  {
    if a == [] {
      assert a + b == b;
    } else {
      var n := FirstChar(a);
      SequenceExtends(a, b);
      hide WellFormed, SequenceLength, IsChar;
      WellFormedStep(a + b);
      assert (a + b)[n..] == a[n..] + b;
      WellFormedConcat(a[n..], b);
    }
  }

  lemma EmptyWellFormed()
    ensures WellFormed([])
  {
  }

  lemma CharWellFormed(c: bytes)
    requires IsChar(c)
    ensures WellFormed(c)
  {
    assert c[..|c|] == c && c[|c|..] == [];
  }

  /** ASCII text is well-formed. */
  lemma {:induction false} AsciiWellFormed(s: bytes)
    requires forall i :: 0 <= i < |s| ==> s[i] <= 0x7F
    ensures WellFormed(s)
  {
    if s != [] {
      assert s[0] <= 0x7F;
      AsciiWellFormed(s[1..]);
      WellFormedStep(s);
    }
  }

  /** `oi_cli_utf8_validate`. */
  method Validate(s: bytes) returns (ok: bool)
    ensures ok == WellFormed(s)
  {
    EmptyWellFormed();
    hide WellFormed, SequenceLength;
    var offset := 0;
    assert s[0..] == s;
    while offset < |s|
      invariant offset <= |s| && WellFormed(s) == WellFormed(s[offset..])
    {
      WellFormedStep(s[offset..]);
      var n := SequenceLength(s[offset..]);
      if n == 0 { return false; }
      assert s[offset..][n..] == s[offset + n..];
      offset := offset + n;
    }
    assert s[offset..] == [];
    return true;
  }

  /** The offset behind the character at `offset`. */
  function NextBoundary(s: bytes, offset: nat): (found: Option<nat>) {
    if offset >= |s| || SequenceLength(s[offset..]) == 0 then None
    else Some(offset + SequenceLength(s[offset..]))
  }

  /** Going back over tail bytes from `offset`. */
  function BackOver(s: bytes, offset: nat): (n: nat)
    requires offset < |s|
  {
    if offset > 0 && IsTail(s[offset]) then BackOver(s, offset - 1) else offset
  }

  /** The offset of the character that ends at `offset`. */
  function PreviousBoundary(s: bytes, offset: nat): (found: Option<nat>) {
    if offset == 0 || offset > |s| then None
    else
      var start := BackOver(s, offset - 1);
      if start < offset && start + SequenceLength(s[start..offset]) == offset then Some(start) else None
  }

  lemma {:induction false} BackOverTails(s: bytes, start: nat, offset: nat)
    requires start <= offset < |s| && !IsTail(s[start])
    requires forall i :: start < i <= offset ==> IsTail(s[i])
    ensures BackOver(s, offset) == start
    decreases offset
  {
    if offset > start {
      BackOverTails(s, start, offset - 1);
    }
  }

  /** Stepping back undoes stepping forward. */
  lemma PreviousUndoesNext(s: bytes, offset: nat)
    requires NextBoundary(s, offset).Some?
    ensures
      var next := NextBoundary(s, offset).value;
      offset < next <= |s| && PreviousBoundary(s, next) == Some(offset)
  {
    var rest := s[offset..];
    var n := SequenceLength(rest);
    WellFormedStep(rest);
    assert forall i :: 0 <= i < n ==> rest[i] == s[offset + i];
    BackOverTails(s, offset, offset + n - 1);
    assert s[offset..offset + n] == rest[..n];
    SequenceIsChar(rest, n);
    SequenceIsChar(rest[..n], n);
    assert rest[..n][..n] == rest[..n];
  }

  lemma SliceJoins(s: bytes, i: nat, j: nat)
    requires i <= j <= |s|
    ensures s[i..j] + s[j..] == s[i..]
  {
  }

  /** At the end of a non-empty well-formed prefix there is a character to step back over. */
  lemma {:induction false} PreviousExists(s: bytes, offset: nat)
    requires 0 < offset <= |s| && WellFormed(s[..offset])
    ensures
      && PreviousBoundary(s, offset).Some?
      && var start := PreviousBoundary(s, offset).value;
      && start < offset
      && NextBoundary(s, start) == Some(offset)
      && WellFormed(s[..start])
      && IsChar(s[start..offset])
  {
    hide WellFormed, IsChar, SequenceLength;
    var start := LastChar(s[..offset]);
    assert s[..offset][..start] == s[..start];
    assert s[..offset][start..] == s[start..offset];
    var last := s[start..offset];
    SequenceIsChar(last, |last|);
    assert last[..|last|] == last;
    SequenceExtends(last, s[offset..]);
    SliceJoins(s, start, offset);
    PreviousUndoesNext(s, start);
  }

  lemma WholeSlices(s: bytes)
    ensures s[..|s|] == s[0..] == s && s[..0] == []
  {
  }

  lemma {:induction false} LastChar(s: bytes) returns (start: nat)
    requires s != [] && WellFormed(s)
    ensures start < |s| && WellFormed(s[..start]) && IsChar(s[start..])
    decreases |s|
  {
    hide *;
    EmptyWellFormed();
    var n := FirstChar(s);
    if n == |s| {
      start := 0;
      WholeSlices(s);
    } else {
      var rest := LastChar(s[n..]);
      start := n + rest;
      LongerPrefix(s, n, rest);
    }
  }

  lemma LongerPrefix(s: bytes, n: nat, k: nat)
    requires n + k <= |s| && IsChar(s[..n]) && WellFormed(s[n..][..k])
    ensures WellFormed(s[..n + k]) && s[n + k..] == s[n..][k..]
  {
    hide WellFormed, IsChar;
    assert s[..n + k] == s[..n] + s[n..][..k];
    CharWellFormed(s[..n]);
    WellFormedConcat(s[..n], s[n..][..k]);
  }
}
