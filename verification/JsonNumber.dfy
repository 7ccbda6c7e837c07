/** The number grammar of section 6 of RFC 8259, and that the parser's left-to-right reading is exactly it. */
module JsonNumber {
  import opened Basics
  import opened JsonText
  import Decimal

  predicate AllDigits(s: bytes) {
    forall i :: 0 <= i < |s| ==> IsDigit(s[i])
  }

  /** `int = zero / ( digit1-9 *DIGIT )` */
  predicate IntText(s: bytes) {
    s == [0x30] || (s != [] && s[0] != 0x30 && AllDigits(s))
  }

  /** `[ frac ]`, where `frac = decimal-point 1*DIGIT` */
  predicate FracText(s: bytes) {
    s == [] || (|s| > 1 && s[0] == 0x2E && AllDigits(s[1..]))
  }

  /** `[ exp ]`, where `exp = e [ minus / plus ] 1*DIGIT` */
  predicate ExpText(s: bytes) {
    || s == []
    || (&& (s[0] == 0x65 || s[0] == 0x45)
        && var rest := if |s| > 1 && (s[1] == 0x2B || s[1] == MINUS) then s[2..] else s[1..];
           rest != [] && AllDigits(rest))
  }

  /** `int frac exp` at these places. */
  predicate UnsignedAt(s: bytes, a: nat, b: nat) {
    a <= b <= |s| && IntText(s[..a]) && FracText(s[a..b]) && ExpText(s[b..])
  }

  predicate IsUnsigned(s: bytes) {
    exists a, b :: 0 <= a <= b <= |s| && UnsignedAt(s, a, b)
  }

  /** `number = [ minus ] int [ frac ] [ exp ]` */
  predicate IsNumber(s: bytes) {
    IsUnsigned(s) || (s != [] && s[0] == MINUS && IsUnsigned(s[1..]))
  }

  /** How many digits `s` starts with. */
  function Digits(s: bytes): (n: nat)
    ensures n <= |s| && AllDigits(s[..n]) && (n < |s| ==> !IsDigit(s[n]))
    ensures SkipDigits(s) == s[n..]
  {
    if s != [] && IsDigit(s[0]) then
      var n := Digits(s[1..]);
      assert s[..n + 1] == [s[0]] + s[1..][..n];
      n + 1
    else 0
  }

  lemma {:induction false} DigitsTake(s: bytes, k: nat)
    requires k <= |s| && AllDigits(s[..k]) && (k < |s| ==> !IsDigit(s[k]))
    ensures Digits(s) == k
  {
    if k > 0 {
      assert IsDigit(s[..k][0]);
      assert s[..k][1..] == s[1..][..k - 1];
      DigitsTake(s[1..], k - 1);
    }
  }

  lemma ExpRead(s: bytes)
    ensures ExponentPart(s) <==> ExpText(s)
  {
    if s != [] {
      var rest := if |s| > 1 && (s[1] == 0x2B || s[1] == MINUS) then s[2..] else s[1..];
      var n := Digits(rest);
      if AllDigits(rest) {
        assert rest[..|rest|] == rest;
        DigitsTake(rest, |rest|);
      }
      if SkipDigits(rest) == [] { assert rest[..n] == rest; }
    }
  }

  /** A fraction starts with a point, an exponent with an `e`. */
  lemma PartStarts(s: bytes, k: nat)
    requires s != [] && k <= |s|
    ensures k > 0 && FracText(s[..k]) ==> s[0] == 0x2E
    ensures k == 0 && ExpText(s[k..]) ==> s[0] == 0x65 || s[0] == 0x45
  {
    if k > 0 { assert s[..k][0] == s[0]; }
  }

  lemma PointUnique(s: bytes, k: nat)
    requires s != [] && s[0] == 0x2E && k <= |s| && FracText(s[..k]) && ExpText(s[k..])
    ensures k == 1 + Digits(s[1..])
  {
    PartStarts(s, k);
    assert s[..k][1..] == s[1..][..k - 1];
    if k < |s| { assert s[k..][0] == s[k] == s[1..][k - 1]; }
    DigitsTake(s[1..], k - 1);
  }

  /** A fraction ends where its digits end: what follows starts an exponent or nothing. */
  function FracEnd(s: bytes): (b: nat)
    ensures b <= |s|
  {
    if s != [] && s[0] == 0x2E then 1 + Digits(s[1..]) else 0
  }

  lemma FracRead(s: bytes)
    ensures FractionPart(s) <==> FracText(s[..FracEnd(s)]) && ExpText(s[FracEnd(s)..])
  {
    var b := FracEnd(s);
    ExpRead(s[b..]);
    if b > 0 {
      TwoCuts(s, 1, b);
      assert s[..b][1..] == s[1..b];
    } else {
      assert s[0..] == s && s[..0] == [];
    }
  }

  lemma FracUnique(s: bytes, k: nat)
    requires k <= |s| && FracText(s[..k]) && ExpText(s[k..])
    ensures k == FracEnd(s)
  {
    if s != [] {
      PartStarts(s, k);
      if s[0] == 0x2E { PointUnique(s, k); }
    }
  }

  function IntEnd(s: bytes): (a: nat)
    requires s != []
    ensures a <= |s|
  {
    if s[0] == 0x30 then 1 else Digits(s)
  }

  lemma IntRead(s: bytes)
    requires s != []
    ensures IntegerPart(s) <==> IntText(s[..IntEnd(s)]) && FractionPart(s[IntEnd(s)..])
  {
    var a := IntEnd(s);
    if s[0] == 0x30 {
      assert s[..1] == [0x30];
    } else if a > 0 {
      assert s[..a][0] == s[0];
    }
  }

  lemma IntUnique(s: bytes, k: nat)
    requires 0 < k <= |s| && IntText(s[..k]) && (k < |s| ==> !IsDigit(s[k])) && (s[0] == 0x30 ==> k == 1)
    ensures k == IntEnd(s)
  {
    if s[0] != 0x30 {
      assert s[..k][0] == s[0];
      DigitsTake(s, k);
    }
  }

  lemma TwoCuts(s: bytes, a: nat, b: nat)
    requires a <= b <= |s|
    ensures s[a..][..b - a] == s[a..b] && s[a..][b - a..] == s[b..]
  {
  }

  lemma ReadIsUnsigned(s: bytes)
    requires IntegerPart(s)
    ensures IsUnsigned(s)
  {
    var a := IntEnd(s);
    var b := a + FracEnd(s[a..]);
    IntRead(s);
    FracRead(s[a..]);
    TwoCuts(s, a, b);
    hide IntText, FracText, ExpText;
    assert UnsignedAt(s, a, b);
  }

  lemma UnsignedIsRead(s: bytes, i: nat, j: nat)
    requires UnsignedAt(s, i, j)
    ensures IntegerPart(s)
  {
    AfterInt(s, i, j);
    IntUnique(s, i);
    IntRead(s);
    TwoCuts(s, i, j);
    FracUnique(s[i..], j - i);
    FracRead(s[i..]);
  }

  lemma UnsignedRead(s: bytes)
    ensures IntegerPart(s) <==> IsUnsigned(s)
  {
    hide UnsignedAt;
    if IntegerPart(s) { ReadIsUnsigned(s); }
    if IsUnsigned(s) {
      var i, j :| 0 <= i <= j <= |s| && UnsignedAt(s, i, j);
      UnsignedIsRead(s, i, j);
    }
  }

  lemma AfterInt(s: bytes, i: nat, j: nat)
    requires UnsignedAt(s, i, j)
    ensures i > 0 && (i < |s| ==> !IsDigit(s[i]))
    ensures s[0] == 0x30 ==> i == 1
  {
    assert s[..i][0] == s[0];
    if i < j {
      assert s[i..j][0] == s[i];
    } else if i < |s| {
      assert s[j..][0] == s[i];
    }
  }

  /** The parser accepts exactly the numbers of the grammar. */
  lemma LiteralIffGrammar(s: bytes)
    ensures IsNumberLiteral(s) <==> IsNumber(s)
  {
    if s != [] && s[0] == MINUS {
      UnsignedRead(s[1..]);
      UnsignedRead(s);
      assert !IsDigit(MINUS);
    } else {
      UnsignedRead(s);
    }
  }

  // ----- the value of a literal -----

  function DigitsValue(s: bytes): (v: nat) {
    match Decimal.ValueOf(s)
    case Some(v) => v
    case None => 0
  }

  function ExponentValue(s: bytes): (e: int) {
    if |s| < 2 then 0
    else if s[1] == MINUS then 0 - DigitsValue(s[2..])
    else if s[1] == 0x2B then DigitsValue(s[2..])
    else DigitsValue(s[1..])
  }

  function Scaled(mantissa: nat, exponent: int): (v: real) {
    if exponent >= 0 then (mantissa * Decimal.Pow10(exponent)) as real
    else mantissa as real / Decimal.Pow10(-exponent) as real
  }

  /** The real number an unsigned literal denotes: its digits without the point, scaled by the exponent. */
  function UnsignedValue(s: bytes): (v: real) {
    if s == [] then 0.0
    else
      var a := IntEnd(s);
      var b := a + FracEnd(s[a..]);
      var fraction := if a < b then s[a + 1..b] else [];
      Scaled(DigitsValue(s[..a] + fraction), ExponentValue(s[b..]) - |fraction|)
  }

  function LiteralValue(s: bytes): (v: real) {
    if s != [] && s[0] == MINUS then -UnsignedValue(s[1..]) else UnsignedValue(s)
  }

  const TWO_53: real := 9007199254740992.0

  /**
   * The reals whose nearest IEEE 754 double is 1: its neighbours are 2^-53 below and 2^-52 above, and a tie goes
   * to 1, whose significand is even.
   */
  predicate RoundsToOne(v: real) {
    1.0 - 0.5 / TWO_53 <= v <= 1.0 + 1.0 / TWO_53
  }

  /** A literal without sign, point and exponent denotes its digits, so only `1` itself reads as the version. */
  lemma IntegerLiteral(s: bytes)
    requires IntText(s)
    ensures LiteralValue(s) == DigitsValue(s) as real
    ensures RoundsToOne(LiteralValue(s)) <==> s == [0x31]
  {
    assert s[..|s|] == s;
    if s[0] != 0x30 { DigitsTake(s, |s|); }
    assert IntEnd(s) == |s| && s[|s|..] == [];
    assert s + [] == s;
    AllDigitsValue(s);
    Decimal.OnlyDigits(s);
    Decimal.ValueOfDigits(1);
  }

  lemma {:induction false} AllDigitsValue(s: bytes)
    requires AllDigits(s)
    ensures Decimal.ValueOf(s).Some?
    decreases |s|
  {
    if s != [] { AllDigitsValue(s[..|s| - 1]); }
  }

  /** A point or an exponent is no obstacle: `1.0` and `10e-1` read as 1, `1.1` does not. */
  lemma VersionLiterals()
    ensures RoundsToOne(LiteralValue([0x31, 0x2E, 0x30]))
    ensures RoundsToOne(LiteralValue([0x31, 0x30, 0x65, MINUS, 0x31]))
    ensures !RoundsToOne(LiteralValue([0x31, 0x2E, 0x31]))
  {
    PointLiteral(0x30);
    PointLiteral(0x31);
    ExponentLiteral();
  }

  lemma TwoDigits(a: byte, b: byte)
    requires IsDigit(a) && IsDigit(b)
    ensures DigitsValue([a]) == a - 0x30 && DigitsValue([a, b]) == 10 * (a - 0x30) + (b - 0x30)
  {
    assert [a][..0] == [] && [a, b][..1] == [a];
    assert Decimal.ValueOf([]) == Some(0);
    assert Decimal.ValueOf([a]) == Some(a - 0x30);
  }

  lemma PointLiteral(digit: byte)
    requires IsDigit(digit)
    ensures LiteralValue([0x31, 0x2E, digit]) == (10 + (digit - 0x30)) as real / 10.0
  {
    var s := [0x31, 0x2E, digit];
    DigitsTake(s, 1);
    var rest: bytes := [0x2E, digit];
    assert s[1..] == rest && rest[1..] == [digit] && [digit][..1] == [digit];
    DigitsTake([digit], 1);
    assert s[..1] == [0x31] && s[2..3] == [digit] && s[3..] == [];
    assert [0x31] + [digit] == [0x31, digit];
    TwoDigits(0x31, digit);
    assert Decimal.Pow10(1) == 10;
  }

  lemma ExponentLiteral()
    ensures LiteralValue([0x31, 0x30, 0x65, MINUS, 0x31]) == 1.0
  {
    var s := [0x31, 0x30, 0x65, MINUS, 0x31];
    var rest: bytes := [0x65, MINUS, 0x31];
    assert s[..2] == [0x31, 0x30] && s[2..] == rest;
    DigitsTake(s, 2);
    assert [0x31, 0x30] + [] == [0x31, 0x30] && rest[0..] == rest && rest[2..] == [0x31];
    TwoDigits(0x31, 0x30);
    assert Decimal.Pow10(1) == 10;
    hide Decimal.ValueOf, Decimal.Pow10, Digits;
  }
}
