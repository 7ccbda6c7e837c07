/** Decimal text of 64-bit counters: `write_uint64_string` and `parse_uint64_field` of src/cli_history_codec.c. */
module Decimal {
  import opened Basics

  function Digits(n: nat): (text: bytes)
    decreases n
  {
    if n < 10 then [0x30 + n] else Digits(n / 10) + [0x30 + n % 10]
  }

  /** The number a digit string denotes, or None if a byte is not a digit. */
  function ValueOf(s: bytes): (found: Option<nat>) {
    if s == [] then Some(0)
    else
      var last := s[|s| - 1];
      match ValueOf(s[..|s| - 1])
      case None => None
      case Some(v) => if 0x30 <= last <= 0x39 then Some(v * 10 + (last - 0x30)) else None
  }

  /** What `parse_uint64_field` accepts: one to twenty digits, no leading zero, within 64 bits. */
  function ParsedU64(s: bytes): (found: Option<u64>) {
    if s == [] || |s| > 20 || (|s| > 1 && s[0] == 0x30) then None
    else
      match ValueOf(s)
      case None => None
      case Some(v) => if v <= U64_MAX then Some(v) else None
  }

  lemma {:induction false} ValueOfDigits(n: nat)
    ensures ValueOf(Digits(n)) == Some(n)
    decreases n
  {
    var s := Digits(n);
    if n < 10 {
      assert s[..0] == [];
      assert ValueOf(s[..0]) == Some(0);
    } else {
      ValueOfDigits(n / 10);
      assert s[..|s| - 1] == Digits(n / 10);
    }
  }

  function Pow10(k: nat): (p: nat)
    ensures p > 0
  {
    if k == 0 then 1 else 10 * Pow10(k - 1)
  }

  lemma {:induction false} DigitsShape(n: nat, k: nat)
    requires n < Pow10(k) && k > 0
    ensures 0 < |Digits(n)| <= k
    ensures |Digits(n)| > 1 ==> Digits(n)[0] != 0x30
    ensures Digits(n)[0] == 0x30 ==> n == 0
    decreases n
  {
    if n >= 10 {
      assert k > 1;
      DigitsShape(n / 10, k - 1);
      assert Digits(n)[0] == Digits(n / 10)[0];
    }
  }

  lemma TwentyDigits()
    ensures U64_MAX < Pow10(20)
  {
    assert Pow10(4) == 10000;
    assert Pow10(8) == 10000 * Pow10(4);
    assert Pow10(12) == 10000 * Pow10(8);
    assert Pow10(16) == 10000 * Pow10(12);
    assert Pow10(20) == 10000 * Pow10(16);
  }

  /** A digit string without a leading zero is the decimal text of its value. */
  lemma {:induction false} OnlyDigits(s: bytes)
    requires s != [] && ValueOf(s).Some? && (|s| > 1 ==> s[0] != 0x30)
    ensures Digits(ValueOf(s).value) == s
    ensures s[0] != 0x30 ==> ValueOf(s).value > 0
    decreases |s|
  {
    var init, last := s[..|s| - 1], s[|s| - 1];
    assert s == init + [last];
    if |s| == 1 {
      assert ValueOf(init) == Some(0);
    } else {
      OnlyDigits(init);
      var v := ValueOf(init).value;
      assert (v * 10 + (last - 0x30)) / 10 == v;
    }
  }

  /** Writing and parsing undo each other; the accepted texts are exactly the written ones. */
  lemma DecimalRoundTrip(n: u64, s: bytes)
    ensures ParsedU64(Digits(n)) == Some(n)
    ensures ParsedU64(s) == Some(n) <==> s == Digits(n)
  {
    TwentyDigits();
    DigitsShape(n, 20);
    ValueOfDigits(n);
    if ParsedU64(s) == Some(n) { OnlyDigits(s); }
  }

  lemma {:induction false} ValueGrows(s: bytes, k: nat)
    requires k <= |s|
    ensures ValueOf(s).Some? ==> ValueOf(s[..k]).Some? && ValueOf(s[..k]).value <= ValueOf(s).value
    decreases |s|
  {
    if k < |s| {
      ValueGrows(s[..|s| - 1], k);
      assert s[..|s| - 1][..k] == s[..k];
    } else {
      assert s[..k] == s;
    }
  }

  /** The digit loop, refusing before the 64-bit product would wrap. */
  method ParseU64(text: bytes) returns (value: Option<u64>)
    ensures value == ParsedU64(text)
  {
    if |text| == 0 || |text| > 20 || (|text| > 1 && text[0] == 0x30) { return None; }
    var v: u64 := 0;
    var i := 0;
    while i < |text|
      invariant i <= |text| && ValueOf(text[..i]) == Some(v)
    {
      ValueGrows(text, i + 1);
      assert text[..i + 1][..i] == text[..i];
      if text[i] < 0x30 || text[i] > 0x39 { return None; }
      var digit := text[i] - 0x30;
      if v > (U64_MAX - digit) / 10 {
        assert v * 10 + digit > U64_MAX;
        return None;
      }
      v := v * 10 + digit;
      i := i + 1;
    }
    assert text[..i] == text;
    return Some(v);
  }
}
