/** Base64 as src/cli_history_codec.c writes and reads it: sections 4 and 3.5 of RFC 4648. */
module Base64 {
  import opened Basics
  import opened History

  const PAD: byte := 0x3D

  /** The alphabet of section 4 of RFC 4648. */
  function Symbol(v: nat): (b: byte)
    requires v < 64
  {
    if v < 26 then 0x41 + v
    else if v < 52 then 0x61 + (v - 26)
    else if v < 62 then 0x30 + (v - 52)
    else if v == 62 then 0x2B
    else 0x2F
  }

  /** The value of a symbol; -1 for a byte outside the alphabet. */
  function SymbolValue(c: byte): (v: int)
    ensures 0 <= v < 64 <==> v != -1
    ensures v != -1 ==> Symbol(v) == c
  {
    if 0x41 <= c <= 0x5A then c - 0x41
    else if 0x61 <= c <= 0x7A then c - 0x61 + 26
    else if 0x30 <= c <= 0x39 then c - 0x30 + 52
    else if c == 0x2B then 62
    else if c == 0x2F then 63
    else -1
  }

  /** The symbols of three octets. */
  function Quad(x: byte, y: byte, z: byte): (symbols: bytes)
    ensures |symbols| == 4
  {
    [Symbol(x / 4), Symbol(x % 4 * 16 + y / 16), Symbol(y % 16 * 4 + z / 64), Symbol(z % 64)]
  }

  /** The canonical text: pad bits are zero, and only the last quad is padded. */
  function Encoded(data: bytes): (text: bytes) {
    if data == [] then []
    else if |data| == 1 then Quad(data[0], 0, 0)[..2] + [PAD, PAD]
    else if |data| == 2 then Quad(data[0], data[1], 0)[..3] + [PAD]
    else Quad(data[0], data[1], data[2]) + Encoded(data[3..])
  }

  /** One quad: the octets it stands for, if it is canonical where it stands. */
  function DecodedQuad(q: bytes, final: bool): (found: Option<bytes>)
    requires |q| == 4
  {
    var a, b, c, d := SymbolValue(q[0]), SymbolValue(q[1]), SymbolValue(q[2]), SymbolValue(q[3]);
    if a < 0 || b < 0 then None
    else if q[2] == PAD then
      if final && q[3] == PAD && b % 16 == 0 then Some([a * 4 + b / 16]) else None
    else if c < 0 then None
    else if q[3] == PAD then
      if final && c % 4 == 0 then Some([a * 4 + b / 16, b % 16 * 16 + c / 4]) else None
    else if d < 0 then None
    else Some([a * 4 + b / 16, b % 16 * 16 + c / 4, c % 4 * 64 + d])
  }

  function Decoded(text: bytes): (found: Option<bytes>) {
    if text == [] then Some([])
    else if |text| < 4 then None
    else
      match DecodedQuad(text[..4], |text| == 4)
      case None => None
      case Some(head) =>
        match Decoded(text[4..])
        case None => None
        case Some(tail) => Some(head + tail)
  }

  lemma SymbolBack(v: nat)
    requires v < 64
    ensures SymbolValue(Symbol(v)) == v && Symbol(v) != PAD
  {
  }

  /** Table 1 of RFC 4648, read backwards. */
  function Sextet(c: byte): (v: int) {
    if 'A' as int <= c <= 'Z' as int then c - 'A' as int
    else if 'a' as int <= c <= 'z' as int then c - 'a' as int + 26
    else if '0' as int <= c <= '9' as int then c - '0' as int + 52
    else if c == '+' as int then 62
    else if c == '/' as int then 63
    else -1
  }

  /** Each symbol stands for its place in the table, and the four of a quad for the 24 bits of the three octets. */
  lemma QuadDenotes(x: byte, y: byte, z: byte)
    ensures
      var q := Quad(x, y, z);
      && (forall i :: 0 <= i < 4 ==> 0 <= Sextet(q[i]) < 64)
      && Sextet(q[0]) * 0x40000 + Sextet(q[1]) * 0x1000 + Sextet(q[2]) * 0x40 + Sextet(q[3])
         == x * 0x10000 + y * 0x100 + z
  {
    SymbolPlaces(x / 4);
    SymbolPlaces(x % 4 * 16 + y / 16);
    SymbolPlaces(y % 16 * 4 + z / 64);
    SymbolPlaces(z % 64);
    hide Symbol, Sextet;
  }

  lemma SymbolPlaces(v: nat)
    requires v < 64
    ensures Sextet(Symbol(v)) == v
  {
  }

  /** Three octets are four sextets: regrouping the 24 bits loses nothing. */
  lemma Regroup(x: byte, y: byte, z: byte)
    ensures
      var (a, b, c, d) := (x / 4, x % 4 * 16 + y / 16, y % 16 * 4 + z / 64, z % 64);
      && a < 64 && b < 64 && c < 64 && d < 64
      && a * 4 + b / 16 == x && b % 16 * 16 + c / 4 == y && c % 4 * 64 + d == z
      && (y == 0 ==> b % 16 == 0)
      && (z == 0 ==> c % 4 == 0)
  {
    assert (x % 4 * 16 + y / 16) / 16 == x % 4 && (x % 4 * 16 + y / 16) % 16 == y / 16;
    assert (y % 16 * 4 + z / 64) / 4 == y % 16 && (y % 16 * 4 + z / 64) % 4 == z / 64;
  }

  lemma QuadDecodes(x: byte, y: byte, z: byte, final: bool)
    ensures DecodedQuad(Quad(x, y, z), final) == Some([x, y, z])
    ensures z == 0 ==> DecodedQuad(Quad(x, y, z)[..3] + [PAD], true) == Some([x, y])
    ensures y == 0 ==> DecodedQuad(Quad(x, y, z)[..2] + [PAD, PAD], true) == Some([x])
  {
    hide Symbol, SymbolValue;
    Regroup(x, y, z);
    SymbolBack(x / 4);
    SymbolBack(x % 4 * 16 + y / 16);
    SymbolBack(y % 16 * 4 + z / 64);
    SymbolBack(z % 64);
  }

  /** Four sextets are three octets, the other way round. */
  lemma Rejoin(a: nat, b: nat, c: nat, d: nat)
    requires a < 64 && b < 64 && c < 64 && d < 64
    ensures
      var (x, y, z) := (a * 4 + b / 16, b % 16 * 16 + c / 4, c % 4 * 64 + d);
      && x < 256 && y < 256 && z < 256
      && x / 4 == a && x % 4 * 16 + y / 16 == b && y % 16 * 4 + z / 64 == c && z % 64 == d
      && (b % 16 == 0 ==> x % 4 * 16 + 0 / 16 == b)
      && (c % 4 == 0 ==> y % 16 * 4 + 0 / 64 == c)
  {
    assert (a * 4 + b / 16) / 4 == a && (a * 4 + b / 16) % 4 == b / 16;
    assert (b % 16 * 16 + c / 4) / 16 == b % 16 && (b % 16 * 16 + c / 4) % 16 == c / 4;
    assert (c % 4 * 64 + d) / 64 == c % 4 && (c % 4 * 64 + d) % 64 == d;
  }

  lemma DecodedQuadIs(q: bytes, final: bool)
    requires |q| == 4 && DecodedQuad(q, final).Some?
    ensures
      var octets := DecodedQuad(q, final).value;
      && 1 <= |octets| <= 3
      && (|octets| < 3 ==> final)
      && q == match |octets|
              case 1 => Quad(octets[0], 0, 0)[..2] + [PAD, PAD]
              case 2 => Quad(octets[0], octets[1], 0)[..3] + [PAD]
              case _ => Quad(octets[0], octets[1], octets[2])
  {
    hide Symbol;
    var a, b := SymbolValue(q[0]), SymbolValue(q[1]);
    var c, d := if q[2] == PAD then 0 else SymbolValue(q[2]), if q[3] == PAD then 0 else SymbolValue(q[3]);
    assert Symbol(a) == q[0] && Symbol(b) == q[1];
    hide SymbolValue;
    Rejoin(a, b, c, d);
  }

  lemma {:induction false} EncodedDecodes(data: bytes)
    ensures Decoded(Encoded(data)) == Some(data)
    ensures |Encoded(data)| == (|data| + 2) / 3 * 4
  {
    hide Quad, DecodedQuad, Symbol, SymbolValue;
    if data == [] {
    } else if |data| < 3 {
      LastEncoded(data);
      assert data == if |data| == 1 then [data[0]] else [data[0], data[1]];
      if |data| == 1 { QuadDecodes(data[0], 0, 0, true); } else { QuadDecodes(data[0], data[1], 0, true); }
      OneQuad(Encoded(data));
    } else {
      var text := Encoded(data);
      QuadDecodes(data[0], data[1], data[2], |text| == 4);
      EncodedDecodes(data[3..]);
      assert text[..4] == Quad(data[0], data[1], data[2]) && text[4..] == Encoded(data[3..]);
      assert [data[0], data[1], data[2]] + data[3..] == data;
    }
  }

  lemma OneQuad(q: bytes)
    requires |q| == 4
    ensures Decoded(q) == DecodedQuad(q, true)
  {
    assert q[..4] == q && q[4..] == [];
    assert Decoded([]) == Some([]);
    if DecodedQuad(q, true).Some? { assert DecodedQuad(q, true).value + [] == DecodedQuad(q, true).value; }
  }

  lemma {:induction false} DecodedEncodes(text: bytes)
    requires Decoded(text).Some?
    ensures Encoded(Decoded(text).value) == text
  {
    if text != [] {
      var head, tail := DecodedQuad(text[..4], |text| == 4).value, Decoded(text[4..]).value;
      DecodedQuadIs(text[..4], |text| == 4);
      DecodedEncodes(text[4..]);
      assert text == text[..4] + text[4..];
      if |text| == 4 {
        assert tail == [] && head + tail == head;
      } else {
        assert (head + tail)[3..] == tail;
      }
    }
  }

  /** Decoding undoes encoding, and a text that decodes is exactly the encoding of its result. */
  lemma CanonicalBothWays(text: bytes, data: bytes)
    ensures Decoded(text) == Some(data) <==> text == Encoded(data)
  {
    EncodedDecodes(data);
    if Decoded(text).Some? { DecodedEncodes(text); }
  }

  /** The four symbols of a 24-bit value, highest bits first. */
  function SymbolsOf(value: nat): (symbols: bytes)
    ensures |symbols| == 4
  {
    [Symbol(value / 0x40000 % 64), Symbol(value / 0x1000 % 64), Symbol(value / 64 % 64), Symbol(value % 64)]
  }

  function Packed(x: int, y: int, z: int): (n: int) {
    x * 0x10000 + y * 0x100 + z
  }

  lemma PackedSextets(x: byte, y: byte, z: byte)
    ensures
      var value := Packed(x, y, z);
      && 0 <= value
      && value / 0x40000 % 64 == x / 4
      && value / 0x1000 % 64 == x % 4 * 16 + y / 16
      && value / 64 % 64 == y % 16 * 4 + z / 64
      && value % 64 == z % 64
  {
    var value := Packed(x, y, z);
    assert value / 0x40000 == x / 4;
    assert value / 0x1000 == x * 16 + y / 16;
    assert value / 64 == x * 1024 + y * 4 + z / 64;
  }

  lemma SymbolsOfPacked(x: byte, y: byte, z: byte)
    ensures 0 <= Packed(x, y, z) && SymbolsOf(Packed(x, y, z)) == Quad(x, y, z)
  {
    hide Symbol, Packed;
    PackedSextets(x, y, z);
  }

  lemma GroupEncoded(data: bytes, i: nat, before: bytes)
    requires i + 3 <= |data|
    ensures
      before + Encoded(data[i..]) == before + Quad(data[i], data[i + 1], data[i + 2]) + Encoded(data[i + 3..])
  {
    assert data[i..][3..] == data[i + 3..];
  }

  lemma LastEncoded(data: bytes)
    requires |data| < 3
    ensures
      Encoded(data)
      == match |data|
         case 0 => []
         case 1 => Quad(data[0], 0, 0)[..2] + [PAD, PAD]
         case _ => Quad(data[0], data[1], 0)[..3] + [PAD]
  {
  }

  /** The groups of three, then a padded quad for what remains. */
  method Encode(data: bytes) returns (encoded: bytes)
    ensures encoded == Encoded(data)
  {
    hide Symbol, Encoded, Quad, SymbolsOf;
    encoded := [];
    var input := 0;
    assert data[0..] == data;
    while input + 3 <= |data|
      invariant input <= |data| && encoded + Encoded(data[input..]) == Encoded(data)
    {
      SymbolsOfPacked(data[input], data[input + 1], data[input + 2]);
      GroupEncoded(data, input, encoded);
      encoded := encoded + SymbolsOf(Packed(data[input], data[input + 1], data[input + 2]));
      input := input + 3;
    }
    var remaining := |data| - input;
    LastEncoded(data[input..]);
    if remaining == 1 {
      SymbolsOfPacked(data[input], 0, 0);
      encoded := encoded + PadTo(SymbolsOf(Packed(data[input], 0, 0)), 2);
    } else if remaining == 2 {
      SymbolsOfPacked(data[input], data[input + 1], 0);
      encoded := encoded + PadTo(SymbolsOf(Packed(data[input], data[input + 1], 0)), 3);
    }
  }

  function PadTo(symbols: bytes, kept: nat): (text: bytes)
    requires 2 <= kept <= 3 && kept <= |symbols|
  {
    symbols[..kept] + if kept == 2 then [PAD, PAD] else [PAD]
  }

  /** The three octets of a 24-bit value. */
  function OctetsOf(value: nat): (octets: bytes)
    ensures |octets| == 3
  {
    [value / 0x10000 % 256, value / 0x100 % 256, value % 256]
  }

  /** What the loop checks about one quad, its symbols' values already looked up. */
  predicate QuadRefused(q: bytes, final: bool, a: int, b: int, c: int, d: int)
    requires |q| == 4
  {
    || a < 0 || b < 0 || c < 0 || d < 0
    || (q[2] == PAD && (!final || q[3] != PAD))
    || (q[3] == PAD && !final)
    || (!final && (q[2] == PAD || q[3] == PAD))
    || (q[2] == PAD && b % 16 != 0)
    || (q[3] == PAD && q[2] != PAD && c % 4 != 0)
  }

  function Joined(a: int, b: int, c: int, d: int): (n: int) {
    a * 0x40000 + b * 0x1000 + c * 64 + d
  }

  lemma JoinedOctets(a: nat, b: nat, c: nat, d: nat)
    requires a < 64 && b < 64 && c < 64 && d < 64
    ensures
      var value := Joined(a, b, c, d);
      && 0 <= value
      && value / 0x10000 % 256 == a * 4 + b / 16
      && value / 0x100 % 256 == b % 16 * 16 + c / 4
      && value % 256 == c % 4 * 64 + d
  {
    var value := Joined(a, b, c, d);
    assert value / 0x10000 == a * 4 + b / 16;
    assert value / 0x100 == a * 1024 + b * 16 + c / 4;
  }

  lemma OctetsOfJoined(a: nat, b: nat, c: nat, d: nat)
    requires a < 64 && b < 64 && c < 64 && d < 64
    ensures 0 <= Joined(a, b, c, d)
    ensures OctetsOf(Joined(a, b, c, d)) == [a * 4 + b / 16, b % 16 * 16 + c / 4, c % 4 * 64 + d]
  {
    hide Joined;
    JoinedOctets(a, b, c, d);
  }

  /** The value of a symbol, padding counting as zero. */
  function PaddedValue(c: byte): (n: int) {
    if c == PAD then 0 else SymbolValue(c)
  }

  /** The checks of the loop refuse exactly the quads that are not canonical where they stand. */
  lemma QuadChecked(q: bytes, final: bool)
    requires |q| == 4
    ensures
      var a, b, c, d := SymbolValue(q[0]), SymbolValue(q[1]), PaddedValue(q[2]), PaddedValue(q[3]);
      && (DecodedQuad(q, final).None? <==> QuadRefused(q, final, a, b, c, d))
      && (DecodedQuad(q, final).Some? ==>
            && 0 <= Joined(a, b, c, d)
            && DecodedQuad(q, final).value == OctetsOf(Joined(a, b, c, d))[..3 - Padding(q)])
  {
    hide OctetsOf, Joined;
    var a, b, c, d := SymbolValue(q[0]), SymbolValue(q[1]), PaddedValue(q[2]), PaddedValue(q[3]);
    assert SymbolValue(PAD) == -1 && a < 64 && b < 64 && c < 64 && d < 64;
    hide SymbolValue;
    if !QuadRefused(q, final, a, b, c, d) { OctetsOfJoined(a, b, c, d); }
  }

  function Prepend(head: bytes, tail: Option<bytes>): (found: Option<bytes>) {
    if tail.None? then None else Some(head + tail.value)
  }

  lemma QuadDecoded(text: bytes, i: nat, before: bytes)
    requires i + 4 <= |text|
    ensures
      Prepend(before, Decoded(text[i..]))
      == match DecodedQuad(text[i..i + 4], i + 4 == |text|)
         case None => None
         case Some(head) => Prepend(before + head, Decoded(text[i + 4..]))
  {
    assert text[i..][..4] == text[i..i + 4] && text[i..][4..] == text[i + 4..];
    var q, tail := DecodedQuad(text[i..i + 4], i + 4 == |text|), Decoded(text[i + 4..]);
    if q.Some? && tail.Some? { assert before + (q.value + tail.value) == before + q.value + tail.value; }
  }

  /** How many of the last two bytes are padding. */
  function Padding(text: bytes): (n: nat) {
    (if text != [] && text[|text| - 1] == PAD then 1 else 0) + (if |text| > 1 && text[|text| - 2] == PAD then 1 else 0)
  }

  lemma FirstQuad(text: bytes)
    requires |text| > 4 && Decoded(text).Some?
    ensures Decoded(text[4..]).Some?
    ensures |Decoded(text).value| == 3 + |Decoded(text[4..]).value|
  {
    hide OctetsOf, SymbolValue, DecodedQuad;
    QuadChecked(text[..4], false);
    assert text[0..4] == text[..4];
    QuadPadding(text, 0);
  }

  lemma LaterPadding(text: bytes)
    requires |text| >= 8
    ensures Padding(text) == Padding(text[4..])
  {
  }

  /** The lengths of texts of at most one quad. */
  lemma ShortTexts(text: bytes)
    requires Decoded(text).Some?
    ensures text == [] || |text| >= 4
    ensures |text| <= 4 ==> |Decoded(text).value| == |text| / 4 * 3 - Padding(text)
  {
    hide SymbolValue, DecodedQuad;
    if |text| == 4 {
      hide Padding;
      QuadChecked(text, true);
      OneQuad(text);
    }
  }

  /** How long a text that decodes comes out, from its length and its last two bytes alone. */
  lemma {:induction false} DecodedLength(text: bytes)
    requires Decoded(text).Some?
    ensures |text| % 4 == 0 && |Decoded(text).value| == |text| / 4 * 3 - Padding(text)
  {
    ShortTexts(text);
    hide Decoded, Padding;
    if |text| > 4 {
      FirstQuad(text);
      DecodedLength(text[4..]);
      ShortTexts(text[4..]);
      LaterPadding(text);
    }
  }

  /** Up to three octets, as far as the fixed length of the result allows. */
  method AppendOctets(decoded: bytes, value: nat, length: nat) returns (longer: bytes)
    ensures longer == decoded + OctetsOf(value)[..Clamp(length - |decoded|)]
  {
    longer := decoded;
    if |longer| < length { longer := longer + [value / 0x10000 % 256]; }
    if |longer| < length { longer := longer + [value / 0x100 % 256]; }
    if |longer| < length { longer := longer + [value % 256]; }
  }

  function Clamp(room: int): (n: nat) {
    if room < 0 then 0 else if room > 3 then 3 else room
  }

  /** The quad loop with its result's length fixed in advance; more than 1 MiB is refused unread. */
  method Decode(text: bytes) returns (data: Option<bytes>)
    ensures
      data == match Decoded(text)
              case None => None
              case Some(octets) => if |octets| <= MAX_CONTENT then Some(octets) else None
  {
    hide SymbolValue, PaddedValue, OctetsOf, Joined, QuadRefused, DecodedQuad, Decoded;
    if Decoded(text).Some? { DecodedLength(text); }
    if |text| % 4 != 0 { return None; }
    var padding := 0;
    if |text| > 0 && text[|text| - 1] == PAD { padding := padding + 1; }
    if |text| > 1 && text[|text| - 2] == PAD { padding := padding + 1; }
    var length := |text| / 4 * 3 - padding;
    if length > MAX_CONTENT { return None; }
    var decoded: bytes := [];
    var input := 0;
    StartDecoding(text);
    while input < |text|
      invariant input <= |text| && input % 4 == 0
      invariant |decoded| == if input < |text| then input / 4 * 3 else length
      invariant Decoded(text) == Prepend(decoded, Decoded(text[input..]))
      decreases |text| - input
    {
      var q := text[input..input + 4];
      var a, b := SymbolValue(q[0]), SymbolValue(q[1]);
      var c, d := PaddedValue(q[2]), PaddedValue(q[3]);
      QuadDecoded(text, input, decoded);
      QuadChecked(q, input + 4 == |text|);
      QuadPadding(text, input);
      if QuadRefused(q, input + 4 == |text|, a, b, c, d) { return None; }
      decoded := AppendOctets(decoded, Joined(a, b, c, d), length);
      input := input + 4;
    }
    assert text[input..] == [];
    EndDecoding(decoded);
    return Some(decoded);
  }

  /** A quad that is accepted before the end has no padding; at the end it has the text's. */
  lemma QuadPadding(text: bytes, i: nat)
    requires i + 4 <= |text|
    ensures i + 4 == |text| ==> Padding(text[i..i + 4]) == Padding(text)
    ensures i + 4 < |text| && DecodedQuad(text[i..i + 4], false).Some? ==> Padding(text[i..i + 4]) == 0
  {
  }

  lemma StartDecoding(text: bytes)
    ensures Decoded(text) == Prepend([], Decoded(text[0..]))
  {
    assert text[0..] == text;
    if Decoded(text).Some? { assert [] + Decoded(text).value == Decoded(text).value; }
  }

  lemma EndDecoding(decoded: bytes)
    ensures Prepend(decoded, Decoded([])) == Some(decoded)
  {
    assert decoded + [] == decoded;
  }
}
