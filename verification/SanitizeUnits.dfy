/** What the sanitizer makes of a text that is a sequence of whole characters and whole control functions. */
module SanitizeUnits {
  import opened Basics
  import opened Sanitize

  /** The pieces of section 5 of ECMA-48 and of UTF-8 text that the sanitizer tells apart. */
  datatype Piece =
    | Plain(b: byte)
    | Control(b: byte)
    | Latin(b: byte)
    | C1(b: byte)
    | EscapePair(b: byte)
    | Sequence(body: bytes, final: byte)
    | ControlText(introducer: byte, body: bytes, bell: bool)

  /** A control string that is still open behind this body: an ESC takes the next byte with it. */
  predicate StaysOpen(body: bytes)
    decreases body
  {
    body == []
    || (if body[0] == 0x1B then |body| > 1 && body[1] != '\\' as int && StaysOpen(body[2..])
        else body[0] != 0x07 && StaysOpen(body[1..]))
  }

  predicate Opens(b: byte) {
    b == 'P' as int || b == ']' as int || b == 'X' as int || b == '^' as int || b == '_' as int
  }

  predicate PieceOk(p: Piece) {
    match p
    case Plain(b) => b == 0x09 || b == 0x0A || 0x20 <= b <= 0x7E || (b >= 0x80 && b != 0xC2)
    case Control(b) => (b < 0x20 && b != 0x09 && b != 0x0A && b != 0x1B) || b == 0x7F
    case Latin(b) => 0xA0 <= b <= 0xBF
    case C1(b) => 0x80 <= b <= 0x9F
    case EscapePair(b) => 0x20 <= b <= 0x7E && b != '[' as int && !Opens(b)
    case Sequence(body, final) =>
      (forall i :: 0 <= i < |body| ==> !(0x40 <= body[i] <= 0x7E)) && 0x40 <= final <= 0x7E && |body| < 4094
    case ControlText(introducer, body, _) => Opens(introducer) && StaysOpen(body) && |body| < 4093
  }

  function PieceText(p: Piece): (text: bytes) {
    match p
    case Plain(b) => [b]
    case Control(b) => [b]
    case Latin(b) => [0xC2, b]
    case C1(b) => [0xC2, b]
    case EscapePair(b) => [0x1B, b]
    case Sequence(body, final) => [0x1B, '[' as int] + body + [final]
    case ControlText(introducer, body, bell) =>
      [0x1B, introducer] + body + if bell then [0x07] else [0x1B, '\\' as int]
  }

  /** Text is shown as it is; a control function leaves no trace. */
  function PieceShown(p: Piece): (text: bytes) {
    match p
    case Plain(b) => [b]
    case Latin(b) => [0xC2, b]
    case _ => []
  }

  function AllText(ps: seq<Piece>): (text: bytes) {
    if ps == [] then [] else PieceText(ps[0]) + AllText(ps[1..])
  }

  function AllShown(ps: seq<Piece>): (text: bytes) {
    if ps == [] then [] else PieceShown(ps[0]) + AllShown(ps[1..])
  }

  lemma FeedPair(s: State, a: byte, b: byte)
    ensures
      var first := FeedByte(s, a);
      var second := FeedByte(first.state, b);
      Feed(s, [a, b]) == Fed(second.state, first.out + second.out)
  {
    hide FeedByte;
    TwoBytes(s, [a, b]);
    assert [a, b][2..] == [];
    var first := FeedByte(s, a);
    var second := FeedByte(first.state, b);
    NothingFed(second.state);
    assert first.out + second.out + [] == first.out + second.out;
  }

  lemma FeedOneByte(s: State, b: byte)
    ensures Feed(s, [b]) == FeedByte(s, b)
  {
    hide FeedByte;
    assert [b][1..] == [];
    NothingFed(FeedByte(s, b).state);
    assert FeedByte(s, b).out + [] == FeedByte(s, b).out;
  }

  lemma {:induction false} OpenBody(n: nat, body: bytes)
    requires StaysOpen(body) && n + |body| < MAX_SEQUENCE
    ensures Feed(State(ControlString, n), body) == Fed(State(ControlString, n + |body|), [])
    decreases body
  {
    if body != [] {
      if body[0] == 0x1B {
        TwoBytes(State(ControlString, n), body);
        OpenBody(n + 2, body[2..]);
      } else {
        OpenBody(n + 1, body[1..]);
      }
    }
  }

  lemma SequenceGone(body: bytes, final: byte)
    requires PieceOk(Sequence(body, final))
    ensures Feed(START, PieceText(Sequence(body, final))) == Fed(START, [])
  {
    ControlSequenceVanishes(body, final, []);
    NothingFed(START);
    assert [0x1B, '[' as int] + body + [final] + [] == [0x1B, '[' as int] + body + [final];
  }

  lemma TextGone(introducer: byte, body: bytes, bell: bool)
    requires PieceOk(ControlText(introducer, body, bell))
    ensures Feed(START, PieceText(ControlText(introducer, body, bell))) == Fed(START, [])
  {
    var tail: bytes := if bell then [0x07] else [0x1B, '\\' as int];
    IntroducerFed(introducer);
    TerminatorFed(2 + |body|, bell);
    hide Feed, FeedByte, Capped;
    OpenBody(2, body);
    FeedConcat(START, [0x1B, introducer], body);
    FeedConcat(START, [0x1B, introducer] + body, tail);
  }

  lemma IntroducerFed(introducer: byte)
    requires Opens(introducer)
    ensures Feed(START, [0x1B, introducer]) == Fed(State(ControlString, 2), [])
  {
    hide Feed;
    FeedPair(START, 0x1B, introducer);
  }

  lemma TerminatorFed(n: nat, bell: bool)
    requires n + 1 < MAX_SEQUENCE
    ensures Feed(State(ControlString, n), if bell then [0x07] else [0x1B, '\\' as int]) == Fed(START, [])
  {
    hide Feed;
    FeedOneByte(State(ControlString, n), 0x07);
    FeedPair(State(ControlString, n), 0x1B, '\\' as int);
  }

  lemma ShortPiece(p: Piece)
    requires PieceOk(p) && !p.Sequence? && !p.ControlText?
    ensures Feed(START, PieceText(p)) == Fed(START, PieceShown(p))
  {
    hide Feed;
    match p
    case Plain(b) => FeedOneByte(START, b);
    case Control(b) => FeedOneByte(START, b);
    case Latin(b) => FeedPair(START, 0xC2, b);
    case C1(b) => FeedPair(START, 0xC2, b);
    case EscapePair(b) => FeedPair(START, 0x1B, b);
  }

  /** Every piece is shown or gone, and the next one starts afresh. */
  lemma PieceFed(p: Piece)
    requires PieceOk(p)
    ensures Feed(START, PieceText(p)) == Fed(START, PieceShown(p))
  {
    match p
    case Sequence(body, final) => SequenceGone(body, final);
    case ControlText(introducer, body, bell) => TextGone(introducer, body, bell);
    case _ => ShortPiece(p);
  }

  /** A text of such pieces is shown without its control functions, and otherwise byte for byte. */
  lemma {:induction false} PiecesShown(ps: seq<Piece>)
    requires forall i :: 0 <= i < |ps| ==> PieceOk(ps[i])
    ensures Feed(START, AllText(ps)) == Fed(START, AllShown(ps)) && Sanitized(AllText(ps)) == AllShown(ps)
  {
    hide PieceOk, PieceText, PieceShown;
    if ps == [] {
      NothingFed(START);
    } else {
      PieceFed(ps[0]);
      PiecesShown(ps[1..]);
      FeedConcat(START, PieceText(ps[0]), AllText(ps[1..]));
    }
  }

  /** An ESC before anything else is dropped by itself: the byte behind it is read afresh. */
  lemma LoneEscape(b: byte, rest: bytes)
    requires !(0x20 <= b <= 0x7E)
    ensures Feed(START, [0x1B, b] + rest) == Feed(START, [b] + rest)
  {
    EscapeDropped(b);
    hide *;
    FeedPair(START, 0x1B, b);
    FeedOneByte(START, b);
    assert [] + FeedByte(START, b).out == FeedByte(START, b).out;
    FeedConcat(START, [0x1B, b], rest);
    FeedConcat(START, [b], rest);
  }

  lemma EscapeDropped(b: byte)
    requires !(0x20 <= b <= 0x7E)
    ensures FeedByte(START, 0x1B).out == []
    ensures FeedByte(FeedByte(START, 0x1B).state, b) == FeedByte(START, b)
  {
    assert FeedByte(START, 0x1B) == Fed(State(Escape, 1), []);
  }
}
