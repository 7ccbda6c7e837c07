/** Types every module shares: bytes, 64-bit counters, status codes and Option. */
module Basics {

  /** One octet of C `unsigned char`. */
  type byte = b: int | 0 <= b < 256

  type bytes = seq<byte>

  const U64_MAX: nat := 0xFFFF_FFFF_FFFF_FFFF

  /** A C `uint64_t`; sums are taken over `int`, so a wrap is a value outside this type. */
  type u64 = n: nat | n <= U64_MAX

  datatype Option<+T> = None | Some(value: T)

  /** The `oi_status` codes the modelled code returns. */
  datatype Status =
    | OK
    | INVAL
    | NOMEM
    | IO
    | PARSE
    | CLOSED
    | EXISTS
    | DENIED

  /** The bytes of an ASCII literal. */
  function Ascii(s: string): (text: bytes) {
    seq(|s|, i requires 0 <= i < |s| => s[i] as int % 256)
  }

  /** Chunks put back together. */
  function Concat(chunks: seq<bytes>): (whole: bytes) {
    if chunks == [] then [] else chunks[0] + Concat(chunks[1..])
  }

  predicate HasNul(s: bytes) {
    0 in s
  }
}
