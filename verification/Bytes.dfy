/** Bytes, bit strings and the one optional type the other modules share. */
module Bytes {

  datatype Option<+T> = None | Some(value: T) {
    function GetOr(default: T): T { if Some? then value else default }
  }

  type byte = x: int | 0 <= x < 256

  const U32: int := 0x1_0000_0000
  const U64: int := 0x1_0000_0000_0000_0000

  type u32 = x: int | 0 <= x < 0x1_0000_0000

  /** The four bytes of a host-order (little-endian) 32-bit word. */
  function LE32(n: u32): (b: seq<byte>)
    ensures |b| == 4
  {
    [n % 256, n / 256 % 256, n / 65536 % 256, n / 16777216]
  }

  function FromLE32(b: seq<byte>): (n: u32)
    requires |b| == 4
  {
    var b0: int, b1: int, b2: int, b3: int := b[0], b[1], b[2], b[3];
    b0 + 256 * b1 + 65536 * b2 + 16777216 * b3
  }

  lemma LE32RoundTrip(n: u32)
    ensures FromLE32(LE32(n)) == n
  {
    var a, b, c := n / 256, n / 65536, n / 16777216;
    assert b == a / 256 && c == b / 256;
  }

  lemma LE32Injective(m: u32, n: u32)
    requires LE32(m) == LE32(n)
    ensures m == n
  {
    LE32RoundTrip(m);
    LE32RoundTrip(n);
  }

  /** The `width` lowest bits of `n`, most significant first. */
  function BitsOf(n: nat, width: nat): (r: seq<bool>)
    ensures |r| == width
  {
    if width == 0 then [] else BitsOf(n / 2, width - 1) + [n % 2 == 1]
  }

  /** A byte string as a bit string, in network order. */
  function Bits(bs: seq<byte>): (r: seq<bool>)
    ensures |r| == 8 * |bs|
  {
    if bs == [] then [] else BitsOf(bs[0], 8) + Bits(bs[1..])
  }
}
