/** Bytes, machine words, and their big-endian encodings (RFC 4506, sections 4.2, 4.5 and 4.10). */
module Bytes {

  type u8 = x: int | 0 <= x < 0x100
  const U32_SIZE := 0x1_0000_0000
  const U64_SIZE := 0x1_0000_0000_0000_0000
  type u32 = x: int | 0 <= x < U32_SIZE
  type u64 = x: int | 0 <= x < U64_SIZE

  /** A 32-bit counter moves on, around at the end. */
  function Next32(w: u32): u32 {
    (w + 1) % U32_SIZE
  }

  function Be32(w: u32): (r: seq<u8>)
    ensures |r| == 4
  {
    [w / 0x100_0000, w / 0x1_0000 % 0x100, w / 0x100 % 0x100, w % 0x100]
  }

  function FromBe32(s: seq<u8>): u32
    requires |s| == 4
  {
    var a: int, b: int, c: int := s[0], s[1], s[2];
    a * 0x100_0000 + b * 0x1_0000 + c * 0x100 + s[3]
  }

  function Be64(d: u64): (r: seq<u8>)
    ensures |r| == 8
  {
    Be32(d / U32_SIZE) + Be32(d % U32_SIZE)
  }

  function FromBe64(s: seq<u8>): u64
    requires |s| == 8
  {
    FromBe32(s[..4]) * U32_SIZE + FromBe32(s[4..])
  }

  lemma Be32RoundTrip(w: u32)
    ensures FromBe32(Be32(w)) == w
  {
    var a, b, c := w / 0x100_0000, w / 0x1_0000, w / 0x100;
    assert w == c * 0x100 + w % 0x100 && c == b * 0x100 + c % 0x100 && b == a * 0x100 + b % 0x100;
  }

  lemma Be64RoundTrip(d: u64)
    ensures FromBe64(Be64(d)) == d
  {
    Be32RoundTrip(d / U32_SIZE);
    Be32RoundTrip(d % U32_SIZE);
    assert Be64(d)[..4] == Be32(d / U32_SIZE) && Be64(d)[4..] == Be32(d % U32_SIZE);
  }

  /** Two words with the same encoding are the same word, and every four bytes encode one. */
  lemma FromBe32RoundTrip(s: seq<u8>)
    requires |s| == 4
    ensures Be32(FromBe32(s)) == s
  {
    var w: int, a: int, b: int, c: int := FromBe32(s), s[0], s[1], s[2];
    assert w / 0x100 == a * 0x1_0000 + b * 0x100 + c;
    assert w / 0x1_0000 == a * 0x100 + b;
  }

  function Zeros(n: nat): (r: seq<u8>)
    ensures |r| == n
  {
    seq(n, _ => 0)
  }

  /** pad(a, 4) of buffer.h, in 32-bit arithmetic: a - 1 wraps around for a == 0, and so does the product. */
  function Pad4(a: u32): u32 {
    ((a + U32_SIZE - 1) % U32_SIZE / 4 + 1) * 4 % U32_SIZE
  }

  /** Up to 2^32 - 4 it is the least multiple of four that is at least a; above that it wraps to zero. */
  lemma Pad4IsLeastMultiple(a: u32)
    ensures a <= U32_SIZE - 4 ==> Pad4(a) % 4 == 0 && a <= Pad4(a) < a + 4
    ensures a > U32_SIZE - 4 ==> Pad4(a) == 0
  {
    if a > 0 {
      assert (a + U32_SIZE - 1) % U32_SIZE == a - 1;
      var q := (a - 1) / 4;
      assert 4 * q <= a - 1 <= 4 * q + 3;
      assert Pad4(a) == (q + 1) * 4 % U32_SIZE;
    }
  }

  /** The padding bytes pushed after a bytes of data: what completes a to a multiple of four. */
  function Fill(a: nat): (r: nat)
    ensures r < 4 && (a + r) % 4 == 0
  {
    (4 - a % 4) % 4
  }

  lemma PadIsFill(a: u32)
    requires a <= U32_SIZE - 4
    ensures Pad4(a) - a == Fill(a)
  {
    Pad4IsLeastMultiple(a);
    hide Pad4;
    var f := Pad4(a) - a;
    assert (a + f) % 4 == (a + Fill(a)) % 4 == 0;
  }
}
