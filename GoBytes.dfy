/** Go strings as byte sequences, the fixed-width big-endian fields of the
    request framing, and the bytes that Go's `%c` verb writes for an integer. */
module GoBytes {

  newtype byte = x: int | 0 <= x < 256

  /** A Go `string` is an immutable sequence of bytes. */
  type GoString = seq<byte>

  /** The bytes of a Go string literal whose characters are all ASCII. */
  function Ascii(s: string): (b: GoString)
    requires forall i | 0 <= i < |s| :: s[i] as int < 128
    ensures |b| == |s|
    ensures forall i | 0 <= i < |s| :: b[i] as int == s[i] as int
  {
    seq(|s|, i requires 0 <= i < |s| => s[i] as int as byte)
  }

  /** The unsigned value of a big-endian byte string. */
  function BigEndianValue(b: seq<byte>): nat
  {
    if b == [] then 0 else BigEndianValue(b[..|b| - 1]) * 256 + b[|b| - 1] as nat
  }

  /** The 2-byte big-endian encoding of n. */
  function BigEndian16(n: nat): (b: seq<byte>)
    requires n < 0x1_0000
    ensures |b| == 2 && BigEndianValue(b) == n
  {
    var b := [(n / 256) as byte, (n % 256) as byte];
    assert BigEndianValue(b[..1]) == n / 256 by {
      assert b[..1][..0] == [];
    }
    b
  }

  /** The 4-byte big-endian encoding of n. */
  function BigEndian32(n: nat): (b: seq<byte>)
    requires n < 0x1_0000_0000
    ensures |b| == 4 && BigEndianValue(b) == n
  {
    var b := [(n / 0x100_0000) as byte, (n / 0x1_0000 % 256) as byte,
              (n / 256 % 256) as byte, (n % 256) as byte];
    assert BigEndianValue(b[..1]) == n / 0x100_0000 by {
      assert b[..1][..0] == [];
    }
    assert BigEndianValue(b[..2]) == n / 0x1_0000 by {
      assert b[..2][..1] == b[..1];
    }
    assert BigEndianValue(b[..3]) == n / 256 by {
      assert b[..3][..2] == b[..2];
    }
    b
  }

  const MaxRune: nat := 0x10_FFFF
  const RuneError: nat := 0xFFFD

  /** The bytes `fmt.Sprintf("%c", c)` writes for a non-negative integer c:
      values above the largest code point become the replacement character,
      and utf8.EncodeRune then writes 1 to 4 bytes, again replacing the
      surrogate half range. */
  function FormatChar(c: nat): (r: seq<byte>)
    ensures 1 <= |r| <= 4
    ensures |r| == 1 <==> c < 0x80
    ensures c < 0x80 ==> r == [c as byte]
  {
    if c < 0x80 then
      [c as byte]
    else if c < 0x800 then
      [(0xC0 + c / 64) as byte, (0x80 + c % 64) as byte]
    else
      var r := if c > MaxRune || 0xD800 <= c <= 0xDFFF then RuneError else c;
      if r < 0x1_0000 then
        [(0xE0 + r / 0x1000) as byte, (0x80 + r / 64 % 64) as byte, (0x80 + r % 64) as byte]
      else
        [(0xF0 + r / 0x4_0000) as byte, (0x80 + r / 0x1000 % 64) as byte,
         (0x80 + r / 64 % 64) as byte, (0x80 + r % 64) as byte]
  }
}
