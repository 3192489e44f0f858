/** Bytes, and the little-endian integers of a binary container. */
module Bytes {
  type Byte = b: int | 0 <= b < 256

  const NEWLINE: Byte := 10
  const SPACE: Byte := 32

  /** `struct.unpack("<H", ...)` on the two bytes at `at`. */
  function U16At(s: seq<Byte>, at: nat): (n: nat)
    requires at + 2 <= |s|
  {
    s[at] as int + 256 * s[at + 1] as int
  }

  /** `struct.unpack("<I", ...)` on the four bytes at `at`. */
  function U32At(s: seq<Byte>, at: nat): (n: nat)
    requires at + 4 <= |s|
  {
    U16At(s, at) + 65536 * U16At(s, at + 2)
  }

  function LittleEndian16(n: nat): (s: seq<Byte>)
    requires n < 65536
    ensures |s| == 2 && U16At(s, 0) == n
  {
    [n % 256, n / 256]
  }

  function LittleEndian32(n: nat): (s: seq<Byte>)
    requires n < 0x1_0000_0000
    ensures |s| == 4 && U32At(s, 0) == n
  {
    LittleEndian16(n % 65536) + LittleEndian16(n / 65536)
  }

  /** The two encoders invert the two decoders: a field is determined by the number it holds. */
  lemma FieldsAreCanonical(s: seq<Byte>, at: nat)
    ensures at + 2 <= |s| ==> U16At(s, at) < 65536 && LittleEndian16(U16At(s, at)) == s[at..at + 2]
    ensures at + 4 <= |s| ==> U32At(s, at) < 0x1_0000_0000 && LittleEndian32(U32At(s, at)) == s[at..at + 4]
  {
    if at + 4 <= |s| {
      assert U32At(s, at) % 65536 == U16At(s, at) && U32At(s, at) / 65536 == U16At(s, at + 2);
    }
  }
}
