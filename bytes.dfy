/** Fixed-width integers and their little-endian byte encodings, as the WAV
    header fields and the 16-bit PCM samples are laid out on disk. */
module Bytes {

  type byte = x: int | 0 <= x < 0x100
  type u16 = x: int | 0 <= x < 0x1_0000
  type u32 = x: int | 0 <= x < 0x1_0000_0000
  type i16 = x: int | -0x8000 <= x < 0x8000

  /** Arithmetic on `uint32_t` is taken modulo this value. */
  const U32_MODULUS: int := 0x1_0000_0000

  /** The two bytes of a 16-bit field, least significant first. */
  function Le16(v: u16): (r: seq<byte>)
    ensures |r| == 2
  {
    [v % 0x100, v / 0x100]
  }

  /** The four bytes of a 32-bit field, least significant first. */
  function Le32(v: u32): (r: seq<byte>)
    ensures |r| == 4
  {
    [v % 0x100, (v / 0x100) % 0x100, (v / 0x100 / 0x100) % 0x100, v / 0x100 / 0x100 / 0x100]
  }

  /** Reads a little-endian 16-bit field starting at `off`. */
  function U16At(s: seq<byte>, off: nat): u16
    requires off + 2 <= |s|
  {
    s[off] as int + 0x100 * (s[off + 1] as int)
  }

  /** Reads a little-endian 32-bit field starting at `off`. */
  function U32At(s: seq<byte>, off: nat): u32
    requires off + 4 <= |s|
  {
    s[off] as int + 0x100 * (s[off + 1] as int + 0x100 * (s[off + 2] as int + 0x100 * (s[off + 3] as int)))
  }

  /** The bit pattern of a signed 16-bit value (two's complement). */
  function I16Bits(v: i16): u16
  {
    if v < 0 then v + 0x1_0000 else v
  }

  /** The two bytes `fwrite` emits for an `int16_t` on a little-endian host. */
  function I16Le(v: i16): (r: seq<byte>)
    ensures |r| == 2
  {
    Le16(I16Bits(v))
  }

  /** Reads a little-endian two's-complement 16-bit value starting at `off`. */
  function I16At(s: seq<byte>, off: nat): i16
    requires off + 2 <= |s|
  {
    var u := U16At(s, off);
    if u < 0x8000 then u else u - 0x1_0000
  }

  lemma Le16RoundTrip(v: u16)
    ensures U16At(Le16(v), 0) == v
  {
  }

  /** Decoding the four bytes written for `v` gives back `v`. */
  lemma Le32RoundTrip(v: u32)
    ensures U32At(Le32(v), 0) == v
  {
    var q1 := v / 0x100;
    var q2 := q1 / 0x100;
    var q3 := q2 / 0x100;
    assert q2 == q3 * 0x100 + q2 % 0x100;
    assert q1 == q2 * 0x100 + q1 % 0x100;
    assert v == q1 * 0x100 + v % 0x100;
  }

  /** Encoding the value read from four bytes gives back those bytes. */
  lemma U32AtRoundTrip(s: seq<byte>, off: nat)
    requires off + 4 <= |s|
    ensures Le32(U32At(s, off)) == s[off..off + 4]
  {
    var v := U32At(s, off);
    var q2: int := s[off + 2] as int + 0x100 * (s[off + 3] as int);
    var q1: int := s[off + 1] as int + 0x100 * q2;
    assert v == s[off] as int + 0x100 * q1;
    assert v / 0x100 == q1 && v % 0x100 == s[off];
    assert q1 / 0x100 == q2 && q1 % 0x100 == s[off + 1];
    assert q2 / 0x100 == s[off + 3] && q2 % 0x100 == s[off + 2];
  }

  /** A signed sample survives the trip through its two bytes. */
  lemma I16RoundTrip(v: i16)
    ensures I16At(I16Le(v), 0) == v
  {
    Le16RoundTrip(I16Bits(v));
  }

  /** A field can be read from any window that contains it. */
  lemma U32AtSlice(s: seq<byte>, off: nat, lo: nat, hi: nat)
    requires lo <= off && off + 4 <= hi <= |s|
    ensures U32At(s[lo..hi], off - lo) == U32At(s, off)
  {
  }

  lemma U16AtSlice(s: seq<byte>, off: nat, lo: nat, hi: nat)
    requires lo <= off && off + 2 <= hi <= |s|
    ensures U16At(s[lo..hi], off - lo) == U16At(s, off)
  {
  }
}
