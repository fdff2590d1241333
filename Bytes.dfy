/**
 * Fixed-width integer types of the firmware's C++ and the byte-level helpers
 * (Arduino `highByte`/`lowByte`, the big-endian `buf[i] << 8 | buf[i+1]`
 * decoders) that the LoRa wire format is built from.
 */
module Bytes {

  type u8 = x: int | 0 <= x < 0x100
  type u16 = x: int | 0 <= x < 0x1_0000
  type u32 = x: int | 0 <= x < 0x1_0000_0000
  type i8 = x: int | -0x80 <= x < 0x80
  type i16 = x: int | -0x8000 <= x < 0x8000

  /** Conversion to `uint8_t`: keeps the value modulo 2^8. */
  function U8(x: int): (r: u8)
    ensures (x - r) % 0x100 == 0
    ensures 0 <= x < 0x100 ==> r == x
  {
    x % 0x100
  }

  /** Conversion to `uint16_t`: keeps the value modulo 2^16 (so `0 - 1` becomes 65535). */
  function U16(x: int): (r: u16)
    ensures (x - r) % 0x1_0000 == 0
    ensures 0 <= x < 0x1_0000 ==> r == x
  {
    x % 0x1_0000
  }

  /** Conversion to `uint32_t` (and the `unsigned long` of the Cortex-M0 target). */
  function U32(x: int): (r: u32)
    ensures (x - r) % 0x1_0000_0000 == 0
    ensures 0 <= x < 0x1_0000_0000 ==> r == x
  {
    x % 0x1_0000_0000
  }

  /** Reading a 32-bit pattern as a two's-complement `int` (what `buf[2] << 24 | ...` yields in C++). */
  function Signed32(x: u32): (r: int)
    ensures -0x8000_0000 <= r < 0x8000_0000
    ensures U32(r) == x
    ensures x < 0x8000_0000 ==> r == x
  {
    if x < 0x8000_0000 then x else x - 0x1_0000_0000
  }

  /** Arduino `highByte(w)`: bits 8..15 of `w` (an arithmetic shift, so negative `int16_t` values work). */
  function HighByte(w: int): u8
  {
    (w / 0x100) % 0x100
  }

  /** Arduino `lowByte(w)`: bits 0..7 of `w`. */
  function LowByte(w: int): u8
  {
    w % 0x100
  }

  /** `hi << 8 | lo` on two bytes. */
  function Be16(hi: u8, lo: u8): (r: u16)
    ensures HighByte(r) == hi && LowByte(r) == lo
  {
    hi * 0x100 + lo
  }

  /** `b0 << 24 | b1 << 16 | b2 << 8 | b3` read as an unsigned 32-bit pattern. */
  function Be32(b0: u8, b1: u8, b2: u8, b3: u8): (r: u32)
    ensures r / 0x1_0000 == Be16(b0, b1) && r % 0x1_0000 == Be16(b2, b3)
  {
    Be16(b0, b1) * 0x1_0000 + Be16(b2, b3)
  }

  /** Encoding a 16-bit value high byte first and decoding it gives the value back. */
  lemma Be16RoundTrip(w: u16)
    ensures Be16(HighByte(w), LowByte(w)) == w
  {
  }

  /** Reading a byte as an `int8_t`. */
  function Signed8(x: u8): (r: i8)
    ensures U8(r) == x
  {
    if x < 0x80 then x else x - 0x100
  }

  /** Reading two bytes `hi << 8 | lo` as an `int16_t`. */
  function Signed16(x: u16): (r: i16)
    ensures U16(r) == x
  {
    if x < 0x8000 then x else x - 0x1_0000
  }

  /** An `int8_t` stored in a `uint8_t` buffer cell is recovered by reading the cell as signed. */
  lemma Signed8RoundTrip(x: i8)
    ensures Signed8(U8(x)) == x
  {
  }

  /**
   * An `int16_t` such as RSSI or SNR, sent with highByte/lowByte, is recovered
   * by reading the two bytes back as a signed 16-bit value.
   */
  lemma Be16SignedRoundTrip(w: i16)
    ensures Signed16(Be16(HighByte(w), LowByte(w))) == w
  {
    var u := U16(w);
    if w < 0 {
      assert u == w + 0x1_0000;
      assert (w + 0x1_0000) / 0x100 == w / 0x100 + 0x100;
    }
    assert HighByte(w) == HighByte(u) && LowByte(w) == LowByte(u);
    Be16RoundTrip(u);
  }

  /** A 32-bit word split into four bytes, most significant first, is rebuilt by `Be32`. */
  lemma Be32RoundTrip(w: u32)
    ensures Be32(HighByte(w / 0x1_0000), LowByte(w / 0x1_0000), HighByte(w % 0x1_0000), LowByte(w % 0x1_0000)) == w
  {
    Be16RoundTrip(w / 0x1_0000);
    Be16RoundTrip(w % 0x1_0000);
  }

  /** A signed 32-bit value survives the trip through its unsigned bit pattern. */
  lemma Signed32RoundTrip(x: int)
    requires -0x8000_0000 <= x < 0x8000_0000
    ensures Signed32(U32(x)) == x
  {
  }
}
