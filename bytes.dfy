/** Fixed-width unsigned integers as they appear in an HID report, and the
    little-endian reading of a 16-bit axis value from two report bytes. */
module Bytes {

  /** Rust's `u8`. */
  type byte = b: int | 0 <= b < 0x100

  /** Rust's `u16`. */
  type u16 = v: int | 0 <= v < 0x1_0000

  /** `u16::from_le_bytes([lo, hi])`: the byte at the lower offset is the
      low-order byte. The result is always a valid `u16`, and its low and
      high bytes are exactly the two bytes it was built from. */
  function FromLeBytes(lo: byte, hi: byte): (v: u16)
    ensures v % 0x100 == lo && v / 0x100 == hi
  {
    lo + 0x100 * hi
  }

  /** `u16::to_le_bytes`: the inverse of FromLeBytes. */
  function ToLeBytes(v: u16): (bs: (byte, byte))
    ensures FromLeBytes(bs.0, bs.1) == v
  {
    (v % 0x100, v / 0x100)
  }

  /** ToLeBytes undoes FromLeBytes: no byte pair is lost by decoding. */
  lemma ToLeBytesFromLeBytes(lo: byte, hi: byte)
    ensures ToLeBytes(FromLeBytes(lo, hi)) == (lo, hi)
  {
  }
}
