/** Fixed-width integers, byte order and the failure types shared by every layer. */
module Bytes {

  type byte = b: int | 0 <= b < 0x100
  type u16 = n: int | 0 <= n < 0x1_0000
  type u32 = n: int | 0 <= n < 0x1_0000_0000
  type u64 = n: int | 0 <= n < 0x1_0000_0000_0000_0000

  datatype Option<+T> = None | Some(value: T)

  datatype Result<+T, +E> = Success(value: T) | Failure(error: E)

  /** `u16::to_le_bytes`. */
  function Le16(n: u16): seq<byte> { [n % 0x100, n / 0x100] }

  /** `u16::from_le_bytes`. */
  function FromLe16(low: byte, high: byte): u16 { low + 0x100 * high }

  /** `u16::from_be_bytes`. */
  function FromBe16(high: byte, low: byte): u16 { 0x100 * high + low }

  lemma Le16OfBytes(low: byte, high: byte)
    ensures Le16(FromLe16(low, high)) == [low, high]
  {
  }

  /** The little-endian field at `offset`. */
  function Le16At(data: seq<byte>, offset: nat): u16
    requires offset + 2 <= |data|
  {
    FromLe16(data[offset], data[offset + 1])
  }

  function Min(a: int, b: int): int { if a <= b then a else b }

  function Max(a: int, b: int): int { if a <= b then b else a }
}
