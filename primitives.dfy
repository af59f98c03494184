/** The fixed-width values of the EVM world: bytes, 20-byte addresses, 32-byte words. */
module Primitives {

  newtype byte = x: int | 0 <= x < 0x100

  type Bytes = seq<byte>

  /** A 20-byte account address (ethers' `Address`, also spelt `H160`). */
  type Address = s: Bytes | |s| == 20 witness seq(20, _ => 0)

  /** A 32-byte hash or storage word (ethers' `H256`). */
  type H256 = s: Bytes | |s| == 32 witness seq(32, _ => 0)

  const TWO_256: nat := 0x1_0000000000000000_0000000000000000_0000000000000000_0000000000000000

  /** An unsigned 256-bit integer (ethers' `U256`). */
  type U256 = x: nat | x < TWO_256

  const TWO_64: nat := 0x1_0000_0000_0000_0000
  const TWO_63: nat := 0x8000_0000_0000_0000

  type u64 = x: nat | x < TWO_64

  type i64 = x: int | -(TWO_63 as int) <= x < TWO_63

  /** Rust's `x as i64` on a `u64`: the same 64 bits read as two's complement. */
  function AsI64(x: u64): (r: i64)
    ensures (x - r) % TWO_64 == 0
    ensures x < TWO_63 ==> r == x
  {
    if x < TWO_63 then x else x - TWO_64
  }
}
