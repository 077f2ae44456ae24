/**
 * Fixed-width values used by the canister: bytes, `u64`, `Uint<256, 4>`,
 * 32-byte transaction hashes (`FixedBytes<32>`) and 20-byte EVM addresses.
 * Integers are unbounded in Dafny, so each width is a subset type.
 */
module Primitives {

  type byte = x: int | 0 <= x < 0x100

  const U64_MODULUS: int := 0x1_0000_0000_0000_0000

  type u64 = x: int | 0 <= x < U64_MODULUS

  const U256_MODULUS: int := 0x1_0000_0000_0000_0000_0000_0000_0000_0000_0000_0000_0000_0000_0000_0000_0000_0000

  type u256 = x: int | 0 <= x < U256_MODULUS

  /** `FixedBytes<32>`: a transaction hash. */
  type Hash32 = s: seq<byte> | |s| == 32 witness seq(32, _ => 0 as byte)

  /** `alloy::primitives::Address`: 20 bytes. */
  type Address = s: seq<byte> | |s| == 20 witness seq(20, _ => 0 as byte)
}
