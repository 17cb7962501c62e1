/** Fixed-width values of the EVM interface the TimeLock contract is written against:
    `u64` block timestamps, `U256` amounts and times, 20-byte addresses, bytes and 32-byte words. */
module EvmTypes {

  const TWO_64: nat := 0x1_0000_0000_0000_0000
  const TWO_160: nat := 0x1_0000_0000_0000_0000_0000_0000_0000_0000_0000
  const TWO_256: nat := 0x1_0000_0000_0000_0000_0000_0000_0000_0000_0000_0000_0000_0000_0000_0000_0000_0000

  /** Rust `u64`, the type of `block::timestamp()`. */
  type U64 = n: nat | n < TWO_64

  /** alloy's `U256`. */
  type U256 = n: nat | n < TWO_256

  /** A 20-byte account address, read as a number. */
  type Address = n: nat | n < TWO_160

  type Byte = n: nat | n < 256

  /** `FixedBytes<32>`, the type of an operation id. */
  type Bytes32 = s: seq<Byte> | |s| == 32 witness seq(32, _ => 0)

  /** `a + b` on `U256`, which wraps around modulo 2^256 in a release build. */
  function WrappingAdd(a: U256, b: U256): (r: U256)
    ensures a + b < TWO_256 ==> r == a + b
    ensures a + b >= TWO_256 ==> r == a + b - TWO_256 && r < a
  {
    (a + b) % TWO_256
  }
}
