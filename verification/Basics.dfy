/** Bytes, results and the little facts every other module shares. */
module Basics {

  /** One byte, as a number. */
  type Byte = b: int | 0 <= b < 256
  type Bytes = seq<Byte>

  /** A SHA-256 digest: 32 bytes. */
  type Digest = d: seq<Byte> | |d| == 32 witness seq(32, _ => 0)

  type Id = nat

  /** A 64-bit unsigned counter wraps around. */
  function Wrap64(n: nat): nat { n % 0x1_0000_0000_0000_0000 }

  datatype Option<+T> = None | Some(value: T)

  datatype Result<+T, +E> = Ok(value: T) | Err(error: E)
}
