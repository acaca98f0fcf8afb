/** Bytes as the wire sees them, and the 64-bit integers the program computes with. */
module Octets {

  type Octet = x: int | 0 <= x < 256

  type Bytes = seq<Octet>

  const MAX_INT64: int := 0x7FFF_FFFF_FFFF_FFFF
  const TWO_TO_64: int := 0x1_0000_0000_0000_0000

  /** Two's-complement wrap-around of a 64-bit signed result. */
  function Wrap64(n: int): (r: int)
    ensures -MAX_INT64 - 1 <= r <= MAX_INT64
    ensures -MAX_INT64 - 1 <= n <= MAX_INT64 ==> r == n
  {
    (n + MAX_INT64 + 1) % TWO_TO_64 - MAX_INT64 - 1
  }

  datatype Option<+T> = None | Some(value: T)
}
