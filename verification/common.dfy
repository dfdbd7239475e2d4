/** Shared vocabulary: bytes, the fixed-width integers of the Go source, and
    the outcome types used in place of Go's `(value, error)` pairs and of
    `log.Fatalf`. */
module Common {

  /** An octet. */
  newtype byte = x: int | 0 <= x < 256
  type bytes = seq<byte>

  const MaxUint32: int := 0xFFFF_FFFF
  const MaxUint64: int := 0xFFFF_FFFF_FFFF_FFFF

  /** The number of uint32 values: a 32-bit quantity wraps modulo this. */
  const TwoTo32: nat := 0x1_0000_0000

  type uint32 = x: int | 0 <= x <= 0xFFFF_FFFF
  type uint64 = x: int | 0 <= x <= 0xFFFF_FFFF_FFFF_FFFF

  datatype Option<+T> = None | Some(value: T)

  /** A Go `(T, error)` return: either a value or an error. */
  datatype Result<+T> = Ok(value: T) | Err(error: string)

  /** A call that either returns normally or terminates the process
      (`log.Fatalf`, or a Go runtime panic nobody recovers). */
  datatype Exit<+T> = Returns(value: T) | Fatal(reason: string)

  function Min(a: int, b: int): int
  {
    if a <= b then a else b
  }
}
