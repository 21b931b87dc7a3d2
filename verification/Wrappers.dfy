/** Result types and the fixed-width integers shared by every module. */
module Wrappers {

  datatype Option<+T> = None | Some(value: T)

  /** The gRPC status codes the driver answers with. `Unknown` is an error
      returned without a status; `Crash` is a nil dereference in the handler. */
  datatype Code =
    | InvalidArgument
    | OutOfRange
    | ResourceExhausted
    | FailedPrecondition
    | AlreadyExists
    | NotFound
    | Aborted
    | Internal
    | Unknown
    | Crash

  datatype Result<+T> = Ok(value: T) | Err(code: Code)

  const TWO_31: int := 0x8000_0000
  const TWO_32: int := 0x1_0000_0000

  const GIB: int := 0x4000_0000
  const TIB: int := 1024 * GIB

  /** Resource identifiers are opaque to the driver; 0 stands for the empty one. */
  type Id = nat
  const NO_ID: Id := 0

  type int32 = x: int | -0x8000_0000 <= x < 0x8000_0000

  /** Two's complement wrap-around of a 32-bit addition. */
  function Wrap32(x: int): int32 {
    (x + TWO_31) % TWO_32 - TWO_31
  }

  function Min(a: int, b: int): int {
    if a <= b then a else b
  }

  function Max(a: int, b: int): int {
    if a <= b then b else a
  }
}
