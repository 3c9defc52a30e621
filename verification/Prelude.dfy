// Option, Result, Min and the 64-bit limits, shared by every module of the model.

module Prelude {

  const TWO_63: int := 0x8000_0000_0000_0000
  const TWO_64: int := 0x1_0000_0000_0000_0000

  datatype Option<+T> = None | Some(value: T)

  // A Go `(value, error)` pair of which exactly one side is meaningful.
  datatype Result<+T, +E> = Ok(value: T) | Err(error: E)

  function Min(a: int, b: int): int {
    if a <= b then a else b
  }
}
