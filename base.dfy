/** Machine integers and the error-carrying wrappers shared by the tracer model. */
module Base {

  /** Go's `byte`. */
  newtype uint8 = x: int | 0 <= x < 0x100

  /** Go's `uint32`: the width in which an analyzer reports the offset. */
  newtype uint32 = x: int | 0 <= x < 0x1_0000_0000

  /** Go's `uint64`: kernel addresses (`libpf.SymbolValue`) and the returned offset. */
  newtype uint64 = x: int | 0 <= x < 0x1_0000_0000_0000_0000

  datatype Option<+T> = None | Some(value: T)

  /** A Go `(value, error)` pair in which exactly one side is meaningful. */
  datatype Result<+T, +E> = Ok(value: T) | Err(error: E)
}
