/** Small shared datatypes. */
module Common {

  /** A value that may be absent (Swift's `Optional`). */
  datatype Option<+T> = None | Some(value: T)

  /** The bounds of Swift's `Int32`, whose initializer traps outside them. */
  const Int32Min: int := -0x8000_0000
  const Int32Max: int := 0x7fff_ffff

  predicate InInt32(x: int) {
    Int32Min <= x <= Int32Max
  }
}
