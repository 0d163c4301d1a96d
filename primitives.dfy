/** Value types shared by the attribute modules. */
module Primitives {

  /** An optional value; None stands for a C# null reference or an empty Nullable<T>. */
  datatype Option<T> = None | Some(value: T)

  /** A C# `int`: a 32-bit two's-complement integer. */
  newtype Int32 = x: int | -0x8000_0000 <= x < 0x8000_0000
}
