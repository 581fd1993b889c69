/** Values the reader buffer stores and hands out. */
module Scalars {

  /** A Unicode scalar value: any code point except the surrogate range. */
  type Scalar = x: int | 0 <= x <= 0x10FFFF && !(0xD800 <= x <= 0xDFFF)

  /** An optional value; `None` is what `next()` answers when nothing is buffered. */
  datatype Option<T> = None | Some(value: T)
}
