/** Small helper datatypes shared by the screen models. */
module Wrappers {

  /** A value that may be absent: a JavaScript `null` or `undefined`. */
  datatype Option<+T> = None | Some(value: T)

  function Min(a: int, b: int): int { if a <= b then a else b }

  function Max(a: int, b: int): int { if a >= b then a else b }
}
