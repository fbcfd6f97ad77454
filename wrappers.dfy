/**
  Small shared helpers: the optional value used for entries that may fail to parse and for
  results that may fail, and `Min`, used for Python's cut-back slice bounds and truncations.
 */
module Wrappers {

  datatype Option<+T> = None | Some(value: T)

  /** The smaller of two integers. */
  function Min(x: int, y: int): int
  {
    if x <= y then x else y
  }
}
