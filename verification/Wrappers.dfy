/** The optional value used wherever the source has `undefined` or `null`, and least and greatest of two. */
module Wrappers {
  datatype Option<+T> = None | Some(value: T)

  function Min(x: int, y: int): int { if x < y then x else y }

  function Max(x: int, y: int): int { if x > y then x else y }

  function Least(x: real, y: real): real { if x < y then x else y }

  function Most(x: real, y: real): real { if x > y then x else y }
}
