/** Optional values and error-carrying results, used wherever the engine
    returns "nothing" (Python's None) or raises an exception. */
module Wrappers {

  datatype Option<+T> = None | Some(value: T)

  datatype Result<+T, +E> = Ok(value: T) | Err(error: E)

  /** Python's `min` and `max` on two numbers. */
  function MinReal(x: real, y: real): (r: real)
    ensures r <= x && r <= y && (r == x || r == y)
  {
    if y < x then y else x
  }

  function MaxReal(x: real, y: real): (r: real)
    ensures r >= x && r >= y && (r == x || r == y)
  {
    if y > x then y else x
  }

  function MinInt(x: int, y: int): (r: int)
    ensures r <= x && r <= y && (r == x || r == y)
  {
    if y < x then y else x
  }

  function MaxInt(x: int, y: int): (r: int)
    ensures r >= x && r >= y && (r == x || r == y)
  {
    if y > x then y else x
  }
}
