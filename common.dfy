/** Small helpers shared by the game's modules: an optional value (Ruby's `nil`)
    and the integer `min`, `max` and absolute value used by the clamps. */
module Common {

  /** A value that may be absent, as a Ruby instance variable that may be `nil`. */
  datatype Option<T> = None | Some(value: T)

  /** `[a, b].min` */
  function Min(a: int, b: int): (r: int)
    ensures r <= a && r <= b && (r == a || r == b)
  {
    if a <= b then a else b
  }

  /** `[a, b].max` */
  function Max(a: int, b: int): (r: int)
    ensures r >= a && r >= b && (r == a || r == b)
  {
    if a >= b then a else b
  }

  function Abs(a: int): (r: int)
    ensures r >= 0 && (r == a || r == -a)
  {
    if a >= 0 then a else -a
  }
}
