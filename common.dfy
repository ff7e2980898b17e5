/** Value types shared by the whole model: absent values, exceptions, doubles and C# `int`. */
module Common {

  /** A C# reference or string that may be null. */
  datatype Option<T> = None | Some(value: T)

  /** The result of a call that either returns a value or throws. */
  datatype Result<T, E> = Success(value: T) | Failure(error: E)

  /** The result of a void call that either completes or throws. */
  datatype Outcome<E> = Pass | Fail(error: E)

  /**
   * A C# `double` as far as the modelled code uses one: a finite value or
   * positive infinity (the sentinel `Double.PositiveInfinity`).
   */
  datatype Float = Finite(value: real) | PositiveInfinity

  /** `a < b` on doubles of the form above. */
  predicate FloatLess(a: Float, b: Float)
  {
    match (a, b)
    case (Finite(x), Finite(y)) => x < y
    case (Finite(_), PositiveInfinity) => true
    case (PositiveInfinity, _) => false
  }

  const MinInt32: int := -0x8000_0000
  const MaxInt32: int := 0x7FFF_FFFF

  predicate IsInt32(i: int)
  {
    MinInt32 <= i <= MaxInt32
  }

  /** C#'s unchecked `i++` on an `int`: MaxInt32 wraps to MinInt32. */
  function Increment32(i: int): (r: int)
    requires IsInt32(i)
    ensures IsInt32(r)
    ensures i < MaxInt32 ==> r == i + 1
    ensures i == MaxInt32 ==> r == MinInt32
  {
    if i == MaxInt32 then MinInt32 else i + 1
  }
}
