/** Option, Result and Outcome: the model's stand-ins for C# null references
    and for exceptions thrown out of a member. */
module Wrappers {

  /** A reference that may be null. */
  datatype Option<+T> = None | Some(value: T)

  /** A member that either returns a value or throws an exception. */
  datatype Result<+R, +E> = Success(value: R) | Failure(error: E)

  /** A `void` member (or a setter) that either completes or throws. */
  datatype Outcome<+E> = Pass | Fail(error: E)

  /** A C# `int`: the ids, star counts and room counts of the system. */
  type Int32 = x: int | -0x8000_0000 <= x <= 0x7fff_ffff

  const INT32_MIN: int := -0x8000_0000
  const INT32_MAX: int := 0x7fff_ffff

  /** Unchecked C# `int` arithmetic: reduce an integer into the 32-bit range,
      wrapping around as two's complement does. */
  function Envolver32(x: int): (r: Int32)
    ensures INT32_MIN <= x <= INT32_MAX ==> r == x
    ensures x == INT32_MAX + 1 ==> r == INT32_MIN
  {
    (x - INT32_MIN) % 0x1_0000_0000 + INT32_MIN
  }
}
