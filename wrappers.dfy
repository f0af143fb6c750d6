/**
 * Shared value types of the SwifterSockets model: Swift's Optional, the
 * library's own Result<T>, the Int32 range, and Swift's truncating integer
 * division, which differs from Dafny's Euclidean one for negative operands.
 */
module Wrappers {

  /** Swift's Optional. */
  datatype Option<T> = None | Some(value: T)
  {
    /** The `??` operator. */
    function UnwrapOr(default: T): T
    {
      match this
      case None => default
      case Some(v) => v
    }
  }

  /** The library's `Result<T>`: `.error(message:)` or `.success(T)`. */
  datatype Result<T> = Error(message: string) | Success(value: T)

  /** Swift's Int32. */
  type Int32 = x: int | -0x8000_0000 <= x < 0x8000_0000

  /** Swift's `a / d` for a positive divisor: the quotient truncated toward zero. */
  function SwiftDiv(a: int, d: int): int
    requires d > 0
  {
    if a >= 0 then a / d else -((-a) / d)
  }

  /** Swift's `a % d` for a positive divisor: the remainder takes the sign of `a`. */
  function SwiftRem(a: int, d: int): int
    requires d > 0
  {
    if a >= 0 then a % d else -((-a) % d)
  }

  /**
   * Truncating division and remainder reassemble the dividend, the remainder
   * is smaller than the divisor in magnitude and is never of the opposite sign;
   * on non-negative dividends they agree with Dafny's operators.
   */
  lemma SwiftDivRem(a: int, d: int)
    requires d > 0
    ensures d * SwiftDiv(a, d) + SwiftRem(a, d) == a
    ensures -d < SwiftRem(a, d) < d
    ensures a >= 0 ==> 0 <= SwiftRem(a, d) && SwiftDiv(a, d) == a / d && SwiftRem(a, d) == a % d
    ensures a < 0 ==> SwiftRem(a, d) <= 0 && SwiftDiv(a, d) <= 0
  {
    if a < 0 {
      var q, r := (-a) / d, (-a) % d;
      assert d * q + r == -a;
    }
  }
}
