/**
 * The counter helpers of the integer extension and the nil guard of
 * `closeSocket`.
 *
 * `increment` and `decrementAndExecuteOnNull` are mutating methods on an
 * integer value: they are modelled as methods that take the old value of
 * `self` and return the new one. The closure handed to
 * `decrementAndExecuteOnNull` is a function value whose result is returned
 * when the counter is (or reaches) zero.
 */
module Counters {
  import opened Wrappers

  /** The value of `self` after `decrementAndExecuteOnNull`: one less, but only when positive. */
  function AfterDecrement(n: int): (r: int)
    ensures n > 0 ==> r == n - 1
    ensures n <= 0 ==> r == n
  {
    if n > 0 then n - 1 else n
  }

  /** `increment()`: `self` becomes `self + 1`. */
  method Increment(self: int) returns (next: int)
    ensures next == self + 1
    ensures AfterDecrement(next) == self || self < 0
  {
    next := self + 1;
  }

  /**
   * `decrementAndExecuteOnNull(execute:)`: decrements a positive value, then
   * runs `execute` and returns its result exactly when the value is now zero.
   */
  method DecrementAndExecuteOnNull<T>(self: int, execute: () -> T) returns (next: int, r: Option<T>)
    ensures next == AfterDecrement(self)
    ensures r.Some? <==> next == 0
    ensures r.Some? <==> self == 0 || self == 1
    ensures r.Some? ==> r.value == execute()
    ensures self >= 0 ==> next >= 0
  {
    next := self;
    if next > 0 {
      next := next - 1;
    }
    if next == 0 {
      r := Some(execute());
    } else {
      r := None;
    }
  }

  /** The counter after `k` calls of `decrementAndExecuteOnNull`. */
  function DecrementTimes(n: int, k: nat): int
  {
    if k == 0 then n else AfterDecrement(DecrementTimes(n, k - 1))
  }

  /**
   * A counter that starts at `n >= 0` stays at zero once it gets there: after
   * `k` decrements it is `max(n - k, 0)`, so the closure runs on every call from
   * the `n`-th on and on none before it.
   */
  lemma {:induction false} CountsDownToZero(n: nat, k: nat)
    ensures DecrementTimes(n, k) == if k <= n then n - k else 0
    ensures DecrementTimes(n, k) == 0 <==> k >= n
  {
    if k > 0 {
      CountsDownToZero(n, k - 1);
    }
  }

  /** A decrement undoes an increment of a value that was not negative. */
  lemma DecrementUndoesIncrement(n: int)
    requires n >= 0
    ensures AfterDecrement(n + 1) == n
  {
  }

  /**
   * `closeSocket(socket)`: nil when there is no socket (nothing is closed),
   * otherwise whether `close` returned 0. The result of the system call is a
   * parameter.
   */
  function CloseSocket(socket: Option<Int32>, closeReturn: int): (r: Option<bool>)
    ensures r.None? <==> socket.None?
    ensures r.Some? ==> (r.value <==> closeReturn == 0)
  {
    match socket
    case None => None
    case Some(_) => Some(closeReturn == 0)
  }
}
