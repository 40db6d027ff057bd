/** Option and Result: the shapes of "maybe undefined" and "resolved or thrown". */
module Wrappers {

  datatype Option<+T> = None | Some(value: T) {
    function GetOr(default: T): T {
      match this
      case Some(v) => v
      case None => default
    }
  }

  /** The outcome of an awaited call: its value, or the error it threw. */
  datatype Result<+R, +E> = Success(value: R) | Failure(error: E)

  /** The attempt numbers 0, 1, ..., n - 1 (empty when n <= 0). */
  function Range(n: int): (r: seq<nat>)
    ensures |r| == if n <= 0 then 0 else n
    ensures forall i :: 0 <= i < |r| ==> r[i] == i
  {
    if n <= 0 then [] else Range(n - 1) + [n - 1]
  }

  /** `n` when it is positive, otherwise 0: the number of rounds of `for (i = 0; i < n; i++)`. */
  function Rounds(n: int): nat {
    if n <= 0 then 0 else n
  }
}
