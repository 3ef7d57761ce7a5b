/** Values shared by every part of the rating-matrix library. */
module Common {

  /** Selects whether a "line" operation means a row or a column. */
  datatype Axis = ROW | COL

  /** The failure kinds the library reports (the exception codes of erised). */
  datatype Error = InvalidArgument | OutOfRange | DivideByZero | BadAlloc

  /** An operation either produces a value or fails with an error kind. */
  datatype Result<+T> = Success(value: T) | Failure(error: Error)
  {
    predicate IsFailure() {
      Failure?
    }

    function PropagateFailure<U>(): Result<U>
      requires Failure?
    {
      Failure(error)
    }

    function Extract(): T
      requires Success?
    {
      value
    }
  }

  /** The all-zero array of n values (a value-initialised std::array or vector). */
  function Zeros(n: nat): (z: seq<real>)
    ensures |z| == n && forall j :: 0 <= j < n ==> z[j] == 0.0
  {
    seq(n, _ => 0.0)
  }
}
