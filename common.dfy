/** Values shared by the whole model: the exceptions the modelled code can
    raise, a result type carrying them, and the two shapes an evaluated
    field can take. */
module Common {

  /** What the modelled Python code raises. `NonFinite` stands for the
      entries numpy would make infinite or NaN when it divides by zero. */
  datatype Error =
    | AssertionFailed(what: string)
    | KeyError(key: string)
    | IndexError
    | ShapeMismatch
    | NonFinite
    | EmptyConcatenation

  datatype Result<T> = Ok(value: T) | Err(error: Error)

  /** An evaluated quantity: a plain number, or one number per cell (or per
      mortar cell). */
  datatype Field = Scalar(value: real) | CellWise(values: seq<real>)

  /** The vector `np.zeros(n)`. */
  function ZeroVector(n: nat): (z: seq<real>)
    ensures |z| == n
    ensures forall i :: 0 <= i < n ==> z[i] == 0.0
  {
    seq(n, _ => 0.0)
  }
}
