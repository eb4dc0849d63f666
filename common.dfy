/** Failure-compatible wrappers and the Python exceptions the core can raise. */
module Common {

  datatype Option<+T> = None | Some(value: T)

  datatype Result<+R, +E> = Success(value: R) | Failure(error: E) {
    predicate IsFailure() {
      Failure?
    }

    function PropagateFailure<U>(): Result<U, E>
      requires Failure?
    {
      Failure(error)
    }

    function Extract(): R
      requires Success?
    {
      value
    }
  }

  /** The exceptions raised by the modelled code, named after Python's. */
  datatype Error =
    | IndexError      // indexing past the end of a list (``rsplit(...)[1]`` without a separator)
    | ValueError(message: string)
    | KeyError(key: string)
    | AttributeError(message: string)

  /** No element occurs twice. */
  ghost predicate NoDuplicates<T>(s: seq<T>) {
    forall i, j :: 0 <= i < j < |s| ==> s[i] != s[j]
  }
}
