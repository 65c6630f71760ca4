/** Optional values and results with an error, as the rest of the model uses them. */
module Wrappers {

  /** Python's `X | None`. */
  datatype Option<+T> = None | Some(value: T)

  /** A value, or the exception that an operation raised instead. */
  datatype Result<+T, +E> = Ok(value: T) | Err(error: E)

  /** Appending to a list is associative; stated once so proofs can name the step. */
  lemma AppendAssoc<T>(a: seq<T>, b: seq<T>, c: seq<T>)
    ensures a + (b + c) == a + b + c
  {
  }
}
