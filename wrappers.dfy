/** Optional values, error returns and a sequence fact shared by every module of the model. */
module Wrappers {

  /** A value that may be absent: JavaScript's `undefined`/`null`, Python's `None`. */
  datatype Option<+T> = None | Some(value: T) {

    /** The value, or `default` when absent (the `x || default` idiom on a count). */
    function GetOr(default: T): T {
      match this
      case Some(v) => v
      case None => default
    }
  }

  /** The outcome of an operation that can raise: a value or the error it raises. */
  datatype Result<+R, +E> = Ok(value: R) | Err(error: E)

  /** Concatenation regroups freely. */
  lemma {:induction false} AppendAssoc<T>(a: seq<T>, b: seq<T>, c: seq<T>)
    ensures a + (b + c) == a + b + c
  {
  }
}
