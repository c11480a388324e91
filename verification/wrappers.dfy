/** Option and Result, the two failure-compatible wrappers the rest of the model
    uses for "undefined" lookups and for thrown errors. */
module Wrappers {

  datatype Option<+T> = None | Some(value: T)

  /** A computation that either produced a value or failed with an error
      (an exception in the modelled program). Usable with `:-`. */
  datatype Result<+T, +E> = Ok(value: T) | Err(error: E) {

    predicate IsFailure() {
      Err?
    }

    function PropagateFailure<U>(): Result<U, E>
      requires Err?
    {
      Err(error)
    }

    function Extract(): T
      requires Ok?
    {
      value
    }
  }

  /** True when `rest` is what is left of `s` after dropping a prefix. */
  predicate IsSuffix<T(==)>(rest: seq<T>, s: seq<T>) {
    |rest| <= |s| && rest == s[|s| - |rest|..]
  }
}
