/** Options, results, and the one law of concatenation that Dafny wants to be told. */
module Wrappers {

  datatype Option<+T> = None | Some(value: T)

  /** Exception stands for whatever was thrown. */
  datatype Result<+T> = Ok(value: T) | Exception {
    predicate IsFailure() { Exception? }
    function PropagateFailure<U>(): Result<U> requires Exception? { Exception }
    function Extract(): T requires Ok? { value }
  }

  lemma Assoc<T>(a: seq<T>, b: seq<T>, c: seq<T>)
    ensures a + b + c == a + (b + c)
  {
  }
}
