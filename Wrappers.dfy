/** Option and Result values shared by the modules of this model. */
module Wrappers {

  datatype Option<+T> = None | Some(value: T)

  /** The value of a computation that either succeeds or raises. */
  datatype Result<+R, +E> = Success(value: R) | Failure(error: E)

  /** The outcome of a step that returns nothing but may raise. */
  datatype Outcome<+E> = Pass | Fail(error: E)

  /** Python's truthiness of an optional text: present and non-empty. */
  predicate Truthy(text: Option<string>)
  {
    text.Some? && text.value != ""
  }

  /** No element occurs twice: the sequence is the iteration order of a set. */
  predicate NoDuplicates<T(==)>(s: seq<T>)
  {
    forall i, j :: 0 <= i < j < |s| ==> s[i] != s[j]
  }
}
