/** Small value wrappers and predicates shared by the client and server models. */
module Wrappers {

  /** A value that may be absent: the source's `null`. */
  datatype Option<+T> = None | Some(value: T)

  /** The outcome of one call into code outside the model (the hosting
      service, the network): it either returned a value or threw. */
  datatype Response<+T> = Returned(value: T) | Threw

  /** No element occurs twice. */
  predicate NoDuplicates<T(==)>(s: seq<T>) {
    forall i, j | 0 <= i < j < |s| :: s[i] != s[j]
  }
}
