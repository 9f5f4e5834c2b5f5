/** What all parts of the model use. */
module Wrappers {
  datatype Option<T> = None | Some(value: T)

  ghost predicate NoDup<T(!new)>(xs: seq<T>) { forall i, j | 0 <= i < j < |xs| :: xs[i] != xs[j] }
}
