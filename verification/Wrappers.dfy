/** Results of operations that may have nothing to give or may fail. */
module Wrappers {
  datatype Option<T> = None | Some(value: T)

  /** What a C routine that writes into arrays of fixed size does: it refuses, it writes outside an array, or it is
      done. */
  datatype Outcome<T> = Rejected | Overran | Done(value: T)
}
