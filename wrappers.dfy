/** The usual optional-value datatype, used where the source can raise. */
module Wrappers {

  /** `None` stands for "the call raised"; `Some(v)` for a normal return of `v`. */
  datatype Option<+T> = None | Some(value: T)
}
