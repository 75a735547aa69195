/** The optional-value datatype shared by every module of the model. */
module Wrappers {

  /** The conventional Some/None datatype, used where the source signals
      failure through a status code or leaves an out-parameter untouched. */
  datatype Option<+T> = None | Some(value: T)
}
