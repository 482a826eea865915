/** Small value wrappers shared by the modules of this model. */
module Wrappers {

  /** A Java reference that may be null: `None` stands for `null`. */
  datatype Option<+T> = None | Some(value: T)

  /** The outcome of a remote call that returns nothing: it either completes or throws. */
  datatype Outcome = Pass | Fail
}
