/** Failure-carrying wrappers shared by every module of the model. */
module Wrappers {

  /** Python's `None` versus a present value. */
  datatype Option<+T> = None | Some(value: T)

  /** The outcome of a Python operation that either yields a value or raises
      an exception the surrounding code does not catch. Which exception class
      is raised is not recorded. */
  datatype Py<+T> = Ok(value: T) | Raise
}
