/** The Option type used for every operation of the calculator that can fail. */
module Wrappers {

  /** A value that may be absent: `None` stands for a Python exception that the
      calculator swallows. */
  datatype Option<+T> = None | Some(value: T)
}
