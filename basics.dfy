/** Small shared datatypes. */
module Basics {

  /** An optional value: `None` stands for Python's `None`. */
  datatype Option<+T> = None | Some(value: T)
}
