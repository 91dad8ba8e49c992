/** The optional value the source expresses with Kotlin's nullable types and Python's None. */
module Wrappers {

  datatype Option<+T> = None | Some(value: T)
}
