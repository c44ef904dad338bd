/** The optional values the program writes as `Optional[T]`. */
module Wrappers {
  datatype Option<+T> = None | Some(value: T)
}
