/** The "comma ok" result of a lookup or a type assertion. */
module Wrappers {

  datatype Option<+T> = None | Some(value: T)
}
