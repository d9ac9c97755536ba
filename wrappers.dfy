/** The Option type used for the source's nullable values (`null` versus a value). */
module Wrappers {
  datatype Option<+T> = None | Some(value: T)
}
