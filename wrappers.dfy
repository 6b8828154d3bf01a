/** The optional value used by the label readers and the JSON lookups. */
module Wrappers {
  datatype Option<T> = None | Some(value: T)
}
