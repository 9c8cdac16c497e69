/** An optional value: a definition not built yet, or a matrix outside the exact model. */
module Wrappers {
  datatype Option<T> = None | Some(value: T)
}
