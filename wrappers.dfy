/** The optional value used for JavaScript's `T | null`, for optional record
    fields and for NaN. */
module Wrappers {
  datatype Option<T> = None | Some(value: T)
}
