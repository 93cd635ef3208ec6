/** An optional value: `None` where the program gets no value (a missing
    occurrence, a NaN parse). */
module Wrappers {
  datatype Option<T> = None | Some(value: T)
}
