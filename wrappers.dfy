/** Small shared datatypes: an optional value, used wherever the source has a
    null pointer, a `null` JSON value or a NaN sentinel. */
module Wrappers {

  datatype Option<+T> = None | Some(value: T)
}
