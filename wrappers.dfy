/** A value that may be absent: the model of a Kotlin nullable type. */
module Wrappers {

  datatype Option<T> = None | Some(value: T)
}
