/** A value or nothing: a pointer that may be NULL, a parameter that may be missing. */
module Options {
  datatype Option<T> = None | Some(value: T)
}
