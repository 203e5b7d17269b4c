/** A value that may be missing: a null pointer, an empty token, a key that is not there. */
module Options {
  datatype Option<+T> = None | Some(value: T)
}
