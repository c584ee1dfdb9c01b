/** A value that may be absent: a null pointer, no thread, no result. */
module Options {
  datatype Option<+T> = None | Some(value: T)
}
