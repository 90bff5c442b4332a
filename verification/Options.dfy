/** A value that may be missing: Python's `None` or a key that is not there. */
module Options {
  datatype Option<+T> = None | Some(value: T)
}
