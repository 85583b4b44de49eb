/** A value, or the Python exception that the source would raise in its place. */
module Options {
  datatype Option<+T> = None | Some(value: T)
}
