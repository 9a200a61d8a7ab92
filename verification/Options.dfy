/** A value that may be missing: a nullable column, a map lookup, a channel with nothing in it. */
module Options {
  datatype Option<T> = None | Some(value: T)
}
