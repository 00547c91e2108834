/** The optional value, for functions that may have no answer. */
module Options {
  datatype Option<T> = None | Some(value: T)
}
