/** The optional value the parsers return: nothing, or a value. */
module Options {
  datatype Option<T> = None | Some(value: T)
}
