/** An optional value, for the source's `None` arguments and for parsers that may fail. */
module Options {
  datatype Option<T> = None | Some(value: T)
}
