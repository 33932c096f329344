/** The optional value used for JavaScript's `T | null` fields and for parsers that may fail. */
module Options {
  datatype Option<+T> = None | Some(value: T)
}
