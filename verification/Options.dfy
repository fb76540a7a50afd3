/** The optional value used for SQL NULL, absent rows and rejected parses. */
module Options {
  datatype Option<+T> = None | Some(value: T)
}
