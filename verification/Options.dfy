/** The value that may be missing: None is the program's None. */
module Options {
  datatype Option<+T> = None | Some(value: T)
}
