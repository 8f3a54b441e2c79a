/** The usual optional value; absent files and unset identities are `None`. */
module Options {
  datatype Option<+T> = None | Some(value: T)
}
