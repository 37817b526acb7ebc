/** The optional value used for nullable results and handles. */
module Options {
  datatype Option<+T> = None | Some(value: T)
}
