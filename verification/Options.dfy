/** The one optional-value datatype the modules share. */
module Options {
  datatype Option<+T> = None | Some(value: T)
}
