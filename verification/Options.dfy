/** The one optional value used across the project. */
module Options {
  datatype Option<+T> = None | Some(value: T)
}
