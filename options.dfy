/** The optional value used throughout the model for "may be absent". */
module Options {

  datatype Option<+T> = None | Some(value: T)
}
