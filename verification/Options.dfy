/** The Some/None datatype used wherever the service handles a missing or null value. */
module Options {

  datatype Option<+T> = None | Some(value: T)
}
