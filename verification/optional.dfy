/** The usual Some/None wrapper, standing in for JavaScript's `null`. */
module Optional {

  datatype Option<+T> = None | Some(value: T)

}
