/** An optional value: a missing response body, an unset token, no selection. */
module Options {

  datatype Option<+T> = None | Some(value: T)
}
