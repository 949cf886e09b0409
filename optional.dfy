/** The usual optional value: a browser global or a parse result that may be absent. */
module Optional {
  datatype Option<+T> = None | Some(value: T)
}
