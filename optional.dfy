/** The usual optional value: `None` where there is nothing. */
module Optional {
  datatype Option<T> = None | Some(value: T)
}
