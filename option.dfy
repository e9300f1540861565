/** A value that may be absent: an optional component, or a lookup that may fail. */
module Optional {

  datatype Option<T> = None | Some(value: T)

}
