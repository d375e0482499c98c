/** An optional value, the Dafny counterpart of a Swift optional (`T?`). */
module Optional {
  datatype Option<T> = None | Some(value: T)
}
