/** The Kotlin nullable value `T?`, as a datatype. */
module Options {
  datatype Option<+T> = None | Some(value: T)
}
