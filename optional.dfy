/** Java's nullable references, made explicit. */
module Optional {

  datatype Option<+T> = None | Some(value: T)
}
