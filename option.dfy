/** The Java `null`-or-value shape, used for references that may be absent. */
module Optional {

  datatype Option<+T> = None | Some(value: T)
}
