/** A value that may be absent: the model of a nullable reference or a JavaScript `null`. */
module Optional {

  datatype Option<+T> = None | Some(value: T)
}
