/** The optional value used wherever the calculator passes `None`. */
module Optional {

  datatype Option<+T> = None | Some(value: T)
}
