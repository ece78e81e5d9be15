/** The usual optional value, used for recognisers that may reject their input. */
module Optional {

  datatype Option<+T> = None | Some(value: T)
}
