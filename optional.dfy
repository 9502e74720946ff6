/** The optional value used wherever the source leaves a property out or yields `undefined`. */
module Optional {

  datatype Option<+T> = None | Some(value: T)

}
