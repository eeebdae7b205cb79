/** An optional value: the model's stand-in for a null pointer or an enum
    field that the source leaves unassigned. */
module Optional {

  datatype Option<+T> = None | Some(value: T)

}
