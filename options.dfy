/** The usual optional value: the model's stand-in for a TypeScript optional
    field or for a string that is not one of a table's keys. */
module Options {

  datatype Option<+T> = None | Some(value: T)

}
