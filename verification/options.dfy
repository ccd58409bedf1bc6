/** The optional value used throughout the model: Go's `nil` error and the
    failure results of the parsers are both `None`. */
module Options {

  datatype Option<+T> = None | Some(value: T)

}
