/** The optional value used for results that may be absent (a rejected constructor
    argument, an undecodable frame). */
module Options {

  datatype Option<T> = None | Some(value: T)
}
