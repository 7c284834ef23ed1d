/** The optional value used wherever the JavaScript code leaves a field `undefined`. */
module Options {
  datatype Option<T> = None | Some(value: T)
}
