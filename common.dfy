/** Small wrappers shared by the frontend and backend models. */
module Common {

  /** A value that may be absent (`null`, `undefined`, a missing key). */
  datatype Option<T> = None | Some(value: T)

  /** The outcome of a call into something the model cannot see: the network,
      a database driver, a browser API. `Failed` carries the error's message. */
  datatype Remote<T> = Ok(value: T) | Failed(message: string)
}
