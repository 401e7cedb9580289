/** Values the relay passes through without looking inside them. */
module Values {

  /** The conventional Some/None datatype, used where the server may or may not have a value. */
  datatype Option<+T> = None | Some(value: T)

  /** A decoded JSON value: a command body, or what `JSON.parse` made of a device frame.
      The server never inspects one, so only its identity matters. */
  type Json(==)
}
