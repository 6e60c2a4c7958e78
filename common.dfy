/** Small value types shared by the whole model. */
module Common {

  /** A value that may be absent (JavaScript `undefined`). */
  datatype Option<T> = None | Some(value: T)

  /** What a call into the simulator's JavaScript did: it returned a value, or it threw. */
  datatype Outcome<T> = Returned(value: T) | Threw
}
