/** The two result types every component of this model uses. */
module Wrappers {

  datatype Option<+T> = None | Some(value: T)

  function Or<T>(o: Option<T>, default: T): T {
    if o.Some? then o.value else default
  }

  /** A call that returns a value or raises; the message is not modelled. */
  datatype Result<+T> = Ok(value: T) | Raised
}
