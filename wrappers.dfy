/** Failure-compatible optional values: the model's counterpart of the exceptions the
    numeric code raises (a dimension mismatch, a division by zero, an empty sequence
    given to `max`). */
module Wrappers {

  datatype Option<+T> = None | Some(value: T) {

    predicate IsFailure() {
      None?
    }

    function PropagateFailure<U>(): Option<U>
      requires None?
    {
      None
    }

    function Extract(): T
      requires Some?
    {
      value
    }
  }
}
