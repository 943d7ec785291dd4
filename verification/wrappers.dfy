/** The optional-value datatype shared by the model, in the failure-compatible
    style, so that decoders can propagate a missing piece with `:-`. */
module Wrappers {

  /** Rust's `Option<T>`: a slot that is either unset or holds a value. */
  datatype Option<+T> = None | Some(value: T) {

    predicate IsFailure() {
      None?
    }

    function PropagateFailure<U>(): Option<U>
      requires None?
    {
      None
    }

    function Extract(): T
      requires Some?
    {
      value
    }
  }
}
