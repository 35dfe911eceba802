/** The optional result that every coercion of a JSON value returns: `None` stands for
    the `nil` a coercion yields when the value has another kind. */
module Wrappers {

  datatype Option<+T> = None | Some(value: T)
}
