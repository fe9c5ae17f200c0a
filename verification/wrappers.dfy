/** The optional value used by both halves of the model: a missing form field,
    a missing JSON member, a request that was not sent, a guard that declined. */
module Wrappers {

  datatype Option<+T> = None | Some(value: T)
}
