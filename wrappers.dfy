/** Option and pass/fail outcome types for Go's nil pointers and error results. */
module Wrappers {

  /** A value that may be absent: Go's nil slice, nil address or nil pointer. */
  datatype Option<+T> = None | Some(value: T)

  /** Go's `error` result: Pass stands for nil, Fail carries the message. */
  datatype Outcome = Pass | Fail(message: string)
}
