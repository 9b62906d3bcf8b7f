/** The usual optional value: `None` stands for JavaScript's `null`/`undefined`
    or for an operation that throws instead of returning. */
module Wrappers {
  datatype Option<+T> = None | Some(value: T)
}
