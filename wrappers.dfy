/** Failure-compatible result types shared by the planner modules. */
module Wrappers {

  /** An optional value; the source's `None` or a present value. */
  datatype Option<+T> = None | Some(value: T)

  /** The outcome of an operation that can fail with a message. */
  datatype Result<+R> = Success(value: R) | Failure(error: string)
}
