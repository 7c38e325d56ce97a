/** Values shared by the task and dashboard services. */
module Basics {

  /** A value that may be absent (JavaScript `undefined`). */
  datatype Option<+T> = None | Some(value: T)

  /** What a service function throws. */
  datatype Error =
    /** `throw new Error(message)` */
    | Thrown(message: string)
    /** the TypeError raised when a service reads a field of a record the backend did not return */
    | UndefinedRecord

  /** The settled promise of a service function: its value, or what it threw. */
  datatype Outcome<+T> = Ok(value: T) | Err(error: Error)
}
