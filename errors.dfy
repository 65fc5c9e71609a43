/** The error kinds a stopwatch or a stopwatch manager can raise, and the
    result types that carry them back to the caller instead of exceptions. */
module Errors {

  /** One constructor per exception class of the library; the messages are not modelled. */
  datatype Error =
    | StatusError          // operation attempted in the wrong stopwatch status
    | LapNameError         // duplicate lap name, or lookup of a lap that does not exist
    | StopwatchNameError   // duplicate or unknown stopwatch name in a manager
    | MaxLimitError        // the manager is at its capacity
    | ValueError           // malformed argument (empty name, precision above the maximum)

  datatype Option<+T> = None | Some(value: T)

  /** The outcome of an operation that returns a value or raises. */
  datatype Result<+T> = Ok(value: T) | Err(error: Error)

  /** The outcome of an operation that returns nothing or raises. */
  datatype Outcome = Done | Fail(error: Error)
}
