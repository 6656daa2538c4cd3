/** Option, the error taxonomy of the core, and the two result shapes the
    models return in place of Java's null returns and checked exceptions. */
module Wrappers {

  /** `None` stands for Java's `null`. */
  datatype Option<T> = None | Some(value: T)

  /** Why an `OperationFailedException` was raised. */
  datatype FailReason = NoFileProvided | NoTitleProvided | InvalidStatus(status: int)

  /** The exception classes of the core, as values. */
  datatype DmxError =
    | InvalidChannelNumber(number: int)   // InvalidChannelNumberException
    | InvalidChannelValue(value: int)     // InvalidChannelValueException
    | OperationCancelled                  // OperationCancelledException
    | OperationFailed(reason: FailReason) // OperationFailedException

  /** The outcome of an operation that returns a value or throws. */
  datatype Result<T> = Ok(value: T) | Err(error: DmxError)

  /** The outcome of a `void` operation that may throw. */
  datatype Status = Done | Failed(error: DmxError)
}
