/** Types shared by the other modules. */
module Wrappers {

  datatype Option<+T> = None | Some(value: T)

  datatype Result<+T, +E> = Ok(value: T) | Err(error: E)

  /** The number a server gives a message of a mailbox. */
  type Uid = nat

  /** What an upstream failure condemns. */
  datatype Severity = Retryable | FatalMailbox | FatalAccount
}
