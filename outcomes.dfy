/**
 * Value types shared by every part of the panel model: Java's nullable
 * references, the checked exceptions the services throw, and what one run
 * of an external `docker` command can look like to the code that started it.
 */
module Outcomes {

  /** A Java reference that may be null: `None` is null. */
  datatype Option<T> = None | Some(value: T)

  /** A value, or the message of the exception thrown instead of returning one. */
  datatype Result<T> = Ok(value: T) | Err(message: string)

  /** A `void` Java method: it returned normally, or threw an exception with this message. */
  datatype Outcome = Success | Failure(message: string)

  /**
   * The observable result of starting an external command and waiting for it.
   * `LaunchFailed` is `ProcessBuilder.start` throwing an IOException (binary
   * missing, permission denied) and carries that exception's message.
   * `Exited` is a process that ran: its exit code and the first line of its
   * standard output and standard error (`None` when the stream was empty,
   * i.e. `readLine` returned null).
   */
  datatype CommandOutcome =
    | LaunchFailed(message: Option<string>)
    | Exited(code: int, stdout: Option<string>, stderr: Option<string>)
}
