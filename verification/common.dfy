/** Values shared by every part of the limiter model: optional values, error
    returns standing for the exceptions the Java code throws, and task priority. */
module Common {

  /** A value that may be absent; `None` stands for Java's `null`. */
  datatype Option<T> = None | Some(value: T) {
    function GetOr(default: T): T {
      if Some? then value else default
    }
  }

  /** The exceptions the limiter throws, one constructor per message. */
  datatype Error =
    | NullTask                 // IllegalArgumentException("Must provide task")
    | NegativeDelay            // IllegalArgumentException("delayInMs must be >= 0")
    | NegativeInitialDelay     // IllegalArgumentException("initialDelay must be >= 0")
    | NegativeRecurringDelay   // IllegalArgumentException("recurringDelay must be >= 0")
    | NullScheduler            // IllegalArgumentException("Must provide scheduler")
    | NonPositiveConcurrency   // thrown by the superclass constructor for maxConcurrency < 1
    | UnsupportedOperation     // UnsupportedOperationException from a wrapper accessor

  /** A value or the exception thrown instead of returning it. */
  datatype Result<T> = Success(value: T) | Failure(error: Error)

  /** The completion of a `void` operation: normal return or the exception thrown. */
  datatype Outcome = Pass | Fail(error: Error)

  /** `TaskPriority`: the priorities the underlying scheduler understands. */
  datatype Priority = High | Low

  /** An opaque value handed back by a future (`T result`). */
  type Value = nat

  /** Identities of listeners and executors given to `addListener`. */
  type ListenerId = nat
  type ExecutorId = nat
}
