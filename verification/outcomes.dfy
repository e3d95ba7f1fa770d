/**
 The error kinds a shipitscript task check can fail with, and the
 success-or-error wrappers the checks return instead of raising.
 */
module Outcomes {

  /** The failures the scope and instance checks surface to the worker. */
  datatype Error =
    | TaskVerificationError          // the task itself is malformed (scopes)
    | BadInstanceConfigurationError  // the configured backend does not fit the scope
    | MissingInstance                // no instance is configured at all (an unwrapped lookup failure)

  /** A value, or the error that prevented computing it. */
  datatype Result<+T> = Ok(value: T) | Err(error: Error)

  /** A value that may be absent. */
  datatype Option<+T> = None | Some(value: T)

  /** A check that either passes or fails with an error. */
  datatype Outcome = Pass | Fail(error: Error)
}
