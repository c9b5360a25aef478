/**
 * Optional values, the exceptions the engine raises, and the two shapes an
 * operation that may throw takes in this model.
 */
module Errors {

  /** A C# reference that may be null. */
  datatype Option<+T> = None | Some(value: T)

  /** The .NET exception classes the engine throws. */
  datatype Exn =
    | ArgumentNull        // System.ArgumentNullException
    | InvalidOperation    // System.InvalidOperationException
    | NullReference       // System.NullReferenceException (a null dereference)
    | ActivityFault       // whatever an activity defined outside the core throws from its OnRun

  /** The completion of a `Task` (or of a `void` call): it ran to the end, or it threw. */
  datatype Outcome = Done | Threw(error: Exn)

  /** A call that returns a value, or throws. */
  datatype Result<+T> = Ok(value: T) | Err(error: Exn)
}
