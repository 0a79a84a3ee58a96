/**
 The exceptions that reach or leave the connector, and the outcome of an
 awaited coroutine: it either returns a value or raises one of them.
 */
module Errors {
  import opened Values

  datatype Error =
    /** `psycopg.errors.UniqueViolation`, with `exc.diag.constraint_name`. */
    | DriverUniqueViolation(diagConstraintName: Option<string>)
    /** `psycopg.errors.OperationalError` or a subclass (e.g. `AdminShutdown`); `message` is `str(exc)`. */
    | DriverOperational(message: string)
    /** Any other subclass of `psycopg.Error`. */
    | DriverOther(message: string)
    /** An exception that is not a `psycopg.Error` (a `TypeError`, a user error, ...). */
    | Foreign(message: string)
    /** `procrastinate.exceptions.ConnectorException`, with its message `detail` (`None` for
        the class default) and the exception it was raised `from`. */
    | ConnectorException(detail: Option<string>, cause: Option<Error>)
    /** `procrastinate.exceptions.UniqueViolation`. */
    | UniqueViolation(constraintName: Option<string>)
    /** `procrastinate.exceptions.AppNotOpen`. */
    | AppNotOpen

  /** The exception derives from `psycopg.Error`. */
  predicate IsDriverError(e: Error)
  {
    e.DriverUniqueViolation? || e.DriverOperational? || e.DriverOther?
  }

  /** What awaiting a coroutine produces. */
  datatype Outcome<+T> = Returned(value: T) | Raised(error: Error)
}
