/**
 The `wrap_exceptions` decorator (procrastinate/psycopg3_connector.py):
 driver errors are translated into procrastinate's own exceptions, so that
 no `psycopg.Error` leaves a wrapped entry point.
 */
module Classifier {
  import opened Values
  import opened Errors

  /** The exception a wrapped coroutine surfaces when its body raised `e`.
      The `UniqueViolation` clause comes first in the source; since a
      driver `UniqueViolation` is also a `psycopg.Error`, that order is what
      keeps its constraint name. */
  function Classify(e: Error): (r: Error)
    ensures e.DriverUniqueViolation? ==> r == UniqueViolation(e.diagConstraintName)
    ensures IsDriverError(e) && !e.DriverUniqueViolation? ==> r == ConnectorException(None, Some(e))
    ensures !IsDriverError(e) ==> r == e
    ensures !IsDriverError(r)
  {
    match e
    case DriverUniqueViolation(name) => UniqueViolation(name)
    case DriverOperational(_) => ConnectorException(None, Some(e))
    case DriverOther(_) => ConnectorException(None, Some(e))
    case _ => e
  }

  /** `wrap_exceptions` applied to a coroutine whose body produced `o`. */
  function WrapExceptions<T>(o: Outcome<T>): (r: Outcome<T>)
    ensures o.Returned? ==> r == o
    ensures o.Raised? ==> r.Raised? && r.error == Classify(o.error)
  {
    match o
    case Returned(_) => o
    case Raised(e) => Raised(Classify(e))
  }

  /** Every exception a wrapped coroutine raises is one of procrastinate's or a
      foreign one: a driver error never escapes. */
  lemma NoDriverErrorEscapes<T>(o: Outcome<T>)
    ensures WrapExceptions(o).Raised? ==> !IsDriverError(WrapExceptions(o).error)
  {
  }

  /** Wrapping twice is wrapping once: what the classifier produces it leaves alone. */
  lemma WrapExceptionsIdempotent<T>(o: Outcome<T>)
    ensures WrapExceptions(WrapExceptions(o)) == WrapExceptions(o)
  {
  }

  /** A generic connector exception always keeps the driver error as its cause,
      and only driver errors other than unique violations become one. */
  lemma ConnectorExceptionChainsDriverError(e: Error)
    requires !e.ConnectorException?
    ensures Classify(e).ConnectorException? <==> IsDriverError(e) && !e.DriverUniqueViolation?
    ensures Classify(e).ConnectorException? ==> Classify(e).cause == Some(e)
  {
  }
}
