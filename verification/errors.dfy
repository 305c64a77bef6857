/**
  The error taxonomy and the Java exceptions the engine can meet, with
  `MagazineException.propagate`, the rule that either passes a magazine error through
  or wraps anything else as an internal error.
 */
module Errors {
  import opened Wrappers

  /** The library's error codes, in the order of the enumeration. */
  datatype ErrorCode =
    | ConnectionError
    | InternalError
    | RetriesExhausted
    | MagazineUnprepared
    | NothingToFire
    | MagazineNotFound
    | ActionDeniedParallelAttempt
    | NotImplemented
    | InvalidShards
    | DataTypeMismatch

  /** Error codes of the distributed lock manager that the engine tells apart. */
  datatype DlmErrorCode = LockUnavailable | OtherDlmError(name: string)

  /**
    The exceptions that reach the engine's catch blocks. `Retry` is the bounded
    retryer giving up; `Execution` is the retryer wrapping an exception it does not
    retry on; `Other` is any remaining throwable, named by its class.
   */
  datatype Throwable =
    | Magazine(ex: MagazineException)
    | Dlm(dlmCode: DlmErrorCode)
    | Retry
    | Execution(wrapped: Throwable)
    | Other(className: string, otherCause: Option<Throwable>)

  datatype MagazineException = MagazineException(code: ErrorCode, message: string, cause: Option<Throwable>)

  /** `Throwable.getCause()`. */
  function CauseOf(t: Throwable): Option<Throwable>
  {
    match t
    case Magazine(ex) => ex.cause
    case Dlm(_) => None
    case Retry => None
    case Execution(w) => Some(w)
    case Other(_, c) => c
  }

  predicate CauseIsMagazine(t: Throwable)
  {
    CauseOf(t).Some? && CauseOf(t).value.Magazine?
  }

  const DefaultMessage: string := "Error occurred"

  /** `MagazineException.propagate(message, throwable)`. */
  function PropagateWith(message: string, t: Throwable): (e: MagazineException)
    ensures t.Magazine? ==> e == t.ex
    ensures !t.Magazine? && CauseIsMagazine(t) ==> e == CauseOf(t).value.ex
    ensures !t.Magazine? && !CauseIsMagazine(t) ==>
              e.code == InternalError && e.message == message && e.cause == Some(t)
  {
    if t.Magazine? then t.ex
    else if CauseIsMagazine(t) then CauseOf(t).value.ex
    else MagazineException(InternalError, message, Some(t))
  }

  /** `MagazineException.propagate(throwable)`: the one-argument form, with the default message. */
  function Propagate(t: Throwable): (e: MagazineException)
    ensures e == PropagateWith(DefaultMessage, t)
  {
    PropagateWith(DefaultMessage, t)
  }

  /** Propagating an already propagated exception changes nothing. */
  lemma PropagateIdempotent(message: string, t: Throwable)
    ensures PropagateWith(message, Magazine(PropagateWith(message, t))) == PropagateWith(message, t)
  {
  }
}
