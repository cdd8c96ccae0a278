/**
  Errors as the source builds them: leaves made with errors.New / errors.Errorf
  or returned by code outside the model, context added with errors.Wrap, and
  the cleanup failure that fmt.Errorf("...: %v: %w", ...) chains in front of a
  cause.
 */
module Errors {
  import opened Wrappers

  /** The classes the source asks about (errdefs.IsAlreadyExists, os.IsNotExist, ...). */
  datatype Class = Plain | NotFound | AlreadyExists | FailedPrecondition | InvalidArgument | NotExist

  datatype Error =
    | Leaf(kind: Class, msg: string)
    | Wrapped(context: string, cause: Error)
    | Chained(cleanup: Error, cause: Error)

  /** The class errors.Is finds: wrapping keeps it, and %w chains only the cause. */
  function ClassOf(e: Error): Class
  {
    match e
    case Leaf(c, _) => c
    case Wrapped(_, inner) => ClassOf(inner)
    case Chained(_, inner) => ClassOf(inner)
  }

  /** The text err.Error() returns. */
  function Message(e: Error): string
  {
    match e
    case Leaf(_, m) => m
    case Wrapped(c, inner) => c + ": " + Message(inner)
    case Chained(cl, inner) => "failed to remove path: " + Message(cl) + ": " + Message(inner)
  }

  predicate IsAlreadyExists(e: Error) {
    ClassOf(e) == AlreadyExists
  }

  /** errors.Wrap: a nil error stays nil, anything else gains the context and keeps its class. */
  function Wrap(context: string, e: Option<Error>): (r: Option<Error>)
    ensures r.None? <==> e.None?
    ensures r.Some? ==> ClassOf(r.value) == ClassOf(e.value)
    ensures r.Some? ==> Message(r.value) == context + ": " + Message(e.value)
  {
    match e
    case None => None
    case Some(inner) => Some(Wrapped(context, inner))
  }
}
