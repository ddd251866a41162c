/** Go error values as the pipeline builds them: leaf errors from a callee or
    from `fmt.Errorf` without `%w`, and wrapping errors from `fmt.Errorf`
    with a trailing `%w`. */
module Errors {
  import opened Wrappers

  datatype Error =
    | Leaf(text: string)
    | Wrapped(prefix: string, cause: Error)

  /** `fmt.Errorf(prefix + "%w", cause)` */
  function Wrap(prefix: string, cause: Error): (e: Error)
    ensures Unwrap(e) == Some(cause)
    ensures Message(e) == prefix + Message(cause)
  {
    Wrapped(prefix, cause)
  }

  /** `err.Error()` */
  function Message(e: Error): string
  {
    match e
    case Leaf(t) => t
    case Wrapped(p, c) => p + Message(c)
  }

  /** `errors.Unwrap(err)` */
  function Unwrap(e: Error): Option<Error>
  {
    match e
    case Leaf(_) => None
    case Wrapped(_, c) => Some(c)
  }

  /** `errors.Is(err, target)`: target is err or somewhere down its chain. */
  predicate Is(e: Error, target: Error)
  {
    e == target || (e.Wrapped? && Is(e.cause, target))
  }

  /** Wrapping keeps every error of the chain reachable by `errors.Is`. */
  lemma {:induction false} WrapKeepsChain(prefixes: seq<string>, e: Error, target: Error)
    requires Is(e, target)
    ensures Is(WrapAll(prefixes, e), target)
  {
    if prefixes != [] {
      WrapKeepsChain(prefixes[1..], e, target);
    }
  }

  /** Wraps `e` once per prefix, the last prefix innermost. */
  function WrapAll(prefixes: seq<string>, e: Error): Error
  {
    if prefixes == [] then e else Wrapped(prefixes[0], WrapAll(prefixes[1..], e))
  }

  /** `context.Canceled` */
  const ContextCanceled: Error := Leaf("context canceled")

  /** `context.DeadlineExceeded` */
  const DeadlineExceeded: Error := Leaf("context deadline exceeded")
}
