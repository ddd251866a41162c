/** The part of Go's `context` package the poller relies on: a context is
    done once it is cancelled or its deadline has passed, and from then on
    `ctx.Err()` reports why. Times and durations are integers counting
    nanoseconds, as `time.Time` and `time.Duration` do. */
module GoContext {
  import opened Wrappers
  import opened Errors

  /** A context, seen through the two moments that end it: when it (or an
      ancestor) is cancelled, and its deadline. */
  datatype Context = Context(cancelAt: Option<int>, deadline: Option<int>)

  /** `context.Background()`: never cancelled, no deadline. */
  const Background: Context := Context(None, None)

  /** `time.Minute` */
  const OneMinute: int := 60 * 1000 * 1000 * 1000

  /** `context.WithTimeout(parent, timeout)` called at time `now`: the child
      ends with its parent or at `now + timeout`, whichever comes first. */
  function WithTimeout(parent: Context, now: int, timeout: int): (c: Context)
    ensures c.cancelAt == parent.cancelAt
    ensures c.deadline.Some? && c.deadline.value <= now + timeout
    ensures parent.deadline.Some? ==> c.deadline.value <= parent.deadline.value
    ensures c.deadline.value == now + timeout || c.deadline == parent.deadline
  {
    if parent.deadline.Some? && parent.deadline.value < now + timeout then parent
    else Context(parent.cancelAt, Some(now + timeout))
  }

  /** `ctx.Done()` is closed at time `t`. */
  predicate IsDone(c: Context, t: int)
  {
    (c.cancelAt.Some? && c.cancelAt.value <= t) || (c.deadline.Some? && c.deadline.value <= t)
  }

  /** `ctx.Err()` once the context is done: whichever ending came first. */
  function Err(c: Context, t: int): (e: Error)
    requires IsDone(c, t)
    ensures e == ContextCanceled || e == DeadlineExceeded
    ensures e == ContextCanceled <==>
              (c.cancelAt.Some? && c.cancelAt.value <= t
               && (c.deadline.None? || c.cancelAt.value < c.deadline.value))
  {
    if c.cancelAt.Some? && c.cancelAt.value <= t && (c.deadline.None? || c.cancelAt.value < c.deadline.value)
    then ContextCanceled
    else DeadlineExceeded
  }

  /** A done context stays done, and its error never changes. */
  lemma DoneIsFinal(c: Context, t: int, u: int)
    requires IsDone(c, t) && t <= u
    ensures IsDone(c, u) && Err(c, u) == Err(c, t)
  {
  }

  /** Under a background parent the timeout alone decides: the child is done
      exactly from `now + timeout` on, and then reports the deadline. */
  lemma TimeoutOfBackground(now: int, timeout: int, t: int)
    ensures IsDone(WithTimeout(Background, now, timeout), t) <==> t >= now + timeout
    ensures t >= now + timeout ==> Err(WithTimeout(Background, now, timeout), t) == DeadlineExceeded
  {
  }
}
