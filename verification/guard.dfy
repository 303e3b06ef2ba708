/** `diagnostics.Guard`: every public method runs the matching diagnostics expectation
    without the caller's message and turns an `ExpectationException` into a
    `GuardError` that carries it as its cause and the caller's message, if any. */
module Guard {
  import opened Lang
  import D = DiagnosticsExpect

  /** `throwError`: a `GuardError` built from the cause alone for a null message,
      otherwise from the message and the cause. The message `GuardError(cause)` derives
      from its cause is not modelled, so it appears as no message. */
  function ThrowError(message: Option<string>, cause: Throwable): (r: Outcome)
    ensures r.Raised? && r.error.kind == GuardError && r.error.cause == Some(cause)
    ensures r.error.message == message
  {
    if message.None? then Raised(Throwable(GuardError, None, Some(cause)))
    else Raised(Throwable(GuardError, Some(message.value), Some(cause)))
  }

  /** `rethrowOnFailure`: `task` is what running the delegate did. A normal return
      passes through; an `ExpectationException` becomes a `GuardError` caused by it;
      any other throwable propagates unchanged. */
  function RethrowOnFailure(message: Option<string>, task: Outcome): (r: Outcome)
    ensures task.Ok? ==> r.Ok?
    ensures task.Raised? && task.error.kind.ExpectationException? ==>
      r == Raised(Throwable(GuardError, message, Some(task.error)))
    ensures task.Raised? && !task.error.kind.ExpectationException? ==> r == task
  {
    match task
    case Ok => Ok
    case Raised(e) => if e.kind.ExpectationException? then ThrowError(message, e) else task
  }

  /** A public `Guard` method (`isTrue`, `isFalse`, `equal`, `notEqual`, `same`, `notSame`,
      `isNull`, `allNull`, `notNull`, `allNotNull`, `empty`, `allEmpty`, `notEmpty`,
      `allNotEmpty`, `blank`, `allBlank`, `notBlank`, `allNotBlank`, `valid`, `allValid`,
      `notValid`, `allNotValid`, `nullOrValid`, `allNullOrValid`, `nullOrNotValid`,
      `allNullOrNotValid`) with the message overload's `message`: it returns iff the
      same-named expectation holds, and otherwise raises a `GuardError` whose cause is
      exactly what that expectation raised. */
  function Guard(eq: (Obj, Obj) -> bool, check: D.Check, message: Option<string>): (r: Outcome)
    ensures r.Ok? <==> D.Holds(eq, check)
    ensures r.Ok? <==> D.Run(eq, check).Ok?
    ensures r.Raised? ==>
      && r.error.kind == GuardError
      && r.error.message == message
      && r.error.cause == Some(D.Run(eq, check).error)
  {
    RethrowOnFailure(message, D.Run(eq, check))
  }

  /** The caller's message only labels the `GuardError`: the cause is the same whatever
      message is given, so the message never reaches the delegate. */
  lemma MessageNotForwarded(eq: (Obj, Obj) -> bool, check: D.Check, m1: Option<string>, m2: Option<string>)
    ensures Guard(eq, check, m1).Raised? <==> Guard(eq, check, m2).Raised?
    ensures Guard(eq, check, m1).Raised? ==>
      Guard(eq, check, m1).error.cause == Guard(eq, check, m2).error.cause
  {
  }

  /** Polarity is kept: a guard and the guard of the opposite check never both pass and
      never both fail (`isTrue`/`isFalse`, `equal`/`notEqual`, `valid`/`nullOrNotValid`, ...). */
  lemma GuardPolarity(eq: (Obj, Obj) -> bool, check: D.Check, m1: Option<string>, m2: Option<string>)
    requires D.Opposite(check).Some?
    ensures Guard(eq, check, m1).Ok? <==> Guard(eq, D.Opposite(check).value, m2).Raised?
  {
    D.OppositeFlips(eq, check);
  }
}
