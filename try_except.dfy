/**
  The flag state of one try/except construct. A try block owns two local
  flags, `invoke_except` and `except_handled`; the guarded call sets the
  first, an except clause sets the second, and the finish point reads both.
 */
module TryExcept {
  import opened Boxing

  /**
    The body of the first except clause: it either returns a value from the
    enclosing function, or runs to its end, after which the clause marks the
    failure handled and jumps to the finish point.
   */
  datatype Handler = HandlerReturns(v: int) | HandlerCompletes

  /**
    Clear: no failure caught. Failing: a failure was caught and no clause has
    completed. Handled: a clause completed, normal flow resumes after the
    construct. Unhandled: the finish point was reached with the failure
    still unhandled, so the enclosing function unwinds.
   */
  datatype TryPhase = Clear | Failing | Handled | Unhandled

  /** The phase a construct is in, read off its two flags and whether control is at the finish point. */
  function PhaseOf(invokeExcept: bool, exceptHandled: bool, atFinish: bool): TryPhase
  {
    if !invokeExcept then Clear
    else if exceptHandled then Handled
    else if atFinish then Unhandled
    else Failing
  }

  /** The test at the finish point: return the declaration default when a failure was caught and nothing handled it. */
  predicate FinishReturnsDefault(invokeExcept: bool, exceptHandled: bool)
  {
    invokeExcept && !exceptHandled
  }

  /** The finish point unwinds exactly in the Unhandled phase, and the flags can only reach Handled after a failure. */
  lemma FinishUnwindsExactlyWhenUnhandled(invokeExcept: bool, exceptHandled: bool)
    ensures FinishReturnsDefault(invokeExcept, exceptHandled) <==> PhaseOf(invokeExcept, exceptHandled, true) == Unhandled
    ensures PhaseOf(invokeExcept, exceptHandled, true) == Handled ==> invokeExcept && exceptHandled
    ensures PhaseOf(invokeExcept, exceptHandled, true) != Failing
  {
  }

  /** Where control goes after an except clause: past it, out of the function with a value, or to the finish point. */
  datatype ClauseExit = Skipped | ReturnFromClause(value: Boxed<int>) | GotoFinish

  /**
    `PBL_EXCEPTION_CREATE_EXCEPT_BLOCK`: when a failure was caught, run the
    handler; a handler that returns leaves the function before the handled
    flag is set, one that completes sets it and jumps to the finish point.
    The clause's exception name is not consulted: every clause catches all.
   */
  method CreateExceptBlock(handler: Handler, invokeExcept: bool, exceptHandled: bool)
    returns (handledAfter: bool, exit: ClauseExit)
    ensures !invokeExcept ==> exit == Skipped && handledAfter == exceptHandled
    ensures invokeExcept && handler.HandlerReturns? ==>
              exit == ReturnFromClause(Get(handler.v)) && handledAfter == exceptHandled
    ensures invokeExcept && handler.HandlerCompletes? ==> exit == GotoFinish && handledAfter
  {
    handledAfter, exit := exceptHandled, Skipped;
    if invokeExcept {
      match handler
      case HandlerReturns(v) =>
        exit := ReturnFromClause(Get(v));
        return;
      case HandlerCompletes =>
        handledAfter := true;
        exit := GotoFinish;
    }
  }
}
