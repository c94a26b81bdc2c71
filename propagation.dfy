/**
  What the protocol guarantees about a failure on its way up a call chain:
  when the top frame fails, with which value, which exception, and which
  frame it names as the failure origin.
 */
module Propagation {
  import opened Boxing
  import opened Exceptions
  import opened Contexts
  import opened TryExcept
  import opened Protocol

  /** The innermost body of the chain: the one that returns or raises. */
  function Leaf(b: Body): (leaf: Body)
    ensures leaf.ReturnValue? || leaf.RaiseExc?
  {
    match b
    case RelayCall(_, _, callee) => Leaf(callee)
    case TryExceptCall(_, callee, _, _) => Leaf(callee)
    case _ => b
  }

  /** No frame of the chain calls its callee inside a try block. */
  predicate Unguarded(b: Body)
  {
    match b
    case RelayCall(_, _, callee) => Unguarded(callee)
    case TryExceptCall(_, _, _, _) => false
    case _ => true
  }

  /** Every catch-func relay of the chain calls the innermost function directly. */
  predicate CatchFuncOnlyAtRaiser(b: Body)
  {
    match b
    case RelayCall(BaseRelay, _, callee) => CatchFuncOnlyAtRaiser(callee)
    case RelayCall(CatchFuncRelay, _, callee) => Depth(callee) == 0
    case _ => true
  }

  /** The frame invariant of a context: an exception is attached exactly when it fails, and an origin only when it fails. */
  predicate FailureConsistent(c: CtxBase)
  {
    && (c.isFailure.actual <==> c.exception != null)
    && (c.failureOrigin != null ==> c.isFailure.actual)
  }

  /** A failing body returns the declaration default, so its caller sees `defined == false`. */
  lemma {:induction false} FailureReturnsDeclDefault(b: Body)
    ensures Eval(b).failure.Some? ==> Eval(b).result == IntDeclDefault && !Eval(b).result.defined
  {
    match b
    case RelayCall(_, _, callee) => FailureReturnsDeclDefault(callee);
    case _ =>
  }

  /** A body fails exactly when its innermost function raises and no frame on the way guards the call with a try block. */
  lemma {:induction false} FailsIffRaisedAndUnguarded(b: Body)
    ensures Eval(b).failure.Some? <==> Unguarded(b) && Leaf(b).RaiseExc?
  {
    match b
    case RelayCall(_, _, callee) => FailsIffRaisedAndUnguarded(callee);
    case _ =>
  }

  /** The exception reaching the top is the very object the innermost function raised: relays pass the pointer on. */
  lemma {:induction false} RaisedExceptionReachesTop(b: Body)
    requires Eval(b).failure.Some?
    ensures Leaf(b) == RaiseExc(Eval(b).failure.value.exc)
  {
    match b
    case RelayCall(_, _, callee) => RaisedExceptionReachesTop(callee);
    case TryExceptCall(_, _, _, _) =>
    case _ =>
  }

  /**
    A value returned at the bottom of a chain reaches the top unchanged, with
    no failure: relays pass it on, and a try block whose guarded call succeeds
    returns it from the try block itself.
   */
  lemma {:induction false} ReturnedValueReachesTop(b: Body)
    requires Leaf(b).ReturnValue?
    ensures Eval(b) == Outcome(Get(Leaf(b).v), None)
  {
    match b
    case RelayCall(_, _, callee) => ReturnedValueReachesTop(callee);
    case TryExceptCall(_, callee, _, _) => ReturnedValueReachesTop(callee);
    case _ =>
  }

  /** A failing frame names an origin exactly when it is not the raiser itself: raising never sets the origin. */
  lemma OriginSetBelowRaiser(b: Body)
    requires Eval(b).failure.Some?
    ensures Eval(b).failure.value.origin.None? <==> Depth(b) == 0
  {
  }

  /**
    The failure origin at the top is the raising frame (frame `Depth(b)`)
    exactly when no catch-func relay sits above the raiser's direct caller:
    the base relay keeps an origin it receives, the catch-func relay always
    replaces it with its own callee.
   */
  lemma {:induction false} OriginIsRaiserIff(b: Body)
    requires Eval(b).failure.Some? && Depth(b) >= 1
    ensures Eval(b).failure.value.origin == Some(Depth(b)) <==> CatchFuncOnlyAtRaiser(b)
  {
    match b
    case RelayCall(BaseRelay, _, callee) =>
      if Depth(callee) >= 1 {
        OriginSetBelowRaiser(callee);
        OriginIsRaiserIff(callee);
      }
    case RelayCall(CatchFuncRelay, _, callee) =>
    case _ =>
  }

  /**
    One catch-func relay directly above the raiser followed by any number of
    base relays reports the raiser as origin (the chain of `OneNestCall`).
   */
  lemma {:induction false} BaseRelaysKeepRaiserOrigin(names: seq<string>, raiserCaller: string, e: Exception)
    ensures var b := BaseRelays(names, RelayCall(CatchFuncRelay, raiserCaller, RaiseExc(e)));
            Eval(b).failure == Some(Failure(e, Some(Depth(b))))
  {
    var b := BaseRelays(names, RelayCall(CatchFuncRelay, raiserCaller, RaiseExc(e)));
    BaseRelaysOnly(names, RelayCall(CatchFuncRelay, raiserCaller, RaiseExc(e)));
    FailsIffRaisedAndUnguarded(b);
    RaisedExceptionReachesTop(b);
    OriginIsRaiserIff(b);
  }

  /** `names` wrapped, outermost first, as base relays around `inner`. */
  function BaseRelays(names: seq<string>, inner: Body): Body
  {
    if names == [] then inner else RelayCall(BaseRelay, names[0], BaseRelays(names[1..], inner))
  }

  lemma {:induction false} BaseRelaysOnly(names: seq<string>, inner: Body)
    ensures Leaf(BaseRelays(names, inner)) == Leaf(inner)
    ensures Unguarded(BaseRelays(names, inner)) == Unguarded(inner)
    ensures Depth(BaseRelays(names, inner)) == |names| + Depth(inner)
    ensures inner.RelayCall? && inner.policy == CatchFuncRelay && Depth(inner.callee) == 0 ==>
              CatchFuncOnlyAtRaiser(BaseRelays(names, inner))
  {
    if names != [] {
      BaseRelaysOnly(names[1..], inner);
    }
  }

  /**
    Two catch-func relays in a row lose the raiser: with the top calling A by
    the base relay, A calling B and B calling the raiser C by the catch-func
    relay, the origin at the top is B's frame (2), a relay frame, not C's (3).
   */
  lemma TwoCatchFuncRelaysReportRelayFrame(e: Exception)
    ensures var b := RelayCall(BaseRelay, "A", RelayCall(CatchFuncRelay, "B", RelayCall(CatchFuncRelay, "C", RaiseExc(e))));
            && Depth(b) == 3
            && Eval(b).failure == Some(Failure(e, Some(2)))
            && !CatchFuncOnlyAtRaiser(b)
  {
    var c := RelayCall(CatchFuncRelay, "C", RaiseExc(e));
    var bc := RelayCall(CatchFuncRelay, "B", c);
    assert Eval(c).failure == Some(Failure(e, Some(1)));
    assert Eval(bc).failure == Some(Failure(e, Some(1)));
    assert Depth(bc) == 2;
  }

  /**
    A try block swallows any failure of its guarded call: the frame running it
    never fails. A successful guarded call gives its own value; a caught
    failure gives the declaration default when no clause handles it, the
    handler's value when the clause returns, and the value after the
    construct when the clause completes.
   */
  lemma TryExceptNeverFails(name: string, callee: Body, clause: Option<Handler>, after: int)
    ensures Eval(TryExceptCall(name, callee, clause, after)).failure.None?
    ensures Eval(callee).failure.None? ==>
              Eval(TryExceptCall(name, callee, clause, after)).result == Eval(callee).result
    ensures Eval(callee).failure.Some? && clause.None? ==>
              Eval(TryExceptCall(name, callee, clause, after)).result == IntDeclDefault
    ensures forall v :: Eval(callee).failure.Some? && clause == Some(HandlerReturns(v)) ==>
              Eval(TryExceptCall(name, callee, clause, after)).result == Get(v)
    ensures Eval(callee).failure.Some? && clause == Some(HandlerCompletes) ==>
              Eval(TryExceptCall(name, callee, clause, after)).result == Get(after)
  {
  }

  /** Recording a failure keeps the frame invariant of a context, so contexts run by the protocol keep it from a clean start. */
  lemma RecordingKeepsFailureConsistent(before: CtxBase, failure: Option<Failure>, frames: seq<CallCtx>)
    requires failure.Some? && failure.value.origin.Some? ==> failure.value.origin.value < |frames|
    requires FailureConsistent(before)
    ensures FailureConsistent(Updated(before, failure, frames))
  {
  }
}
