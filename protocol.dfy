/**
  The raise / call / relay protocol and the try/except construct.

  A Para-C function is modelled by its `Body`: what it does with the context
  it receives. Every body makes at most one call, so an invocation unfolds
  into a chain of frames; `Eval` is the pure meaning of a body, and the
  methods below are the macros themselves, updating contexts through
  pointers, each proved against `Eval`.

  Frames are numbered from the frame that runs the body (0) down the chain
  of callees (1, 2, ...). A failure origin is kept as such a number; the
  methods return the contexts of the chain as a ghost sequence `frames`, so
  that origin `k` stands for the context `frames[k]`.

  Every modelled function returns `PblInt_T`, whose declaration default is
  `IntDeclDefault`.
 */
module Protocol {
  import opened Boxing
  import opened Exceptions
  import opened Contexts
  import opened TryExcept

  /** The two relay macros: `PBL_C_BASE_EXCEPTION_CATCH_CONSTRUCTOR` and `PBL_EXCEPTION_CATCH_FUNC_CONSTRUCTOR`. */
  datatype Relay = BaseRelay | CatchFuncRelay

  /** What a function does with its context. */
  datatype Body =
      /** `return PblGetIntT(v);` */
    | ReturnValue(v: int)
      /** `PBL_RAISE_EXCEPTION(exc, PblInt_T)` */
    | RaiseExc(exc: Exception)
      /** `r = PblInt_T_DeclDefault; <relay macro>(callee, r, ...); return r;` */
    | RelayCall(policy: Relay, calleeName: string, callee: Body)
      /**
        A try block holding `r = PblInt_T_DeclDefault;` the guarded call and
        `return r;`, an except block holding the first clause if there is
        one, and `return PblGetIntT(after);` after the construct.
       */
    | TryExceptCall(calleeName: string, callee: Body, clause: Option<Handler>, after: int)

  /** A failure as it reaches a frame: the exception and, when set, the frame number of the failure origin. */
  datatype Failure = Failure(exc: Exception, origin: Option<nat>)

  /** What a caller observes of a body: the value returned, and the failure recorded in the body's own context. */
  datatype Outcome = Outcome(result: Boxed<int>, failure: Option<Failure>)

  /** `PblInt_T_DeclDefault`. */
  const IntDeclDefault: Boxed<int> := DeclDefault(0)

  /** The number of frames below the one running `b`. */
  function Depth(b: Body): nat
  {
    match b
    case ReturnValue(_) => 0
    case RaiseExc(_) => 0
    case RelayCall(_, _, callee) => 1 + Depth(callee)
    case TryExceptCall(_, callee, _, _) => 1 + Depth(callee)
  }

  /** The names of the functions called along the chain, outermost first; `names[i]` names frame `i + 1`. */
  function Names(b: Body): (names: seq<string>)
    ensures |names| == Depth(b)
  {
    match b
    case ReturnValue(_) => []
    case RaiseExc(_) => []
    case RelayCall(_, name, callee) => [name] + Names(callee)
    case TryExceptCall(name, callee, _, _) => [name] + Names(callee)
  }

  /** A failure origin, when set, names a frame strictly below the current one and no deeper than `depth`. */
  predicate OriginWithin(failure: Option<Failure>, depth: nat)
  {
    failure.Some? && failure.value.origin.Some? ==> 1 <= failure.value.origin.value <= depth
  }

  /** The origin written by the base relay (lines 59-61): the child's origin if it has one, otherwise the child, frame 1. */
  function BaseRelayed(child: Option<Failure>): Option<Failure>
  {
    match child
    case None => None
    case Some(f) => Some(Failure(f.exc, Some(1 + if f.origin.Some? then f.origin.value else 0)))
  }

  /** The origin written by the catch-func relay (line 78): always the child, frame 1. */
  function CatchFuncRelayed(child: Option<Failure>): Option<Failure>
  {
    match child
    case None => None
    case Some(f) => Some(Failure(f.exc, Some(1)))
  }

  /** The meaning of a body run on a clean context. */
  function Eval(b: Body): (o: Outcome)
    ensures OriginWithin(o.failure, Depth(b))
  {
    match b
    case ReturnValue(v) => Outcome(Get(v), None)
    case RaiseExc(e) => Outcome(IntDeclDefault, Some(Failure(e, None)))
    case RelayCall(BaseRelay, _, callee) =>
      var c := Eval(callee);
      Outcome(c.result, BaseRelayed(c.failure))
    case RelayCall(CatchFuncRelay, _, callee) =>
      var c := Eval(callee);
      if c.failure.Some? then Outcome(IntDeclDefault, CatchFuncRelayed(c.failure)) else Outcome(c.result, None)
    case TryExceptCall(_, callee, clause, after) =>
      var c := Eval(callee);
      if c.failure.None? then Outcome(c.result, None)
      else match clause
        case None => Outcome(IntDeclDefault, None)
        case Some(HandlerReturns(v)) => Outcome(Get(v), None)
        case Some(HandlerCompletes) => Outcome(Get(after), None)
  }

  /**
    The payload of a context after a failure was recorded in it: failing, the
    exception attached, and the origin frame linked when the failure names
    one. Without a failure the payload is as it was.
   */
  function Updated(before: CtxBase, failure: Option<Failure>, frames: seq<CallCtx>): CtxBase
    requires failure.Some? && failure.value.origin.Some? ==> failure.value.origin.value < |frames|
  {
    match failure
    case None => before
    case Some(f) =>
      before.(isFailure := Get(true), exception := f.exc,
              failureOrigin := if f.origin.Some? then frames[f.origin.value] else before.failureOrigin)
  }

  /** `frames` are the contexts of the call chain of `b` run on `top`: each linked to its caller and named after its function. */
  ghost predicate Chain(b: Body, frames: seq<CallCtx>, top: CallCtx)
    reads frames
  {
    && |frames| == Depth(b) + 1
    && frames[0] == top
    && forall i :: 1 <= i < |frames| ==>
         frames[i].actual.callOrigin == frames[i - 1] && frames[i].actual.functionIdentifier == Get(Names(b)[i - 1])
  }

  /** `frames` are the contexts of a call of `callee`, named `calleeName`, made from the context `caller`. */
  ghost predicate CalleeChain(calleeName: string, callee: Body, frames: seq<CallCtx>, caller: CallCtx?)
    reads frames
  {
    && |frames| == Depth(callee) + 1
    && Chain(callee, frames, frames[0])
    && frames[0].actual.callOrigin == caller
    && frames[0].actual.functionIdentifier == Get(calleeName)
  }

  /** `PBL_RAISE_EXCEPTION`: record the exception in the current context, then return the declaration default. */
  method RaiseException(thisCallMeta: CallCtx, exception: Exception?) returns (r: Boxed<int>)
    modifies thisCallMeta
    ensures r == IntDeclDefault && !r.defined
    ensures thisCallMeta.actual == old(thisCallMeta.actual).(isFailure := Get(true), exception := exception)
    ensures thisCallMeta.defined == old(thisCallMeta.defined)
  {
    RaiseNewException(thisCallMeta, exception);
    r := IntDeclDefault;
  }

  /** Runs a body with `thisCallMeta` as its context: records its failure there and returns its value. */
  method Execute(body: Body, thisCallMeta: CallCtx) returns (r: Boxed<int>, ghost frames: seq<CallCtx>)
    modifies thisCallMeta
    decreases body, 0
    ensures Chain(body, frames, thisCallMeta)
    ensures forall i :: 1 <= i < |frames| ==> fresh(frames[i])
    ensures r == Eval(body).result
    ensures thisCallMeta.actual == Updated(old(thisCallMeta.actual), Eval(body).failure, frames)
    ensures thisCallMeta.defined == old(thisCallMeta.defined)
  {
    ghost var below: seq<CallCtx>;
    match body
    case ReturnValue(v) =>
      r, frames := Get(v), [thisCallMeta];
    case RaiseExc(exc) =>
      r := RaiseException(thisCallMeta, exc);
      frames := [thisCallMeta];
    case RelayCall(BaseRelay, name, callee) =>
      r := IntDeclDefault;
      r, below := BaseExceptionCatch(name, callee, thisCallMeta.actual.isThreaded, thisCallMeta);
      frames := [thisCallMeta] + below;
    case RelayCall(CatchFuncRelay, name, callee) =>
      var unwound: bool;
      r := IntDeclDefault;
      r, unwound, below := ExceptionCatchFunc(name, callee, thisCallMeta);
      frames := [thisCallMeta] + below;
    case TryExceptCall(name, callee, clause, after) =>
      var returned: bool;
      ghost var phase: TryPhase;
      r, returned, phase, below := TryExceptBlock(name, callee, clause, thisCallMeta);
      if !returned {
        r := Get(after);
      }
      frames := [thisCallMeta] + below;
  }

  /**
    `PBL_CALL_FUNC_WITH_META_CTX`: allocate a context for the callee, named
    after it, clean, with no arguments counted and `meta_ctx` as its call
    origin, and run the callee with it.
   */
  method CallFuncWithMetaCtx(calleeName: string, callee: Body, isThreaded: Boxed<bool>, metaCtx: CallCtx?)
    returns (r: Boxed<int>, child: CallCtx, ghost frames: seq<CallCtx>)
    decreases callee, 1
    ensures fresh(child) && child.defined
    ensures CalleeChain(calleeName, callee, frames, metaCtx) && frames[0] == child
    ensures forall i :: 0 <= i < |frames| ==> fresh(frames[i])
    ensures r == Eval(callee).result
    ensures child.actual == Updated(FreshCallCtx(calleeName, isThreaded, metaCtx), Eval(callee).failure, frames)
  {
    child := new CallCtx.Get(Get(calleeName), Get(false), Get(0), isThreaded, null, metaCtx, null);
    r, frames := Execute(callee, child);
  }

  /**
    `PBL_C_BASE_EXCEPTION_CATCH_CONSTRUCTOR`: call, and when the child failed
    copy its failure into `meta_ctx` with the first origin kept; execution
    continues with the callee's value either way.
   */
  method BaseExceptionCatch(calleeName: string, callee: Body, isThreaded: Boxed<bool>, metaCtx: CallCtx)
    returns (r: Boxed<int>, ghost frames: seq<CallCtx>)
    modifies metaCtx
    decreases callee, 2
    ensures CalleeChain(calleeName, callee, frames, metaCtx)
    ensures forall i :: 0 <= i < |frames| ==> fresh(frames[i])
    ensures r == Eval(callee).result
    ensures frames[0].actual == Updated(FreshCallCtx(calleeName, isThreaded, metaCtx), Eval(callee).failure, frames)
    ensures metaCtx.actual == Updated(old(metaCtx.actual), BaseRelayed(Eval(callee).failure), [metaCtx] + frames)
    ensures metaCtx.defined == old(metaCtx.defined)
  {
    var child: CallCtx;
    r, child, frames := CallFuncWithMetaCtx(calleeName, callee, isThreaded, metaCtx);
    if child.actual.isFailure.actual {
      metaCtx.actual := metaCtx.actual.(
        isFailure := Get(true),
        exception := child.actual.exception,
        failureOrigin := if child.actual.failureOrigin != null then child.actual.failureOrigin else child);
    }
  }

  /**
    `PBL_EXCEPTION_CATCH_FUNC_CONSTRUCTOR`: call, and when the child failed
    copy its failure into `this_call_meta` with the child as origin and make
    the enclosing function return the declaration default (`unwound`).
   */
  method ExceptionCatchFunc(calleeName: string, callee: Body, thisCallMeta: CallCtx)
    returns (r: Boxed<int>, unwound: bool, ghost frames: seq<CallCtx>)
    modifies thisCallMeta
    decreases callee, 2
    ensures CalleeChain(calleeName, callee, frames, thisCallMeta)
    ensures forall i :: 0 <= i < |frames| ==> fresh(frames[i])
    ensures frames[0].actual ==
              Updated(FreshCallCtx(calleeName, old(thisCallMeta.actual.isThreaded), thisCallMeta), Eval(callee).failure, frames)
    ensures unwound <==> Eval(callee).failure.Some?
    ensures r == if unwound then IntDeclDefault else Eval(callee).result
    ensures thisCallMeta.actual == Updated(old(thisCallMeta.actual), CatchFuncRelayed(Eval(callee).failure), [thisCallMeta] + frames)
    ensures thisCallMeta.defined == old(thisCallMeta.defined)
  {
    var child: CallCtx;
    r, child, frames := CallFuncWithMetaCtx(calleeName, callee, thisCallMeta.actual.isThreaded, thisCallMeta);
    unwound := false;
    if child.actual.isFailure.actual {
      thisCallMeta.actual := thisCallMeta.actual.(
        isFailure := Get(true),
        exception := child.actual.exception,
        failureOrigin := child);
      r, unwound := IntDeclDefault, true;
      return;
    }
  }

  /**
    `PBL_EXCEPTION_TRY_BLOCK_CATCH_FUNC_CONSTRUCTOR`: call, and when the child
    failed copy the exception's value into the block's slot, set
    `invoke_except` and jump to the except block. It never writes
    `this_call_meta` (no `modifies` clause).
   */
  method TryBlockCatchFunc(calleeName: string, callee: Body, thisCallMeta: CallCtx,
                           invokeExcept: bool, slot: Boxed<ExceptionBase>)
    returns (r: Boxed<int>, invokeExceptAfter: bool, slotAfter: Boxed<ExceptionBase>,
             jumpToExcept: bool, ghost frames: seq<CallCtx>)
    decreases callee, 2
    ensures CalleeChain(calleeName, callee, frames, thisCallMeta)
    ensures forall i :: 0 <= i < |frames| ==> fresh(frames[i])
    ensures r == Eval(callee).result
    ensures frames[0].actual ==
              Updated(FreshCallCtx(calleeName, thisCallMeta.actual.isThreaded, thisCallMeta), Eval(callee).failure, frames)
    ensures jumpToExcept <==> Eval(callee).failure.Some?
    ensures invokeExceptAfter == (invokeExcept || jumpToExcept)
    ensures slotAfter == if jumpToExcept then Eval(callee).failure.value.exc.Value() else slot
  {
    var child: CallCtx;
    r, child, frames := CallFuncWithMetaCtx(calleeName, callee, thisCallMeta.actual.isThreaded, thisCallMeta);
    invokeExceptAfter, slotAfter, jumpToExcept := invokeExcept, slot, false;
    if child.actual.isFailure.actual {
      slotAfter := child.actual.exception.Value();
      invokeExceptAfter := true;
      jumpToExcept := true;
    }
  }

  /**
    `PBL_EXCEPTION_TRY_EXCEPT_BLOCK` around a try block that makes one guarded
    call and returns its value, and an except block holding `clause`.
    `returned` says the enclosing function returned `r` from inside the
    construct; otherwise the failure was handled and execution continues
    after it. `phase` is the state the construct was left in.
   */
  method TryExceptBlock(calleeName: string, callee: Body, clause: Option<Handler>, thisCallMeta: CallCtx)
    returns (r: Boxed<int>, returned: bool, ghost phase: TryPhase, ghost frames: seq<CallCtx>)
    decreases callee, 3
    ensures CalleeChain(calleeName, callee, frames, thisCallMeta)
    ensures forall i :: 0 <= i < |frames| ==> fresh(frames[i])
    ensures phase == Clear <==> Eval(callee).failure.None?
    ensures phase == Handled <==> Eval(callee).failure.Some? && clause == Some(HandlerCompletes)
    ensures phase == Unhandled <==> Eval(callee).failure.Some? && clause.None?
    ensures returned <==> phase != Handled
    ensures phase == Clear ==> r == Eval(callee).result
    ensures phase == Unhandled ==> r == IntDeclDefault
    ensures phase == Failing ==> clause.Some? && clause.value.HandlerReturns? && r == Get(clause.value.v)
  {
    var invokeExcept, exceptHandled := false, false;
    // `_local_catched_exc` is declared uninitialised in C; any value does here,
    // since the slot is only read after the guarded call has written it.
    var caught := ExceptionDeclDefault();
    var jump: bool;
    r := IntDeclDefault;
    r, invokeExcept, caught, jump, frames := TryBlockCatchFunc(calleeName, callee, thisCallMeta, invokeExcept, caught);
    if !jump {
      // the try block's own `return r;`
      returned, phase := true, PhaseOf(invokeExcept, exceptHandled, false);
      return;
    }
    // except block
    if clause.Some? {
      var exit: ClauseExit;
      exceptHandled, exit := CreateExceptBlock(clause.value, invokeExcept, exceptHandled);
      if exit.ReturnFromClause? {
        r, returned, phase := exit.value, true, PhaseOf(invokeExcept, exceptHandled, false);
        return;
      }
    }
    // finish point
    phase := PhaseOf(invokeExcept, exceptHandled, true);
    returned := false;
    if FinishReturnsDefault(invokeExcept, exceptHandled) {
      r, returned := IntDeclDefault, true;
    }
  }
}
