/**
  The scenarios of the exception tests, replayed on the model as verified
  methods: a raise relayed by a catch-func relay and then by the base relay
  at top level, the same raise caught by a try block whose handler returns 1,
  and a chain with two catch-func relays in a row.
 */
module Scenarios {
  import opened Boxing
  import opened Exceptions
  import opened Contexts
  import opened TryExcept
  import opened Protocol

  /** The exception `NestedTestFunction` raises, raised at line 59 of `file`. */
  method NewTestException(file: string) returns (exc: Exception)
    ensures exc.defined
    ensures exc.actual == ExceptionBase(Get("test"), Get("TestException"), Get(file), Get(59),
                                        Get("raise exception"), null, null)
  {
    exc := new Exception.Get(Get("test"), Get("TestException"), Get(file), Get(59), Get("raise exception"), null, null);
  }

  /**
    `OneNestCall`: the top-level context, a definition default, calls
    `TestFunction` through the base relay; `TestFunction` calls
    `NestedTestFunction` through the catch-func relay, and that raises.
   */
  method OneNestCall(file: string) returns (r: Boxed<int>, top: CallCtx, ghost raiser: CallCtx)
    ensures !r.defined
    ensures top.actual.isFailure.actual && top.actual.callOrigin == null
    ensures top.actual.failureOrigin == raiser && raiser != top
    ensures raiser.actual.functionIdentifier == Get("NestedTestFunction")
    ensures raiser.actual.callOrigin != null && raiser.actual.callOrigin.actual.callOrigin == top
    ensures top.actual.exception != null
    ensures top.actual.exception.actual.msg == Get("test") && top.actual.exception.actual.name == Get("TestException")
    ensures top.actual.exception.actual.filename == Get(file)
    ensures top.actual.exception.actual.lineContent == Get("raise exception")
  {
    top := new CallCtx.Place(CtxDefWithSetChildrenDefault());
    var exc := NewTestException(file);
    var testFunction := RelayCall(CatchFuncRelay, "NestedTestFunction", RaiseExc(exc));
    ghost var frames: seq<CallCtx>;
    r := IntDeclDefault;
    r, frames := BaseExceptionCatch("TestFunction", testFunction, Get(false), top);
    raiser := frames[1];
  }

  /**
    `TryExceptCall`: the top-level context calls `TestFunction2` through the
    base relay; `TestFunction2` guards its call of `NestedTestFunction` with a
    try block whose except clause returns 1.
   */
  method TryExceptCallWithHandler(file: string) returns (r: Boxed<int>, top: CallCtx)
    ensures r.defined && r.actual == 1
    ensures !top.actual.isFailure.actual && top.actual.failureOrigin == null
    ensures top.actual.exception == null && top.actual.callOrigin == null
  {
    top := new CallCtx.Place(CtxDefWithSetChildrenDefault());
    var exc := NewTestException(file);
    var testFunction2 := TryExceptCall("NestedTestFunction", RaiseExc(exc), Some(HandlerReturns(1)), 0);
    ghost var frames: seq<CallCtx>;
    r := IntDeclDefault;
    r, frames := BaseExceptionCatch("TestFunction2", testFunction2, Get(false), top);
  }

  /**
    The top-level context calls A through the base relay, A calls B and B
    calls C through the catch-func relay, and C raises: the origin recorded at
    the top is B's context, a relay frame, and not C's.
   */
  method TwoCatchFuncRelays(file: string) returns (r: Boxed<int>, top: CallCtx, ghost relay: CallCtx, ghost raiser: CallCtx)
    ensures !r.defined && top.actual.isFailure.actual
    ensures top.actual.failureOrigin == relay && relay != raiser
    ensures relay.actual.functionIdentifier == Get("B") && raiser.actual.functionIdentifier == Get("C")
    ensures raiser.actual.callOrigin == relay
  {
    top := new CallCtx.Place(CtxDefWithSetChildrenDefault());
    var exc := NewTestException(file);
    var b := RelayCall(CatchFuncRelay, "C", RaiseExc(exc));
    var a := RelayCall(CatchFuncRelay, "B", b);
    assert Eval(b).failure == Some(Failure(exc, Some(1)));
    assert Names(a) == ["B", "C"];
    ghost var frames: seq<CallCtx>;
    r := IntDeclDefault;
    r, frames := BaseExceptionCatch("A", a, Get(false), top);
    relay, raiser := frames[1], frames[2];
  }
}
