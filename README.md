# Para-C base library: exception propagation runtime

C has no exceptions, so the Para-C base library emulates them in
`include/pbl/pbl-function.h`. Every call gets a heap-allocated call context
(`PblMetaFunctionCallCtx_T`). A raise records the exception in the current
context and returns the declaration default of the return type. Macros then
relay a failure from a callee's context into the caller's. A try/except
construct is built from two local flags, labels and `goto`.

This project models that runtime in Dafny and proves what it guarantees about
a failure travelling up a call chain.

- `boxed.dfy` (module `Boxing`): the boxed-value convention. A value is
  `Boxed(actual, defined)`. `defined` is the C `meta.defined` flag.
  A declaration default is `defined == false`. A getter result or a scalar
  definition default is `defined == true`.
- `exceptions.dfy` (module `Exceptions`): the exception record and its
  defaults. An exception is a class with constant fields, because nothing in
  the runtime writes an exception after building it. Relays pass the
  reference on, so "the same exception" means the same object.
- `contexts.dfy` (module `Contexts`): the call context. It is a class whose
  payload `actual` is written in place, as `ctx->actual.*` is in C. This
  module also holds the context defaults, the context built for a call, and
  `PblRaiseNewException`.
- `try_except.dfy` (module `TryExcept`): the two flags of a try block, its
  phases (Clear, Failing, Handled, Unhandled), and the except clause macro.
- `protocol.dfy` (module `Protocol`): the macros, as mutually recursive
  methods that update contexts through references. A function body is a
  value `Body`: return a value, raise an exception, call through one of the
  two relays, or call inside a try block. The pure function `Eval` gives
  the meaning of a body, and every method is proved against it.
  Each frame of a call chain has a number (0 for the running frame, then 1,
  2, ... down the callees). A failure origin is one of these numbers. The
  methods return the chain's contexts as a ghost sequence, so origin `k` is
  the context `frames[k]`.
- `propagation.dfy` (module `Propagation`): lemmas about `Eval`. They say
  when a chain fails, what it returns, which exception reaches the top and
  which frame is named as the failure origin.
- `scenarios.dfy` (module `Scenarios`): the exception test scenarios,
  replayed on the model as verified methods over real contexts.

A try block whose failure no clause handles returns the declaration default
from its finish point (`include/pbl/pbl-function.h:98-102`) and leaves its
own context clean. The failure is not copied upward, so the caller sees no
failure (`Propagation.TryExceptNeverFails`).

## Where the documented intent and the code disagree

- The field comment on `failure_origin_ctx`
  (`include/pbl/pbl-function.h:211-213`) says the origin is the context of
  the function where the exception occurred. The base relay keeps an origin
  it receives, so it preserves that (`include/pbl/pbl-function.h:59-61`).
  The catch-func relay does not: it always sets the origin to its own
  callee (line 78), even when the callee only relayed a failure from below.
  The model follows the code. `Propagation.OriginIsRaiserIff` gives the
  exact condition under which the top origin is the raiser: no catch-func
  relay sits above the raiser's direct caller. This holds for the test chain
  (`Propagation.BaseRelaysKeepRaiserOrigin`). With two catch-func relays in
  a row, the top origin is a relay frame
  (`Propagation.TwoCatchFuncRelaysReportRelayFrame`,
  `Scenarios.TwoCatchFuncRelays`).
- `PblRaiseNewException` is only declared in the header
  (`include/pbl/pbl-function.h:267-272`), so its behaviour is a choice of
  this model (see "## Left out"). In the model, a function body can raise
  only a real exception. So every context run by the model keeps "exception
  present exactly when failing"
  (`Propagation.RecordingKeepsFailureConsistent`).
- One test expects the `function_identifier` of the definition default with
  set children to be `"w+"`. The macro builds it from
  `PblString_T_DefWithSetChildrenDefault` (`include/pbl/pbl-function.h:196`),
  which the model takes to be empty. The model follows the macro.

## Model

| member | source | states |
|---|---|---|
| `Boxing.DeclDefault` | include/pbl/pbl-function.h:137 | a declaration default is never defined and carries the zero payload |
| `Boxing.Get` | include/pbl/pbl-function.h:40-41 | a getter's value is defined and carries exactly the given payload |
| `Exceptions.Exception.Get` | include/pbl/pbl-function.h:264-265 | a new exception is defined and holds exactly the given fields and cause links |
| `Exceptions.Exception.Value` | include/pbl/pbl-function.h:117 | dereferencing an exception yields its payload and its defined flag |
| `Exceptions.ExceptionDeclDefault` | include/pbl/pbl-function.h:137 | the exception declaration default is undefined, every field undefined, both cause links null |
| `Exceptions.ExceptionDefWithSetChildrenDefault` | include/pbl/pbl-function.h:146-150 | the definition default with set children is defined, with defined empty strings, a defined line 0 and null parent and child |
| `Contexts.CallCtx.Get` | include/pbl/pbl-function.h:242-246 | a new context is defined and holds exactly the given fields |
| `Contexts.CallCtx.Place` | tests/tests/test_exception.cpp:81 | a context variable initialised with a value holds that value |
| `Contexts.CtxDeclDefault` | include/pbl/pbl-function.h:184 | the context declaration default is undefined, clean and unlinked |
| `Contexts.CtxDefWithSetChildrenDefault` | include/pbl/pbl-function.h:194-199 | the definition default with set children is defined, not failing (a defined `false`), no exception, null origin and caller, a defined `arg_amount` 0 and a defined empty identifier |
| `Contexts.FreshCallCtx` | include/pbl/pbl-function.h:39-41 | the context built for a call is named after the callee, clean, counts 0 arguments, copies `is_threaded` and links to the caller |
| `Contexts.RaiseNewException` | include/pbl/pbl-function.h:267-272 | raising sets `is_failure` and `exception` and changes nothing else, not even the origin |
| `TryExcept.FinishUnwindsExactlyWhenUnhandled` | include/pbl/pbl-function.h:98-102 | the finish point returns the default exactly in the Unhandled phase, and Handled implies a caught failure |
| `TryExcept.CreateExceptBlock` | include/pbl/pbl-function.h:124-129 | a clause runs only after a caught failure; a returning handler leaves before `except_handled` is set, a completing one sets it and jumps to the finish |
| `Protocol.Eval` | include/pbl/pbl-function.h:54-80 | an origin, when a frame records one, names a frame strictly below it and within the chain |
| `Protocol.RaiseException` | include/pbl/pbl-function.h:25-27 | the raise records the exception in the current context and returns the undefined declaration default |
| `Protocol.Execute` | tests/tests/test_exception.cpp:57-77 | running a body returns its meaning's value and records exactly its meaning's failure in the frame's own context; the callee contexts are fresh, named and linked to their callers |
| `Protocol.CallFuncWithMetaCtx` | include/pbl/pbl-function.h:39-42 | the call allocates a fresh context named after the callee and linked to `meta_ctx`, and passes it to the callee |
| `Protocol.BaseExceptionCatch` | include/pbl/pbl-function.h:54-62 | the child context ends holding the callee's recorded failure; on child failure, the parent gets failing, the same exception, and the child's origin or else the child; otherwise the parent is unchanged |
| `Protocol.ExceptionCatchFunc` | include/pbl/pbl-function.h:72-80 | the child context ends holding the callee's recorded failure; on child failure, the caller gets failing, the same exception, and the child as origin, and unwinds with the default; otherwise nothing changes |
| `Protocol.TryBlockCatchFunc` | include/pbl/pbl-function.h:112-120 | the child context ends holding the callee's recorded failure; on child failure, the guarded call copies the exception value into the slot, sets `invoke_except` and jumps; it never writes the caller's context |
| `Protocol.TryExceptBlock` | include/pbl/pbl-function.h:92-102 | the construct ends Clear, Handled, Unhandled or returning from a clause exactly as the callee and clause decide; it returns unless Handled, and Unhandled returns the default |
| `Propagation.FailureReturnsDeclDefault` | include/pbl/pbl-function.h:25-27 | a failing body always returns the declaration default, so the caller sees `defined == false` |
| `Propagation.FailsIffRaisedAndUnguarded` | include/pbl/pbl-function.h:54-80 | a chain fails exactly when its innermost function raises and no frame guards the call with a try block |
| `Propagation.RaisedExceptionReachesTop` | include/pbl/pbl-function.h:58 | the exception at the top of a failing chain is the very object the innermost function raised |
| `Propagation.ReturnedValueReachesTop` | include/pbl/pbl-function.h:39-42 | a value returned at the bottom of any chain, through relays and successful guarded calls alike, reaches the top unchanged and without failure |
| `Propagation.OriginSetBelowRaiser` | include/pbl/pbl-function.h:267-272 | a failing frame has no origin exactly when it is the raiser itself |
| `Propagation.OriginIsRaiserIff` | include/pbl/pbl-function.h:59-78 | the top origin is the raiser exactly when no catch-func relay sits above the raiser's direct caller |
| `Propagation.BaseRelaysKeepRaiserOrigin` | include/pbl/pbl-function.h:54-80 | one catch-func relay above the raiser, then any number of base relays, reports the raiser as origin with its exception |
| `Propagation.TwoCatchFuncRelaysReportRelayFrame` | include/pbl/pbl-function.h:78 | with two catch-func relays in a row, the top origin is the relay frame 2, not the raiser at frame 3 |
| `Propagation.TryExceptNeverFails` | include/pbl/pbl-function.h:92-102 | a frame running a try block never fails; a successful guarded call gives its own value, an unhandled failure the default, a returning handler its value `v` as a defined `v`, a completing handler the value after the construct |
| `Propagation.RecordingKeepsFailureConsistent` | include/pbl/pbl-function.h:211-221 | recording a failure keeps "exception present exactly when failing, origin only when failing" |
| `Scenarios.NewTestException` | tests/tests/test_exception.cpp:59-68 | the test exception holds msg "test", name "TestException", the file, line 59 and "raise exception" |
| `Scenarios.OneNestCall` | tests/tests/test_exception.cpp:79-109 | after the one-level chain the result is undefined; the top is failing, has no caller, names the raiser's context as origin and holds the raised exception's fields |
| `Scenarios.TryExceptCallWithHandler` | tests/tests/test_exception.cpp:134-147 | a handled failure gives a defined 1 and leaves the top context clean and without a caller |
| `Scenarios.TwoCatchFuncRelays` | include/pbl/pbl-function.h:72-80 | with two catch-func relays, the top's origin is the relay B, the caller of the raiser C |

## Left out

- Protocol.Execute: a function body makes at most one call, and all functions return `PblInt_T`. This covers every function in the exception tests. Bodies with several calls, or other return types, are not modelled.
- Propagation.FailsIffRaisedAndUnguarded: holds only for the modelled body shapes. No modelled function raises after a successful call, inside an except clause, or after a try/except construct: a relay call is followed only by `return r;`, a clause only returns a value or completes, and the construct is followed only by `return PblGetIntT(after);`. In C a frame whose call succeeds and which then raises fails although its innermost function returned.
- Propagation.TryExceptNeverFails: holds only for the same body shapes. An except clause cannot raise in the model, although `block_to_execute` (`include/pbl/pbl-function.h:126`) has `this_call_meta` in scope and may use `PBL_RAISE_EXCEPTION`; a clause that re-raises makes the frame fail in C. What the construct itself guarantees for any clause is that it never copies the caught failure into the frame's context.
- Protocol.Execute: for the callee frames below its own, it states only their names and caller links, not their final failure fields.
- Contexts.RaiseNewException: the function is only declared in the header, so its behaviour here is a choice of the model, taken from its doc comment: it sets `is_failure` and `exception` and nothing else. The model does not check its arguments. Raising again on a failing context overwrites the exception. Neither is a fact read from C code.
- Protocol.RaiseException: `Body.RaiseExc` holds a non-null `Exception`, so a function body cannot raise NULL. The macro accepts `PBL_RAISE_EXCEPTION(NULL, T)` (`include/pbl/pbl-function.h:25-27`). A guarded call would then dereference NULL at line 117, and that case is not modelled.
- Allocation, deallocation and cleanup (`PblAllocateMetaFunctionCallCtxT`, `PblSafeDeallocateMetaFunctionCallCtxT`, `PblAllocateExceptionType`, `PblSafeDeallocateExceptionT`, `PblCleanupExceptionContext`): only declared in the header, with no body to model. Allocation is Dafny's `new`, and freeing is not modelled.
- The `_Size` macros: platform `sizeof` arithmetic.
- Concurrency: `is_threaded` is copied into each new context and never read.
- Variadic argument plumbing (`IFN`, `va-opt.h`): a callee's arguments are not modelled, because its behaviour is given by its `Body`. The context counts 0 arguments either way, as the macro writes.
- Except clauses after the first: they can never run, because the first clause either returns or jumps to the finish point. A clause's exception name is not consulted by the macro, so every clause catches everything.
- `PblException_T_DefDefault` and `PblMetaFunctionCallCtx_T_DefDefault` (`include/pbl/pbl-function.h:141-144`, `188-192`): they are built by `PBL_DEFINITION_UNSET_CONSTRUCTOR`, which is not part of this model. Their doc comments say the children stay unset and read as declaration defaults until they are set. Only the `_DefWithSetChildrenDefault` variants, which the tests assert, are modelled.
- `PBL_DEFINITION_STRUCT_CONSTRUCTOR` is not part of this model either. The `_DefWithSetChildrenDefault` functions take from the tests what it produces: a defined record holding the listed fields.
- A try block that does not `return r;` right after its guarded call cannot be expressed. `TryExceptCall` fixes the try body to "guarded call, then return its value". In C, a successful guarded call without that return falls through to the except label with `invoke_except` false and continues after the construct (`include/pbl/pbl-function.h:96-102`).
- Unsigned fields (`line`, `arg_amount`) are `nat`. The runtime does no arithmetic on them, so the width does not matter.
- `TryExceptCallWithContinuation` (tests/tests/test_exception.cpp:149-183) is the same as `TryExceptCall` and is covered by `Scenarios.TryExceptCallWithHandler`.
- `include/pbl/pbl-io.h`, `include/pbl/pbl-int.c` and `tests/test_io.cpp` (stream I/O, printing, integer getters) are not part of this model.
