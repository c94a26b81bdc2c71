/**
  The call context (`PblMetaFunctionCallCtx_T`): the heap-resident record of
  one invocation, carrying its failure state and its links to the frame the
  failure came from and to the caller.
 */
module Contexts {
  import opened Boxing
  import opened Exceptions

  /**
    The payload of a context (`struct PblMetaFunctionCallCtx_Base`).
    `failureOrigin` and `callOrigin` are non-owning links to other contexts;
    `exception` is the raised exception, if any.
   */
  datatype CtxBase = CtxBase(
    functionIdentifier: Boxed<string>,
    isFailure: Boxed<bool>,
    argAmount: Boxed<nat>,
    isThreaded: Boxed<bool>,
    failureOrigin: CallCtx?,
    callOrigin: CallCtx?,
    exception: Exception?)

  /**
    A context in memory: a heap cell from `PblGetMetaFunctionCallCtxT`, or a
    local variable of a caller whose address is passed down. The protocol
    writes its payload through the pointer (`ctx->actual.is_failure = ...`).
   */
  class CallCtx {
    var actual: CtxBase
    var defined: bool

    /** `PblGetMetaFunctionCallCtxT`: a defined context holding exactly the given fields. */
    constructor Get(functionIdentifier: Boxed<string>, isFailure: Boxed<bool>, argAmount: Boxed<nat>,
                    isThreaded: Boxed<bool>, failureOrigin: CallCtx?, callOrigin: CallCtx?, exception: Exception?)
      ensures defined
      ensures actual == CtxBase(functionIdentifier, isFailure, argAmount, isThreaded, failureOrigin, callOrigin, exception)
    {
      actual := CtxBase(functionIdentifier, isFailure, argAmount, isThreaded, failureOrigin, callOrigin, exception);
      defined := true;
    }

    /** A local context variable initialised with the value `v` (`PblMetaFunctionCallCtx_T x = v;`). */
    constructor Place(v: Boxed<CtxBase>)
      ensures actual == v.actual && defined == v.defined
    {
      actual := v.actual;
      defined := v.defined;
    }
  }

  /** A context that records no failure: not failing, no exception, no failure origin. */
  predicate Clean(c: CtxBase)
  {
    !c.isFailure.actual && c.exception == null && c.failureOrigin == null
  }

  /** `PblMetaFunctionCallCtx_T_DeclDefault`: a declared, never-set context with a zeroed payload. */
  function CtxDeclDefault(): (r: Boxed<CtxBase>)
    ensures !r.defined && Clean(r.actual)
    ensures !r.actual.functionIdentifier.defined && !r.actual.isFailure.defined
    ensures r.actual.callOrigin == null
  {
    DeclDefault(CtxBase(DeclDefault(""), DeclDefault(false), DeclDefault(0), DeclDefault(false), null, null, null))
  }

  /**
    `PblMetaFunctionCallCtx_T_DefWithSetChildrenDefault`: a defined, clean
    context whose children are set to the definition defaults of their types
    and whose links are all null.
   */
  function CtxDefWithSetChildrenDefault(): (r: Boxed<CtxBase>)
    ensures r.defined && Clean(r.actual)
    ensures r.actual.isFailure.defined && r.actual.callOrigin == null
    ensures r.actual.argAmount == Get(0) && r.actual.functionIdentifier == Get("")
    ensures r.actual.isThreaded == Get(false)
  {
    Get(CtxBase(Get(""), Get(false), Get(0), Get(false), null, null, null))
  }

  /**
    The context built for one call (the arguments `PBL_CALL_FUNC_WITH_META_CTX`
    passes to `PblGetMetaFunctionCallCtxT`): named after the callee, clean,
    no arguments counted, linked to the caller's context.
   */
  function FreshCallCtx(calleeName: string, isThreaded: Boxed<bool>, parent: CallCtx?): (c: CtxBase)
    ensures Clean(c) && c.isFailure.defined
    ensures c.functionIdentifier == Get(calleeName) && c.argAmount == Get(0)
    ensures c.isThreaded == isThreaded && c.callOrigin == parent
  {
    CtxBase(Get(calleeName), Get(false), Get(0), isThreaded, null, parent, null)
  }

  /**
    `PblRaiseNewException`: marks the context as failing and attaches the
    exception; every other field, the failure origin included, is left as it
    was. Raising on a context that is already failing overwrites its exception.
   */
  method RaiseNewException(thisCallMeta: CallCtx, exception: Exception?)
    modifies thisCallMeta
    ensures thisCallMeta.actual == old(thisCallMeta.actual).(isFailure := Get(true), exception := exception)
    ensures thisCallMeta.defined == old(thisCallMeta.defined)
  {
    thisCallMeta.actual := thisCallMeta.actual.(isFailure := Get(true), exception := exception);
  }
}
