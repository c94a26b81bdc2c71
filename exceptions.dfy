/**
  The exception record (`PblException_T`): a message, a name, the source
  location it was raised at, and the optional parent and child exceptions of
  its cause chain.
 */
module Exceptions {
  import opened Boxing

  /** The payload of an exception (`struct PblException_Base`); `line` is an unsigned `PblUInt_T`. */
  datatype ExceptionBase = ExceptionBase(
    msg: Boxed<string>,
    name: Boxed<string>,
    filename: Boxed<string>,
    line: Boxed<nat>,
    lineContent: Boxed<string>,
    parentExc: Exception?,
    childExc: Exception?)

  /**
    A heap-allocated exception (`PblException_T *`). No operation of the
    runtime writes an exception after it is built, so its fields are constants;
    relays pass the reference on and the guarded call of a try block copies
    the value out with `Value()`.
   */
  class Exception {
    const actual: ExceptionBase
    const defined: bool

    /** `PblGetExceptionT`: a defined exception holding the given fields; parent and child are attached as passed. */
    constructor Get(msg: Boxed<string>, name: Boxed<string>, filename: Boxed<string>, line: Boxed<nat>,
                    lineContent: Boxed<string>, parentExc: Exception?, childExc: Exception?)
      ensures defined
      ensures actual == ExceptionBase(msg, name, filename, line, lineContent, parentExc, childExc)
    {
      actual := ExceptionBase(msg, name, filename, line, lineContent, parentExc, childExc);
      defined := true;
    }

    /** The value `*exc`, payload and meta together. */
    function Value(): (v: Boxed<ExceptionBase>)
      ensures v.actual == actual && v.defined == defined
    {
      Boxed(actual, defined)
    }
  }

  /** Every string of the record is a defined empty string, the line a defined 0, and both links are null. */
  predicate EmptyRecord(e: ExceptionBase)
  {
    && e.msg == Get("") && e.name == Get("") && e.filename == Get("")
    && e.lineContent == Get("") && e.line == Get(0)
    && e.parentExc == null && e.childExc == null
  }

  /** `PblException_T_DeclDefault`: a declared, never-set exception with a zeroed payload. */
  function ExceptionDeclDefault(): (r: Boxed<ExceptionBase>)
    ensures !r.defined
    ensures !r.actual.msg.defined && !r.actual.name.defined && !r.actual.filename.defined
    ensures !r.actual.line.defined && !r.actual.lineContent.defined
    ensures r.actual.parentExc == null && r.actual.childExc == null
  {
    var noString := DeclDefault("");
    DeclDefault(ExceptionBase(noString, noString, noString, DeclDefault(0), noString, null, null))
  }

  /**
    `PblException_T_DefWithSetChildrenDefault`: a defined exception whose
    children are set to the definition defaults of their types and whose cause
    links are null.
   */
  function ExceptionDefWithSetChildrenDefault(): (r: Boxed<ExceptionBase>)
    ensures r.defined && EmptyRecord(r.actual)
  {
    Get(ExceptionBase(Get(""), Get(""), Get(""), Get(0), Get(""), null, null))
  }
}
