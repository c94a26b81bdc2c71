/**
  The boxed-value convention shared by every Para-C base type: a payload
  `actual` and a `meta.defined` flag that tells "declared but never set"
  apart from "explicitly set", even when the payload is the canonical zero.
 */
module Boxing {

  datatype Option<+T> = None | Some(value: T)

  /** A boxed value: `actual` is the payload, `defined` is `meta.defined`. */
  datatype Boxed<+T> = Boxed(actual: T, defined: bool)

  /** The declaration default of a type (`T_DeclDefault`): a zeroed payload that was never set. */
  function DeclDefault<T>(zero: T): (r: Boxed<T>)
    ensures !r.defined && r.actual == zero
  {
    Boxed(zero, false)
  }

  /**
    A value built by one of the library's getters (`PblGetBoolT`,
    `PblGetUIntT`, `PblGetStringT`, ...), and the definition default of a
    scalar type when `v` is its canonical zero: the payload, marked defined.
   */
  function Get<T>(v: T): (r: Boxed<T>)
    ensures r.defined && r.actual == v
  {
    Boxed(v, true)
  }
}
