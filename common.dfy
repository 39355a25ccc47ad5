/** Small value types shared by every module of the model. */
module Common {

  /** An optional value: JavaScript's `null`/`undefined` versus a present value. */
  datatype Option<T> = None | Some(value: T)

  /** A canvas point in pixels. */
  datatype Point = Point(x: real, y: real)

  /** No element of `s` occurs twice. */
  predicate Distinct<T(==)>(s: seq<T>) {
    forall i, j :: 0 <= i < j < |s| ==> s[i] != s[j]
  }
}
