/** Option and Result values: a Python `None`-or-value, and a value-or-raised-exception. */
module Wrappers {

  datatype Option<+T> = None | Some(value: T)

  /** `Failure(e)` stands for an operation that raised the exception `e`. */
  datatype Result<+R, +E> = Success(value: R) | Failure(error: E)

  /** The list `[x]` for `Some(x)` and `[]` for `None`. */
  function ToSeq<T>(o: Option<T>): (s: seq<T>)
    ensures |s| <= 1
    ensures s == [] <==> o.None?
    ensures o.Some? ==> s == [o.value]
  {
    match o
    case None => []
    case Some(v) => [v]
  }
}
