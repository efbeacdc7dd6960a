/** Small shared vocabulary: optional values, results, and integer helpers. */
module Basics {

  /** A value that may be absent, as an unset configuration field is. */
  datatype Option<+T> = None | Some(value: T)

  /** The outcome of an operation that throws on bad input in `index.js`. */
  datatype Result<+T, +E> = Success(value: T) | Failure(error: E)

  function Min(a: int, b: int): (m: int)
    ensures m <= a && m <= b
    ensures m == a || m == b
  {
    if a <= b then a else b
  }

  /** The non-negative part of an integer: how many loop iterations `for (i = 0; i < n; i++)` runs. */
  function Max0(a: int): (m: nat)
    ensures a <= m
    ensures m == a || m == 0
  {
    if a < 0 then 0 else a
  }

  /** No value occurs twice. */
  predicate Distinct<T(==)>(s: seq<T>) {
    forall i, j :: 0 <= i < j < |s| ==> s[i] != s[j]
  }
}
