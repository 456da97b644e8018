/** Failure and absence values, and facts about sequences, shared by the other modules. */
module Wrappers {
  datatype Option<+T> = None | Some(value: T)

  datatype Result<+T, +E> = Ok(value: T) | Err(error: E)

  /** The first `count` items, or all of them when there are fewer. */
  function Take<T>(items: seq<T>, count: nat): seq<T> {
    if |items| <= count then items else items[..count]
  }

  function Least(a: nat, b: nat): nat {
    if a <= b then a else b
  }

  predicate Distinct<T(==)>(items: seq<T>) {
    forall i, j :: 0 <= i < j < |items| ==> items[i] != items[j]
  }
}
