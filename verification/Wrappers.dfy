/** Option and Result, with the members that let Dafny use them with `:-`. */
module Wrappers {

  datatype Option<+T> = None | Some(value: T)

  datatype Result<+T, +E> = Ok(value: T) | Err(error: E) {
    predicate IsFailure() {
      Err?
    }

    function PropagateFailure<U>(): Result<U, E>
      requires Err?
    {
      Err(error)
    }

    function Extract(): T
      requires Ok?
    {
      value
    }
  }

  /** `l` holds the elements of `s`, each exactly once, in some order. */
  ghost predicate Lists<T(!new)>(l: seq<T>, s: set<T>) {
    && (forall x :: x in l <==> x in s)
    && (forall i, j :: 0 <= i < j < |l| ==> l[i] != l[j])
  }

  /** Collect a set into a sequence; the order is left open. */
  method ListOf<T(==,!new)>(s: set<T>) returns (l: seq<T>)
    ensures Lists(l, s)
  {
    l := [];
    var rest := s;
    while rest != {}
      invariant rest <= s
      invariant Lists(l, s - rest)
      decreases rest
    {
      var x :| x in rest;
      l := l + [x];
      rest := rest - {x};
    }
  }
}
