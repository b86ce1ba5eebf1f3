/** Option and Result types, and the Python exception classes the modelled code raises. */
module Wrappers {

  datatype Option<+T> = None | Some(value: T)

  /** The exception a Python call ends with, by class. `raise NotImplemented(...)` in the
      source calls a non-callable constant, so Python raises a TypeError there. */
  datatype Error =
    | IOError(what: string)
    | KeyError(key: string)
    | ValueError(what: string)
    | TypeError(what: string)
    | RuntimeError(what: string)
    | NotImplementedError(what: string)
    | IndexError(what: string)
    | AttributeError(what: string)
    | UnpicklingError(path: string)

  /** The outcome of a call that may raise. */
  datatype Result<+T> = Ok(value: T) | Err(error: Error) {
    predicate IsFailure() { Err? }

    function PropagateFailure<U>(): Result<U>
      requires Err?
    {
      Err(error)
    }

    function Extract(): T
      requires Ok?
    {
      value
    }
  }

  /** Every element parsed, or None when one of them fails: a Python comprehension that
      raises on its first bad element. */
  function ParseAll<T, U>(xs: seq<T>, parse: T -> Option<U>): (r: Option<seq<U>>)
    ensures r.Some? <==> forall i | 0 <= i < |xs| :: parse(xs[i]).Some?
    ensures r.Some? ==> |r.value| == |xs| && forall i | 0 <= i < |xs| :: parse(xs[i]) == Some(r.value[i])
  {
    if xs == [] then Some([])
    else
      match parse(xs[0])
      case None => None
      case Some(y) =>
        match ParseAll(xs[1..], parse)
        case None =>
          assert exists i | 0 <= i < |xs| :: parse(xs[i]).None? by {
            var j :| 0 <= j < |xs| - 1 && parse(xs[1..][j]).None?;
            assert xs[1..][j] == xs[j + 1];
          }
          None
        case Some(rest) =>
          assert forall i | 1 <= i < |xs| :: parse(xs[i]) == Some(rest[i - 1]) by {
            forall i | 1 <= i < |xs| ensures parse(xs[i]) == Some(rest[i - 1]) {
              assert xs[1..][i - 1] == xs[i];
            }
          }
          Some([y] + rest)
  }
}
