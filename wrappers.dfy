/** Option and Result, the value forms of Python's `None` and of a raised
    `ValueError` in this model. */
module Wrappers {

  datatype Option<+T> = None | Some(value: T)

  datatype Result<+T, +E> = Ok(value: T) | Err(error: E)

  /** Puts `pre` in front of a successful list result; an error passes through
      unchanged. This is `bets.append(...)` followed by the rest of a loop that
      may still raise. */
  function Prepend<T, E>(pre: seq<T>, r: Result<seq<T>, E>): (p: Result<seq<T>, E>)
    ensures p.Ok? <==> r.Ok?
    ensures p.Ok? ==> p.value == pre + r.value
    ensures p.Err? ==> p.error == r.error
  {
    match r
    case Ok(v) => Ok(pre + v)
    case Err(e) => Err(e)
  }

  lemma PrependNothing<T, E>(r: Result<seq<T>, E>)
    ensures Prepend([], r) == r
  {
    if r.Ok? {
      assert [] + r.value == r.value;
    }
  }

  lemma PrependTwice<T, E>(a: seq<T>, b: seq<T>, r: Result<seq<T>, E>)
    ensures Prepend(a, Prepend(b, r)) == Prepend(a + b, r)
  {
    if r.Ok? {
      assert a + (b + r.value) == (a + b) + r.value;
    }
  }

  /** The result of running two list-producing steps one after the other:
      the first error, or the two lists joined. */
  function Concat<T, E>(first: Result<seq<T>, E>, rest: Result<seq<T>, E>): Result<seq<T>, E> {
    match first
    case Err(e) => Err(e)
    case Ok(v) => Prepend(v, rest)
  }
}
