/** Failure-carrying values shared by the reconciler and the cache. */
module Wrappers {

  datatype Option<T> = None | Some(value: T)

  /** A Go `(T, error)` pair: a value, or the error's message. */
  datatype Result<T> = Ok(value: T) | Err(error: string)

  /** A Go function whose only result is an `error`: nil, or a message. */
  datatype Outcome = Pass | Fail(error: string)

  /** An evaluation that either returns or panics (a Go runtime error). */
  datatype Eval<T> = Returns(value: T) | Panics(reason: string)
}

/** Linear search with first-match-wins, as the source's `for ... range` loops do. */
module Search {
  import opened Wrappers

  /** The index of the first element of `s` satisfying `p`, if any. */
  function First<T>(s: seq<T>, p: T -> bool): (r: Option<nat>)
    ensures r.Some? ==> r.value < |s| && p(s[r.value])
    ensures r.Some? ==> forall j :: 0 <= j < r.value ==> !p(s[j])
    ensures r.None? <==> forall j :: 0 <= j < |s| ==> !p(s[j])
  {
    if s == [] then None
    else if p(s[0]) then Some(0)
    else match First(s[1..], p)
      case None => None
      case Some(k) =>
        assert forall j :: 1 <= j < k + 1 ==> s[j] == s[1..][j - 1];
        Some(k + 1)
  }
}
