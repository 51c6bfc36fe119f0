/** Failure-compatible result types, and `Array.prototype.find`, shared by every module of the model. */
module Wrappers {

  /** A value that may be absent (JavaScript `undefined` / `null`). */
  datatype Option<+T> = None | Some(value: T) {
    function GetOr(default: T): T {
      match this
      case Some(v) => v
      case None => default
    }
  }

  /** The outcome of an operation that can throw: either a value or the thrown message. */
  datatype Result<+T, +E> = Success(value: T) | Failure(error: E) {
    predicate IsFailure() {
      Failure?
    }

    function PropagateFailure<U>(): Result<U, E>
      requires Failure?
    {
      Failure(error)
    }

    function Extract(): T
      requires Success?
    {
      value
    }
  }

  /** The outcome of an operation that returns nothing but can throw. */
  datatype Outcome<+E> = Pass | Fail(error: E)

  /**
   * `Array.prototype.find`: the first element satisfying `p`, or none exactly when no element
   * does.
   */
  function Find<T>(s: seq<T>, p: T -> bool): (r: Option<T>)
    ensures r.None? <==> forall k | 0 <= k < |s| :: !p(s[k])
    ensures r.Some? ==> r.value in s && p(r.value)
    ensures r.Some? ==> exists i | 0 <= i < |s| :: s[i] == r.value && forall j | 0 <= j < i :: !p(s[j])
  {
    if s == [] then None
    else if p(s[0]) then Some(s[0])
    else
      var r := Find(s[1..], p);
      assert forall k | 1 <= k < |s| :: s[k] == s[1..][k - 1];
      assert r.Some? ==> (exists i | 0 <= i < |s[1..]| :: s[1..][i] == r.value
                            && forall j | 0 <= j < i :: !p(s[1..][j]));
      assert r.Some? ==> (exists i | 1 <= i < |s| :: s[i] == r.value
                            && forall j | 0 <= j < i :: !p(s[j]));
      r
  }
}
