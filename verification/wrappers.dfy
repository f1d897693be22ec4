/** Failure-compatible Option and Result types used for the error paths of the model
    (Python exceptions and `None` returns become values of these types). */
module Wrappers {

  datatype Option<+T> = None | Some(value: T) {
    predicate IsFailure() { None? }

    function PropagateFailure<U>(): Option<U>
      requires None?
    {
      None
    }

    function Extract(): T
      requires Some?
    {
      value
    }

    function GetOr(default: T): T {
      match this
      case Some(v) => v
      case None => default
    }
  }

  datatype Result<+R, +E> = Success(value: R) | Failure(error: E) {
    predicate IsFailure() { Failure? }

    function PropagateFailure<U>(): Result<U, E>
      requires Failure?
    {
      Failure(error)
    }

    function Extract(): R
      requires Success?
    {
      value
    }
  }

  /** The values of `rs` in order when every one succeeds; otherwise the first failure, as a
      loop that stops at its first error would give. */
  function Collect<T, E>(rs: seq<Result<T, E>>): (r: Result<seq<T>, E>)
    ensures r.Success? <==> forall k :: 0 <= k < |rs| ==> rs[k].Success?
    ensures r.Success? ==> |r.value| == |rs| && forall k :: 0 <= k < |rs| ==> rs[k] == Success(r.value[k])
    ensures r.Failure? ==>
      exists k :: 0 <= k < |rs| && rs[k] == Failure(r.error) && forall j :: 0 <= j < k ==> rs[j].Success?
  {
    if |rs| == 0 then Success([])
    else
      var first :- rs[0];
      var rest :- Collect(rs[1..]);
      Success([first] + rest)
  }

  /** When each result fails exactly when `f` holds and `q` holds of its position, and then
      with `e`, the collection fails exactly when `f` holds and `q` holds somewhere, with `e`. */
  lemma CollectFails<T, E>(rs: seq<Result<T, E>>, f: bool, q: nat -> bool, e: E)
    requires forall k :: 0 <= k < |rs| ==> (rs[k].Failure? <==> f && q(k))
    requires forall k :: 0 <= k < |rs| ==> rs[k].Failure? ==> rs[k].error == e
    ensures Collect(rs).Failure? <==> f && exists k :: 0 <= k < |rs| && q(k)
    ensures Collect(rs).Failure? ==> Collect(rs).error == e
  {
    if f && exists k :: 0 <= k < |rs| && q(k) {
      var k :| 0 <= k < |rs| && q(k);
      assert rs[k].Failure?;
    }
  }
}
