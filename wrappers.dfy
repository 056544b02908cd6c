/** Failure-compatible Option and Result types used throughout the model. */
module Wrappers {

  datatype Option<+T> = None | Some(value: T)

  /** A decode outcome: a value, or the error that aborted the decode. */
  datatype Result<+R, +E> = Success(value: R) | Failure(error: E) {

    predicate IsFailure() {
      Failure?
    }

    function PropagateFailure<U>(): Result<U, E>
      requires Failure?
    {
      Failure(error)
    }

    function Extract(): R
      requires Success?
    {
      value
    }
  }

  /** Every element present, unwrapped in order; or None as soon as one is missing. */
  function AllPresent<T>(xs: seq<Option<T>>): Option<seq<T>> {
    if xs == [] then Some([])
    else
      match (xs[0], AllPresent(xs[1..]))
      case (Some(first), Some(rest)) => Some([first] + rest)
      case _ => None
  }

  /** AllPresent succeeds exactly when every element is present, and then unwraps each in place. */
  lemma {:induction false} AllPresentPointwise<T>(xs: seq<Option<T>>)
    ensures AllPresent(xs).Some? <==> forall i :: 0 <= i < |xs| ==> xs[i].Some?
    ensures AllPresent(xs).Some? ==>
      && |AllPresent(xs).value| == |xs|
      && forall i :: 0 <= i < |xs| ==> AllPresent(xs).value[i] == xs[i].value
  {
    if xs != [] {
      var rest := xs[1..];
      AllPresentPointwise(rest);
      assert forall i :: 1 <= i < |xs| ==> xs[i] == rest[i - 1];
    }
  }

  /** AllPresent of a concatenation is the concatenation of the two results. */
  lemma {:induction false} AllPresentAppend<T>(xs: seq<Option<T>>, ys: seq<Option<T>>)
    ensures AllPresent(xs + ys) ==
      match (AllPresent(xs), AllPresent(ys))
      case (Some(a), Some(b)) => Some(a + b)
      case _ => None
  {
    if xs == [] {
      assert xs + ys == ys;
      if AllPresent(ys).Some? {
        assert [] + AllPresent(ys).value == AllPresent(ys).value;
      }
    } else {
      assert (xs + ys)[0] == xs[0];
      assert (xs + ys)[1..] == xs[1..] + ys;
      AllPresentAppend(xs[1..], ys);
      match (AllPresent(xs[1..]), AllPresent(ys))
      case (Some(a), Some(b)) =>
        if xs[0].Some? {
          assert [xs[0].value] + (a + b) == ([xs[0].value] + a) + b;
        }
      case _ =>
    }
  }

  /** `f` applied to every element, in order. */
  function MapAll<A, B>(xs: seq<A>, f: A -> B): seq<B> {
    seq(|xs|, i requires 0 <= i < |xs| => f(xs[i]))
  }

  /** Mapping a concatenation is concatenating the two mapped halves. */
  lemma MapAllAppend<A, B>(xs: seq<A>, ys: seq<A>, f: A -> B)
    ensures MapAll(xs + ys, f) == MapAll(xs, f) + MapAll(ys, f)
  {
    forall i | 0 <= i < |xs + ys| ensures MapAll(xs + ys, f)[i] == (MapAll(xs, f) + MapAll(ys, f))[i] {
      if i < |xs| {
        assert (xs + ys)[i] == xs[i];
      } else {
        assert (xs + ys)[i] == ys[i - |xs|];
      }
    }
  }
}
