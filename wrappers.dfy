/** Option and Result types, and the Python exceptions the modelled code raises. */
module Wrappers {

  datatype Option<+T> = None | Some(value: T)

  /** The exceptions raised by the gene engine, by kind. */
  datatype Error =
    | KeyError(key: string)             // a dict key or a DataFrame column that is absent
    | IndexError                        // a list indexed past its end
    | TypeError(reason: string)         // subscripting None, hashing a list
    | AttributeError(name: string)      // a DataFrame method called on None
    | ValueError(reason: string)        // an explicit raise, a bad sample size, a column of the wrong length

  /** The error Python raises when a field still holding None is indexed. */
  const NotSubscriptable := TypeError("'NoneType' object is not subscriptable")

  datatype Result<+T> = Ok(value: T) | Err(error: Error)

  /**
   * Applies a step that may raise to each element in order, appending its
   * results, and stops at the first element whose step raises.
   */
  function Collect<A, B>(xs: seq<A>, step: A -> Result<B>): (r: Result<seq<B>>)
    ensures r.Ok? ==> |r.value| == |xs|
  {
    if xs == [] then Ok([])
    else
      match Collect(xs[..|xs| - 1], step)
      case Err(e) => Err(e)
      case Ok(ys) =>
        match step(xs[|xs| - 1])
        case Err(e) => Err(e)
        case Ok(y) => Ok(ys + [y])
  }

  /** Collecting one element more of a prefix extends its results by that element's result. */
  lemma CollectPrefixStep<A, B>(xs: seq<A>, i: nat, step: A -> Result<B>)
    requires i < |xs|
    ensures Collect(xs[..i + 1], step) ==
      match Collect(xs[..i], step)
      case Err(e) => Err(e)
      case Ok(ys) => (match step(xs[i]) case Err(e) => Err(e) case Ok(y) => Ok(ys + [y]))
  {
    assert xs[..i + 1][..i] == xs[..i];
  }

  /** Collecting succeeds exactly when every element's step does. */
  lemma {:induction false} CollectOk<A, B>(xs: seq<A>, step: A -> Result<B>)
    ensures Collect(xs, step).Ok? <==> forall k :: 0 <= k < |xs| ==> step(xs[k]).Ok?
  {
    if xs != [] {
      var n := |xs| - 1;
      CollectOk(xs[..n], step);
      assert forall k :: 0 <= k < n ==> xs[..n][k] == xs[k];
    }
  }

  /** What collecting yields is each element's result, in order. */
  lemma {:induction false} CollectValues<A, B>(xs: seq<A>, step: A -> Result<B>)
    requires Collect(xs, step).Ok?
    ensures forall k :: 0 <= k < |xs| ==> step(xs[k]) == Ok(Collect(xs, step).value[k])
  {
    if xs != [] {
      var n := |xs| - 1;
      CollectValues(xs[..n], step);
      assert forall k :: 0 <= k < n ==> xs[..n][k] == xs[k];
    }
  }

  /** Collecting raises the error of the first element whose step raises. */
  lemma {:induction false} CollectFirstError<A, B>(xs: seq<A>, step: A -> Result<B>, i: nat)
    requires i < |xs| && step(xs[i]).Err? && Collect(xs[..i], step).Ok?
    ensures Collect(xs, step) == Err(step(xs[i]).error)
    decreases |xs|
  {
    var n := |xs| - 1;
    if i < n {
      assert xs[..n][..i] == xs[..i] && xs[..n][i] == xs[i];
      CollectFirstError(xs[..n], step, i);
    }
  }
}
