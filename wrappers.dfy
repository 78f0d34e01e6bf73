/** Option and Result values shared by every module of the model. */
module Wrappers {
  datatype Option<T> = None | Some(value: T)

  /** The outcome of a step that can raise in the source (a KeyError, a TypeError). */
  datatype Result<T> = Ok(value: T) | Failure(error: string)

  /** A loop that applies `f` to each element in turn and stops at the first failure. */
  function MapAll<T, U>(f: T -> Result<U>, xs: seq<T>): Result<seq<U>>
    decreases |xs|
  {
    if xs == [] then Ok([])
    else
      match MapAll(f, xs[..|xs| - 1])
      case Failure(e) => Failure(e)
      case Ok(done) =>
        match f(xs[|xs| - 1])
        case Failure(e) => Failure(e)
        case Ok(y) => Ok(done + [y])
  }

  /** The loop succeeds exactly when every step does, and then keeps count and order. */
  lemma {:induction false} MapAllSpec<T, U>(f: T -> Result<U>, xs: seq<T>)
    ensures MapAll(f, xs).Ok? <==> forall k :: 0 <= k < |xs| ==> f(xs[k]).Ok?
    ensures MapAll(f, xs).Ok? ==> |MapAll(f, xs).value| == |xs|
    ensures MapAll(f, xs).Ok? ==> forall k :: 0 <= k < |xs| ==> MapAll(f, xs).value[k] == f(xs[k]).value
    decreases |xs|
  {
    if xs != [] {
      var init := xs[..|xs| - 1];
      MapAllSpec(f, init);
      assert forall k :: 0 <= k < |init| ==> init[k] == xs[k];
    }
  }

  /** Once the loop has failed on a prefix, the rest of the elements do not change the failure. */
  lemma {:induction false} MapAllFailureStays<T, U>(f: T -> Result<U>, xs: seq<T>, n: nat)
    requires n <= |xs| && MapAll(f, xs[..n]).Failure?
    ensures MapAll(f, xs) == MapAll(f, xs[..n])
    decreases |xs| - n
  {
    if n < |xs| {
      var init := xs[..|xs| - 1];
      assert init[..n] == xs[..n];
      MapAllFailureStays(f, init, n);
    } else {
      assert xs[..n] == xs;
    }
  }

  /** A loop that threads a state through `xs`, one step per element, and stops at the first failure. */
  function FoldAll<S, T>(f: (S, T) -> Result<S>, init: S, xs: seq<T>): Result<S>
    decreases |xs|
  {
    if xs == [] then Ok(init)
    else
      match FoldAll(f, init, xs[..|xs| - 1])
      case Failure(e) => Failure(e)
      case Ok(s) => f(s, xs[|xs| - 1])
  }

  /** Once the threaded loop has failed on a prefix, the rest of the elements do not change the failure. */
  lemma {:induction false} FoldAllFailureStays<S, T>(f: (S, T) -> Result<S>, init: S, xs: seq<T>, n: nat)
    requires n <= |xs| && FoldAll(f, init, xs[..n]).Failure?
    ensures FoldAll(f, init, xs) == FoldAll(f, init, xs[..n])
    decreases |xs| - n
  {
    if n < |xs| {
      var front := xs[..|xs| - 1];
      assert front[..n] == xs[..n];
      FoldAllFailureStays(f, init, front, n);
    } else {
      assert xs[..n] == xs;
    }
  }
}
