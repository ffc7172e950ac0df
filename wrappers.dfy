/** Option and Result types. `Error` names the Python exception a scraper step raises,
    so that every error path of the scrapers is a value of the model. */
module Wrappers {

  datatype Option<+T> = None | Some(value: T)

  /** The exception kinds the cleaning code can raise. */
  datatype Error =
    | KeyError          // a dict lookup or pop of a missing key
    | IndexError        // a list index past the end
    | ValueError        // int() of non-numeric text, list.remove of a missing item, explicit raise
    | TypeError         // an operation on a value of the wrong type (None, int, ...)
    | AttributeError    // a str method called on a non-str value
    | UnboundLocalError // a local read before any branch assigned it

  datatype Result<+T> = Ok(value: T) | Err(error: Error) {
    predicate IsFailure() { Err? }

    function PropagateFailure<U>(): Result<U>
      requires Err?
    {
      Err(error)
    }

    function Extract(): T
      requires Ok?
    {
      value
    }
  }

  /** `[g(i) for i in range(n)]`, stopping at the first failure. */
  function Collect<T>(g: nat -> Result<T>, n: nat): (r: Result<seq<T>>)
    ensures r.Ok? <==> forall i: nat :: i < n ==> g(i).Ok?
    ensures r.Ok? ==> |r.value| == n && forall i: nat :: i < n ==> g(i) == Ok(r.value[i])
  {
    if n == 0 then Ok([])
    else
      var m: nat := n - 1;
      match Collect(g, m)
      case Err(e) => Err(e)
      case Ok(init) =>
        match g(m)
        case Err(e) => Err(e)
        case Ok(x) => Ok(init + [x])
  }

  /** The collection stops at the first failure, with its error. */
  lemma {:induction false} CollectFirstError<T>(g: nat -> Result<T>, i: nat, n: nat)
    requires i < n && Collect(g, i).Ok? && g(i).Err?
    ensures Collect(g, n) == Err(g(i).error)
  {
    if n > i + 1 {
      var m: nat := n - 1;
      CollectFirstError(g, i, m);
    }
  }

  /** When every failure of `g` is `e`, the collection fails with `e` or not at all. */
  lemma {:induction false} CollectErrorsAre<T>(g: nat -> Result<T>, n: nat, e: Error)
    requires forall i: nat :: i < n && g(i).Err? ==> g(i).error == e
    ensures Collect(g, n).Err? ==> Collect(g, n).error == e
  {
    if n > 0 {
      var m: nat := n - 1;
      CollectErrorsAre(g, m, e);
    }
  }

  /** `[f(x) for x in xs]`, stopping at the first failure. */
  function MapAll<T, U>(xs: seq<T>, f: T -> Result<U>): (r: Result<seq<U>>)
    ensures r.Ok? <==> forall i :: 0 <= i < |xs| ==> f(xs[i]).Ok?
    ensures r.Ok? ==> |r.value| == |xs| && forall i :: 0 <= i < |xs| ==> f(xs[i]) == Ok(r.value[i])
  {
    if |xs| == 0 then Ok([])
    else
      match MapAll(xs[..|xs| - 1], f)
      case Err(e) => Err(e)
      case Ok(init) =>
        match f(xs[|xs| - 1])
        case Err(e) => Err(e)
        case Ok(y) => Ok(init + [y])
  }

  /** The map stops at the first failure, with its error. */
  lemma {:induction false} MapAllFirstError<T, U>(xs: seq<T>, f: T -> Result<U>, i: nat, k: nat)
    requires i < k <= |xs| && MapAll(xs[..i], f).Ok? && f(xs[i]).Err?
    ensures MapAll(xs[..k], f) == Err(f(xs[i]).error)
  {
    if k == i + 1 {
      assert xs[..k][..i] == xs[..i];
    } else {
      var m: nat := k - 1;
      MapAllFirstError(xs, f, i, m);
      assert xs[..k][..m] == xs[..m];
    }
  }

  /** One more element mapped successfully extends the mapped prefix. */
  lemma MapAllSnoc<T, U>(xs: seq<T>, f: T -> Result<U>, i: nat, acc: seq<U>, y: U)
    requires i < |xs| && MapAll(xs[..i], f) == Ok(acc) && f(xs[i]) == Ok(y)
    ensures MapAll(xs[..i + 1], f) == Ok(acc + [y])
  {
    assert xs[..i + 1][..i] == xs[..i];
  }
}
