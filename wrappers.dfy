/** Option and Result, the failure-compatible datatypes the rest of the model uses
    for JavaScript's `undefined`-or-value and for thrown exceptions. */
module Wrappers {

  datatype Option<+T> = None | Some(value: T) {
    predicate IsFailure() { None? }

    function PropagateFailure<U>(): Option<U>
      requires None?
    {
      None
    }

    function Extract(): T
      requires Some?
    {
      value
    }
  }

  datatype Result<+T, +E> = Ok(value: T) | Failure(error: E) {
    predicate IsFailure() { Failure? }

    function PropagateFailure<U>(): Result<U, E>
      requires Failure?
    {
      Failure(error)
    }

    function Extract(): T
      requires Ok?
    {
      value
    }
  }

  /** Running steps that may throw one after another: the first exception
      stops the run, otherwise every value is kept, in order. */
  function Collect<T, E>(rs: seq<Result<T, E>>): (r: Result<seq<T>, E>)
    ensures r.Ok? ==> |r.value| == |rs|
  {
    if rs == [] then Ok([])
    else
      var init := Collect(rs[..|rs| - 1]);
      var last := rs[|rs| - 1];
      if init.Failure? then Failure(init.error)
      else if last.Failure? then Failure(last.error)
      else Ok(init.value + [last.value])
  }

  /** One more step of the run. */
  lemma CollectSnoc<T, E>(rs: seq<Result<T, E>>, i: nat)
    requires i < |rs|
    ensures var init := Collect(rs[..i]);
      Collect(rs[..i + 1]) ==
        if init.Failure? then Failure(init.error)
        else if rs[i].Failure? then Failure(rs[i].error)
        else Ok(init.value + [rs[i].value])
  {
    assert rs[..i + 1][..i] == rs[..i];
  }

  /** One more step of a run whose values are kept in place in `vals`. */
  lemma CollectUpdate<T, E>(rs: seq<Result<T, E>>, i: nat, vals: seq<T>)
    requires i < |rs| && i < |vals| && Collect(rs[..i]) == Ok(vals[..i])
    ensures rs[i].Failure? ==> Collect(rs[..i + 1]) == Failure(rs[i].error)
    ensures rs[i].Ok? ==> Collect(rs[..i + 1]) == Ok(vals[i := rs[i].value][..i + 1])
  {
    CollectSnoc(rs, i);
    if rs[i].Ok? {
      assert vals[i := rs[i].value][..i + 1] == vals[..i] + [rs[i].value];
    }
  }

  /** Once a step has thrown, the whole run throws the same exception. */
  lemma {:induction false} CollectStop<T, E>(rs: seq<Result<T, E>>, i: nat, n: nat)
    requires i <= n <= |rs| && Collect(rs[..i]).Failure?
    ensures Collect(rs[..n]) == Collect(rs[..i])
    decreases n
  {
    if i < n {
      CollectStop(rs, i, n - 1);
      CollectSnoc(rs, n - 1);
    }
  }

  /** A run that does not throw holds each step's value at that step's position. */
  lemma {:induction false} CollectAt<T, E>(rs: seq<Result<T, E>>, i: nat)
    requires Collect(rs).Ok? && i < |rs|
    ensures rs[i] == Ok(Collect(rs).value[i])
    decreases |rs|
  {
    var init := rs[..|rs| - 1];
    if i < |rs| - 1 {
      CollectAt(init, i);
      assert rs[i] == init[i];
      assert (Collect(init).value + [rs[|rs| - 1].value])[i] == Collect(init).value[i];
    }
  }

  /** A run does not throw exactly when no step throws. */
  lemma {:induction false} CollectOk<T, E>(rs: seq<Result<T, E>>)
    ensures Collect(rs).Ok? <==> forall i :: 0 <= i < |rs| ==> rs[i].Ok?
    decreases |rs|
  {
    if rs != [] {
      var init := rs[..|rs| - 1];
      CollectOk(init);
      assert forall i :: 0 <= i < |init| ==> init[i] == rs[i];
    }
  }

  /** A run in which every step returns its value. */
  lemma {:induction false} CollectValues<T, E>(rs: seq<Result<T, E>>, xs: seq<T>)
    requires |rs| == |xs| && forall i :: 0 <= i < |rs| ==> rs[i] == Ok(xs[i])
    ensures Collect(rs) == Ok(xs)
    decreases |rs|
  {
    if rs != [] {
      var n := |rs| - 1;
      CollectValues(rs[..n], xs[..n]);
      assert xs[..n] + [xs[n]] == xs;
    }
  }
}
