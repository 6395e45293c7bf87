/** Failure-compatible wrappers shared by the whole model. A .NET `null`
    becomes `None`; a thrown exception becomes `Err` carrying its kind. */
module Outcomes {

  datatype Option<+T> = None | Some(value: T)

  /** The kinds of exception the modelled code can raise or let escape. */
  datatype Fault =
    | NullReference          // a member access on null
    | InvalidCast            // an explicit cast or unboxing of a value of another type
    | ServiceFault           // IOrganizationService.Execute threw
    | ArgumentOutOfRange     // String.Substring past the end of the string
    | ConfigFault            // the AiConfig constructor could not read its JSON
    | InvalidPluginExecution // thrown by ValidateContextSpecific

  datatype Result<+T> = Ok(value: T) | Err(fault: Fault) {
    predicate IsFailure() { Err? }

    function PropagateFailure<U>(): Result<U>
      requires Err?
    {
      Err(fault)
    }

    function Extract(): T
      requires Ok?
    {
      value
    }
  }

  /** The results of `f` over `xs` in order, or the failure of the first
      element `f` fails on: a `foreach` whose body may throw. */
  function MapAll<T, U>(f: T -> Result<U>, xs: seq<T>): Result<seq<U>>
  {
    if xs == [] then Ok([])
    else
      var prev :- MapAll(f, xs[..|xs| - 1]);
      var y :- f(xs[|xs| - 1]);
      Ok(prev + [y])
  }

  /** `f` succeeds on every element of `xs`. */
  predicate AllOk<T, U>(f: T -> Result<U>, xs: seq<T>)
  {
    forall i :: 0 <= i < |xs| ==> f(xs[i]).Ok?
  }

  /** One more element: the walk so far, then that element. */
  lemma MapAllStep<T, U>(f: T -> Result<U>, xs: seq<T>, k: nat)
    requires k < |xs|
    ensures MapAll(f, xs[..k + 1]) ==
      if MapAll(f, xs[..k]).Err? then MapAll(f, xs[..k])
      else if f(xs[k]).Err? then Err(f(xs[k]).fault)
      else Ok(MapAll(f, xs[..k]).value + [f(xs[k]).value])
  {
    assert xs[..k + 1][..k] == xs[..k];
  }

  /** Once a prefix fails, the whole walk fails with the same exception. */
  lemma {:induction false} MapAllFails<T, U>(f: T -> Result<U>, xs: seq<T>, k: nat)
    requires k <= |xs| && MapAll(f, xs[..k]).Err?
    ensures MapAll(f, xs) == MapAll(f, xs[..k])
    decreases |xs| - k
  {
    if k < |xs| {
      MapAllStep(f, xs, k);
      MapAllFails(f, xs, k + 1);
    } else {
      assert xs[..k] == xs;
    }
  }

  /** The walk succeeds exactly when every element does, and then holds one
      result per element, in order. */
  lemma {:induction false} MapAllAt<T, U>(f: T -> Result<U>, xs: seq<T>)
    ensures MapAll(f, xs).Ok? <==> AllOk(f, xs)
    ensures MapAll(f, xs).Ok? ==>
      |MapAll(f, xs).value| == |xs| &&
      forall i :: 0 <= i < |xs| ==> MapAll(f, xs).value[i] == f(xs[i]).value
    decreases |xs|
  {
    if xs != [] {
      var front := xs[..|xs| - 1];
      MapAllAt(f, front);
      assert forall i :: 0 <= i < |front| ==> front[i] == xs[i];
    }
  }
}
