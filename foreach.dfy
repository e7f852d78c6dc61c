/**
 * The `foreach` loops of the controllers: a body runs on every element in order and may call
 * the ApiClient, which may throw. The first exception ends the loop and leaves the action.
 */
module Foreach {
  import opened Wrappers

  /** The body's values in order, or the exception of the first element whose body throws. */
  function Run<T, O>(xs: seq<T>, body: T -> Result<O>): (r: Result<seq<O>>)
    ensures r.Ok? ==> |r.value| == |xs| && forall i :: 0 <= i < |xs| ==> body(xs[i]) == Ok(r.value[i])
    ensures r.Err? ==>
              exists i :: 0 <= i < |xs| && body(xs[i]) == Err(r.error) && forall j :: 0 <= j < i ==> body(xs[j]).Ok?
    ensures (forall i :: 0 <= i < |xs| ==> body(xs[i]).Ok?) ==> r.Ok?
    decreases |xs|
  {
    if xs == [] then Ok([])
    else
      var init := xs[..|xs| - 1];
      match Run(init, body)
      case Err(e) =>
        assert forall j :: 0 <= j < |init| ==> xs[j] == init[j];
        Err(e)
      case Ok(os) =>
        assert forall j :: 0 <= j < |init| ==> xs[j] == init[j];
        match body(xs[|xs| - 1])
        case Err(e) => Err(e)
        case Ok(o) => Ok(os + [o])
  }

  /** The calls of every element, in order. */
  function Concat<T, C>(xs: seq<T>, callsOf: T -> seq<C>): seq<C>
    decreases |xs|
  {
    if xs == [] then [] else Concat(xs[..|xs| - 1], callsOf) + callsOf(xs[|xs| - 1])
  }

  /** The calls the loop makes: those of every element up to and including the first that throws. */
  function Calls<T, O, C>(xs: seq<T>, body: T -> Result<O>, callsOf: T -> seq<C>): seq<C>
    decreases |xs|
  {
    if xs == [] then []
    else if Run(xs[..|xs| - 1], body).Err? then Calls(xs[..|xs| - 1], body, callsOf)
    else Calls(xs[..|xs| - 1], body, callsOf) + callsOf(xs[|xs| - 1])
  }

  /** One more iteration: how the outcome and the calls of a prefix grow by one element. */
  lemma RunStep<T, O, C>(xs: seq<T>, i: nat, body: T -> Result<O>, callsOf: T -> seq<C>)
    requires i < |xs|
    ensures Run(xs[..i + 1], body) ==
      match Run(xs[..i], body)
      case Err(e) => Err(e)
      case Ok(os) => (match body(xs[i]) case Err(e) => Err(e) case Ok(o) => Ok(os + [o]))
    ensures Calls(xs[..i + 1], body, callsOf) ==
      if Run(xs[..i], body).Err? then Calls(xs[..i], body, callsOf) else Calls(xs[..i], body, callsOf) + callsOf(xs[i])
  {
    assert xs[..i + 1][..i] == xs[..i];
  }

  /** Once a prefix has thrown, the rest of the elements change neither the outcome nor the calls. */
  lemma {:induction false} RunStopped<T, O, C>(xs: seq<T>, i: nat, body: T -> Result<O>, callsOf: T -> seq<C>)
    requires i <= |xs| && Run(xs[..i], body).Err?
    ensures Run(xs, body) == Run(xs[..i], body)
    ensures Calls(xs, body, callsOf) == Calls(xs[..i], body, callsOf)
    decreases |xs| - i
  {
    if i == |xs| {
      assert xs[..i] == xs;
    } else {
      RunStep(xs, i, body, callsOf);
      RunStopped(xs, i + 1, body, callsOf);
    }
  }

  /** The whole sequence is the prefix of its own length. */
  lemma Whole<T>(xs: seq<T>)
    ensures xs[..|xs|] == xs
  {
  }

  /** When no element throws, the loop makes the calls of every element, in order. */
  lemma {:induction false} CallsWhenOk<T, O, C>(xs: seq<T>, body: T -> Result<O>, callsOf: T -> seq<C>)
    requires Run(xs, body).Ok?
    ensures Calls(xs, body, callsOf) == Concat(xs, callsOf)
    decreases |xs|
  {
    if xs != [] {
      CallsWhenOk(xs[..|xs| - 1], body, callsOf);
    }
  }

  /** Every call the loop makes is a call of one of the elements. */
  lemma {:induction false} CallsFrom<T, O, C>(xs: seq<T>, body: T -> Result<O>, callsOf: T -> seq<C>, c: C)
    requires c in Calls(xs, body, callsOf)
    ensures exists i :: 0 <= i < |xs| && c in callsOf(xs[i])
    decreases |xs|
  {
    var init := xs[..|xs| - 1];
    if c in Calls(init, body, callsOf) {
      CallsFrom(init, body, callsOf, c);
      var i :| 0 <= i < |init| && c in callsOf(init[i]);
      assert init[i] == xs[i];
    } else {
      assert c in callsOf(xs[|xs| - 1]);
    }
  }

  /** With one call per element, the k-th call is the k-th element's. */
  lemma {:induction false} ConcatSingletons<T, C>(xs: seq<T>, callsOf: T -> seq<C>)
    requires forall i :: 0 <= i < |xs| ==> |callsOf(xs[i])| == 1
    ensures |Concat(xs, callsOf)| == |xs|
    ensures forall i :: 0 <= i < |xs| ==> Concat(xs, callsOf)[i] == callsOf(xs[i])[0]
    decreases |xs|
  {
    if xs != [] {
      var init := xs[..|xs| - 1];
      assert forall i :: 0 <= i < |init| ==> init[i] == xs[i];
      ConcatSingletons(init, callsOf);
    }
  }

  /** A foreach whose body makes no calls: each element's value is appended in order until one throws. */
  method Collect<T, O>(xs: seq<T>, body: T -> Result<O>) returns (r: Result<seq<O>>)
    ensures r == Run(xs, body)
  {
    ghost var noCalls: T -> seq<()> := (x: T) => [];
    var values: seq<O> := [];
    var i := 0;
    while i < |xs|
      invariant 0 <= i <= |xs|
      invariant Run(xs[..i], body) == Ok(values)
    {
      RunStep(xs, i, body, noCalls);
      var v := body(xs[i]);
      if v.Err? {
        RunStopped(xs, i + 1, body, noCalls);
        return Err(v.error);
      }
      values := values + [v.value];
      i := i + 1;
    }
    Whole(xs);
    r := Ok(values);
  }
}
