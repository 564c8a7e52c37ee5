/** Mapping a partial conversion over a list, the shape of every loop in the
    adapters that builds one output per input and gives up on the first
    input it cannot read. */
module Seqs {
  import opened Wrappers

  /** `f` applied to every element, in order; None as soon as one fails. */
  function MapAll<A, B>(f: A -> Option<B>, xs: seq<A>): (r: Option<seq<B>>)
    ensures r.Some? ==> |r.value| == |xs|
  {
    if |xs| == 0 then Some([])
    else
      var prev := MapAll(f, xs[..|xs| - 1]);
      var x := f(xs[|xs| - 1]);
      if prev.None? || x.None? then None else Some(prev.value + [x.value])
  }

  /** The mapping succeeds exactly when `f` succeeds on every element. */
  lemma {:induction false} MapAllDefined<A, B>(f: A -> Option<B>, xs: seq<A>)
    ensures MapAll(f, xs).Some? <==> forall i :: 0 <= i < |xs| ==> f(xs[i]).Some?
  {
    if |xs| > 0 {
      var init := xs[..|xs| - 1];
      assert forall i :: 0 <= i < |init| ==> init[i] == xs[i];
      MapAllDefined(f, init);
    }
  }

  /** When it succeeds, the i-th output is `f` of the i-th input. */
  lemma {:induction false} MapAllAt<A, B>(f: A -> Option<B>, xs: seq<A>)
    requires MapAll(f, xs).Some?
    ensures forall i :: 0 <= i < |xs| ==> Some(MapAll(f, xs).value[i]) == f(xs[i])
  {
    if |xs| > 0 {
      var init := xs[..|xs| - 1];
      MapAllAt(f, init);
      var r := MapAll(f, xs).value;
      forall i | 0 <= i < |xs|
        ensures Some(r[i]) == f(xs[i])
      {
        if i < |init| {
          assert r[i] == MapAll(f, init).value[i];
          assert init[i] == xs[i];
        }
      }
    }
  }

  /** Once a prefix fails, the whole list does. */
  lemma {:induction false} MapAllFailFrom<A, B>(f: A -> Option<B>, xs: seq<A>, n: nat)
    requires n <= |xs| && MapAll(f, xs[..n]).None?
    ensures MapAll(f, xs).None?
    decreases |xs| - n
  {
    if n < |xs| {
      assert xs[..n + 1][..n] == xs[..n];
      MapAllFailFrom(f, xs, n + 1);
    } else {
      assert xs[..n] == xs;
    }
  }

  /** The outputs of `f` over the list, in order, skipping the elements for
      which `f` gives nothing; the first error ends the scan. */
  function CollectAll<A, B, E>(f: A -> Result<Option<B>, E>, xs: seq<A>): Result<seq<B>, E>
  {
    if |xs| == 0 then Success([])
    else
      var prev := CollectAll(f, xs[..|xs| - 1]);
      var x := f(xs[|xs| - 1]);
      if prev.Failure? then prev
      else if x.Failure? then Failure(x.error)
      else Success(prev.value + (if x.value.Some? then [x.value.value] else []))
  }

  /** Collecting succeeds exactly when `f` succeeds on every element, and
      then yields at most one output per element. */
  lemma {:induction false} CollectAllSucceeds<A, B, E>(f: A -> Result<Option<B>, E>, xs: seq<A>)
    ensures CollectAll(f, xs).Success? <==> forall i :: 0 <= i < |xs| ==> f(xs[i]).Success?
    ensures CollectAll(f, xs).Success? ==> |CollectAll(f, xs).value| <= |xs|
  {
    if |xs| > 0 {
      var init := xs[..|xs| - 1];
      CollectAllSucceeds(f, init);
      assert forall i :: 0 <= i < |init| ==> init[i] == xs[i];
    }
  }

  /** Collecting over a concatenation concatenates the outputs, so they keep
      the order of the inputs. */
  lemma {:induction false} CollectAllAppend<A, B, E>(f: A -> Result<Option<B>, E>, a: seq<A>, b: seq<A>)
    requires CollectAll(f, a).Success? && CollectAll(f, b).Success?
    ensures CollectAll(f, a + b) == Success(CollectAll(f, a).value + CollectAll(f, b).value)
    decreases |b|
  {
    if |b| == 0 {
      assert a + b == a;
      assert CollectAll(f, a).value + [] == CollectAll(f, a).value;
    } else {
      var init, last := b[..|b| - 1], b[|b| - 1];
      assert (a + b)[..|a + b| - 1] == a + init;
      assert (a + b)[|a + b| - 1] == last;
      CollectAllAppend(f, a, init);
      var x := f(last).value;
      var tail := if x.Some? then [x.value] else [];
      assert CollectAll(f, a).value + CollectAll(f, init).value + tail
          == CollectAll(f, a).value + (CollectAll(f, init).value + tail);
    }
  }

  /** A single element contributes its output, or nothing. */
  lemma CollectAllOne<A, B, E>(f: A -> Result<Option<B>, E>, x: A)
    ensures f(x).Failure? ==> CollectAll(f, [x]) == Failure(f(x).error)
    ensures f(x).Success? ==>
      CollectAll(f, [x]) == Success(if f(x).value.Some? then [f(x).value.value] else [])
  {
    assert [x][..0] == [];
    var none: seq<B> := [];
    assert none + [] == none;
    assert f(x).Success? && f(x).value.Some? ==> none + [f(x).value.value] == [f(x).value.value];
  }

  /** Once a prefix fails, the whole list fails with the same error. */
  lemma {:induction false} CollectAllFailFrom<A, B, E>(f: A -> Result<Option<B>, E>, xs: seq<A>, n: nat)
    requires n <= |xs| && CollectAll(f, xs[..n]).Failure?
    ensures CollectAll(f, xs) == CollectAll(f, xs[..n])
    decreases |xs| - n
  {
    if n < |xs| {
      assert xs[..n + 1][..n] == xs[..n];
      CollectAllFailFrom(f, xs, n + 1);
    } else {
      assert xs[..n] == xs;
    }
  }
}
