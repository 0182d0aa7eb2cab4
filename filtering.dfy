/**
 * Order-preserving filtering and mapping, the shapes shared by the list
 * comprehensions and `for x in xs: out.append(...)` loops of the command
 * scripts.
 */
module Filtering {
  import opened Wrappers

  /** `[x for x in xs if f(x)]`. */
  function Keep<T>(xs: seq<T>, f: T -> bool): (r: seq<T>)
    ensures |r| <= |xs|
    decreases |xs|
  {
    if xs == [] then []
    else Keep(xs[..|xs| - 1], f) + (if f(xs[|xs| - 1]) then [xs[|xs| - 1]] else [])
  }

  /** The positions of `xs` whose element passes `f`, ascending. */
  function KeptIndices<T>(xs: seq<T>, f: T -> bool): seq<nat>
    decreases |xs|
  {
    if xs == [] then []
    else KeptIndices(xs[..|xs| - 1], f) + (if f(xs[|xs| - 1]) then [|xs| - 1] else [])
  }

  lemma {:induction false} KeptIndicesAscending<T>(xs: seq<T>, f: T -> bool)
    ensures forall k :: 0 <= k < |KeptIndices(xs, f)| ==> KeptIndices(xs, f)[k] < |xs|
    ensures forall k, l :: 0 <= k < l < |KeptIndices(xs, f)| ==> KeptIndices(xs, f)[k] < KeptIndices(xs, f)[l]
    decreases |xs|
  {
    if xs != [] {
      var init := xs[..|xs| - 1];
      KeptIndicesAscending(init, f);
      var idx0 := KeptIndices(init, f);
      if f(xs[|xs| - 1]) {
        var idx := idx0 + [|xs| - 1];
        assert KeptIndices(xs, f) == idx;
        assert forall k :: 0 <= k < |idx0| ==> idx[k] == idx0[k];
      } else {
        assert KeptIndices(xs, f) == idx0;
      }
    }
  }

  lemma {:induction false} KeptIndicesExact<T>(xs: seq<T>, f: T -> bool)
    ensures forall i :: 0 <= i < |xs| ==> (f(xs[i]) <==> i in KeptIndices(xs, f))
    decreases |xs|
  {
    if xs != [] {
      var init := xs[..|xs| - 1];
      KeptIndicesExact(init, f);
      KeptIndicesAscending(init, f);
      assert forall i :: 0 <= i < |init| ==> init[i] == xs[i];
      assert |xs| - 1 !in KeptIndices(init, f);
    }
  }

  lemma {:induction false} KeepReadsKeptIndices<T>(xs: seq<T>, f: T -> bool)
    ensures var r, idx := Keep(xs, f), KeptIndices(xs, f);
      && |r| == |idx|
      && (forall k :: 0 <= k < |idx| ==> idx[k] < |xs| && r[k] == xs[idx[k]])
    decreases |xs|
  {
    KeptIndicesAscending(xs, f);
    if xs != [] {
      var init := xs[..|xs| - 1];
      KeepReadsKeptIndices(init, f);
      assert forall i :: 0 <= i < |init| ==> init[i] == xs[i];
    }
  }

  /**
   * Filtering keeps exactly the elements that pass, in their original order
   * and without repeating any: the result is `xs` read at the strictly
   * increasing positions whose elements pass `f`.
   */
  lemma KeepSpec<T>(xs: seq<T>, f: T -> bool)
    ensures var r, idx := Keep(xs, f), KeptIndices(xs, f);
      && |r| == |idx|
      && (forall k :: 0 <= k < |idx| ==> idx[k] < |xs| && r[k] == xs[idx[k]])
      && (forall k, l :: 0 <= k < l < |idx| ==> idx[k] < idx[l])
      && (forall i :: 0 <= i < |xs| ==> (f(xs[i]) <==> i in idx))
  {
    KeptIndicesAscending(xs, f);
    KeptIndicesExact(xs, f);
    KeepReadsKeptIndices(xs, f);
  }

  /** Every kept element passes `f` and comes from `xs`. */
  lemma KeepSound<T>(xs: seq<T>, f: T -> bool)
    ensures forall x :: x in Keep(xs, f) <==> x in xs && f(x)
  {
    KeepSpec(xs, f);
    var r, idx := Keep(xs, f), KeptIndices(xs, f);
    forall x | x in xs && f(x)
      ensures x in r
    {
      var i :| 0 <= i < |xs| && xs[i] == x;
      var k :| 0 <= k < |idx| && idx[k] == i;
      assert r[k] == x;
    }
  }

  /** A test that passes everything keeps the whole sequence. */
  lemma {:induction false} KeepAll<T>(xs: seq<T>, f: T -> bool)
    requires forall x :: x in xs ==> f(x)
    ensures Keep(xs, f) == xs
    decreases |xs|
  {
    if xs != [] {
      KeepAll(xs[..|xs| - 1], f);
      assert xs[..|xs| - 1] + [xs[|xs| - 1]] == xs;
    }
  }

  /** A test that passes nothing keeps nothing. */
  lemma {:induction false} KeepNone<T>(xs: seq<T>, f: T -> bool)
    requires forall x :: x in xs ==> !f(x)
    ensures Keep(xs, f) == []
    decreases |xs|
  {
    if xs != [] {
      KeepNone(xs[..|xs| - 1], f);
    }
  }

  /** `[f(x) for x in xs]`: one output per input, in order. */
  function Each<T, U>(xs: seq<T>, f: T -> U): (r: seq<U>)
    ensures |r| == |xs|
    ensures forall k :: 0 <= k < |xs| ==> r[k] == f(xs[k])
    decreases |xs|
  {
    if xs == [] then []
    else Each(xs[..|xs| - 1], f) + [f(xs[|xs| - 1])]
  }

  /**
   * A loop that appends `f(x)` for each `x` and stops at the first `x` for
   * which `f` raises (None): all the outputs, or None when some input raises.
   */
  function Traverse<T, U>(xs: seq<T>, f: T -> Option<U>): (r: Option<seq<U>>)
    ensures r.None? <==> exists k :: 0 <= k < |xs| && f(xs[k]).None?
    ensures r.Some? ==> |r.value| == |xs| && forall k :: 0 <= k < |xs| ==> Some(r.value[k]) == f(xs[k])
    decreases |xs|
  {
    if xs == [] then Some([])
    else
      var init := Traverse(xs[..|xs| - 1], f);
      assert forall k :: 0 <= k < |xs| - 1 ==> xs[..|xs| - 1][k] == xs[k];
      if init.None? then None
      else
        match f(xs[|xs| - 1])
        case None => None
        case Some(y) => Some(init.value + [y])
  }

  /** The loop `out = []` / `for x in xs: out.append(f(x))`. */
  method AppendEach<T, U>(xs: seq<T>, f: T -> U) returns (out: seq<U>)
    ensures out == Each(xs, f)
  {
    out := [];
    for i := 0 to |xs|
      invariant out == Each(xs[..i], f)
    {
      assert xs[..i + 1][..i] == xs[..i];
      out := out + [f(xs[i])];
    }
    assert xs[..|xs|] == xs;
  }

  /** The same loop when building an item can raise: it stops at the first item that does. */
  method AppendEachOrRaise<T, U>(xs: seq<T>, f: T -> Option<U>) returns (out: Option<seq<U>>)
    ensures out == Traverse(xs, f)
  {
    var acc: seq<U> := [];
    for i := 0 to |xs|
      invariant Traverse(xs[..i], f) == Some(acc)
    {
      assert xs[..i + 1][..i] == xs[..i];
      var y := f(xs[i]);
      if y.None? {
        return None;
      }
      acc := acc + [y.value];
    }
    assert xs[..|xs|] == xs;
    out := Some(acc);
  }
}
