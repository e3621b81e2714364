/** Shared helper types and sequence functions used by every module of the model. */
module Wrappers {

  /** A value that may be absent: JavaScript's `undefined` / "not found". */
  datatype Option<+T> = None | Some(value: T)

  /** `xs.filter(p)`: the elements of `xs` satisfying `p`, in their original order. */
  function Filter<T(!new)>(xs: seq<T>, p: T -> bool): (r: seq<T>)
    ensures |r| <= |xs|
    ensures forall x :: x in r <==> x in xs && p(x)
    ensures multiset(r) <= multiset(xs)
    ensures forall x :: multiset(r)[x] == if p(x) then multiset(xs)[x] else 0
  {
    if xs == [] then []
    else
      assert xs == [xs[0]] + xs[1..];
      assert multiset(xs) == multiset{xs[0]} + multiset(xs[1..]);
      if p(xs[0]) then [xs[0]] + Filter(xs[1..], p) else Filter(xs[1..], p)
  }

  /** Filtering distributes over concatenation. */
  lemma {:induction false} FilterAppend<T(!new)>(xs: seq<T>, ys: seq<T>, p: T -> bool)
    ensures Filter(xs + ys, p) == Filter(xs, p) + Filter(ys, p)
  {
    if xs == [] {
      assert xs + ys == ys;
    } else {
      assert (xs + ys)[1..] == xs[1..] + ys;
      FilterAppend(xs[1..], ys, p);
    }
  }

  /** `[...xs].reverse()`: a reversed copy. */
  function Reverse<T>(xs: seq<T>): (r: seq<T>)
    ensures |r| == |xs|
    ensures forall k :: 0 <= k < |xs| ==> r[k] == xs[|xs| - 1 - k]
  {
    if xs == [] then [] else Reverse(xs[1..]) + [xs[0]]
  }

  /** Reversing `xs + [x]` puts `x` first. */
  lemma {:induction false} ReverseAppend<T>(xs: seq<T>, x: T)
    ensures Reverse(xs + [x]) == [x] + Reverse(xs)
  {
    if xs != [] {
      assert (xs + [x])[1..] == xs[1..] + [x];
      ReverseAppend(xs[1..], x);
    }
  }

  /** `xs.slice(0, k)`: the first `k` elements, or all of them when there are fewer. */
  function Take<T>(xs: seq<T>, k: nat): (r: seq<T>)
    ensures |r| == if |xs| < k then |xs| else k
    ensures r == xs[..|r|]
  {
    if |xs| <= k then xs else xs[..k]
  }
}
