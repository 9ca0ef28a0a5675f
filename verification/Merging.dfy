/** Merging parts in any order, for an operation whose later arguments may be swapped. */
module Merging {

  ghost predicate Swaps<T(!new)>(op: (T, T) -> T) {
    forall a, b, c :: op(op(a, b), c) == op(op(a, c), b)
  }

  ghost predicate Indices(order: seq<nat>, n: nat) {
    forall j :: 0 <= j < |order| ==> order[j] < n
  }

  /** The chosen parts merged in the given order. */
  ghost function Merged<T>(op: (T, T) -> T, unit: T, parts: seq<T>, order: seq<nat>): T
    requires Indices(order, |parts|)
  {
    if order == [] then unit
    else
      assert Indices(order[..|order| - 1], |parts|);
      op(Merged(op, unit, parts, order[..|order| - 1]), parts[order[|order| - 1]])
  }

  function Without(order: seq<nat>, p: nat): seq<nat>
    requires p < |order|
  {
    order[..p] + order[p + 1..]
  }

  lemma {:induction false} WithoutOne(order: seq<nat>, p: nat)
    requires p < |order|
    ensures multiset(Without(order, p)) == multiset(order) - multiset{order[p]}
  {
    assert order == order[..p] + [order[p]] + order[p + 1..];
  }

  /** A part merged in the middle might as well have come last. */
  lemma {:induction false} MergeLast<T(!new)>(op: (T, T) -> T, unit: T, parts: seq<T>, order: seq<nat>, p: nat)
    requires Swaps(op) && p < |order| && Indices(order, |parts|)
    ensures Indices(Without(order, p), |parts|)
    ensures Merged(op, unit, parts, order) == op(Merged(op, unit, parts, Without(order, p)), parts[order[p]])
  {
    var n := |order| - 1;
    var rest := Without(order, p);
    if p < n {
      var init := order[..n];
      MergeLast(op, unit, parts, init, p);
      assert rest[..n - 1] == Without(init, p) && rest[n - 1] == order[n];
    } else {
      assert rest == order[..n];
    }
  }

  lemma {:induction false} IndicesOfPermutation(a: seq<nat>, b: seq<nat>, n: nat)
    requires multiset(a) == multiset(b) && Indices(a, n)
    ensures |a| == |b| && Indices(b, n)
  {
    assert |a| == |multiset(a)| == |multiset(b)| == |b|;
    forall j | 0 <= j < |b|
      ensures b[j] < n
    {
      assert b[j] in multiset(a);
    }
  }

  /** The order does not matter. */
  lemma {:induction false} MergeOrderIrrelevant<T(!new)>(op: (T, T) -> T, unit: T, parts: seq<T>, a: seq<nat>,
                                                         b: seq<nat>)
    requires Swaps(op) && multiset(a) == multiset(b) && Indices(a, |parts|)
    ensures Indices(b, |parts|)
    ensures Merged(op, unit, parts, a) == Merged(op, unit, parts, b)
    decreases |a|
  {
    IndicesOfPermutation(a, b, |parts|);
    if a != [] {
      var n := |a| - 1;
      WithoutOne(a, n);
      assert Without(a, n) == a[..n];
      assert a[n] in multiset(b);
      var p :| 0 <= p < |b| && b[p] == a[n];
      WithoutOne(b, p);
      MergeLast(op, unit, parts, b, p);
      MergeOrderIrrelevant(op, unit, parts, a[..n], Without(b, p));
    }
  }

  function Upto(n: nat): (order: seq<nat>)
    ensures |order| == n && forall k {:trigger order[k]} :: 0 <= k < n ==> order[k] == k
  {
    seq(n, k => k)
  }
}
