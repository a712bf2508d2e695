/** Order-preserving selection from a sequence, the shape shared by every
    filter loop of the pipeline. */
module Seqs {

  /** Strictly increasing index sequences: an order-preserving choice of positions. */
  ghost predicate Increasing(idx: seq<nat>) {
    forall k, l :: 0 <= k < l < |idx| ==> idx[k] < idx[l]
  }

  /** The positions of `s` whose element satisfies `p`, in increasing order:
      exactly those positions, each once. */
  function Positions<T>(p: T -> bool, s: seq<T>): (r: seq<nat>)
    ensures |r| <= |s|
    ensures Increasing(r)
    ensures forall k :: 0 <= k < |r| ==> r[k] < |s| && p(s[r[k]])
    ensures forall i :: 0 <= i < |s| && p(s[i]) ==> i in r
  {
    if s == [] then []
    else
      var init := Positions(p, s[..|s| - 1]);
      if p(s[|s| - 1]) then init + [|s| - 1] else init
  }

  /** Extending a prefix by one element adds that element's position at the end
      when it satisfies `p`, and nothing otherwise. */
  lemma PositionsExtend<T>(p: T -> bool, s: seq<T>, n: nat)
    requires 0 < n <= |s|
    ensures Positions(p, s[..n]) == Positions(p, s[..n - 1]) + (if p(s[n - 1]) then [n - 1] else [])
  {
    assert s[..n][..n - 1] == s[..n - 1];
  }

  /** The loop "for each element satisfying `p`, append `f` of it": the
      images of the selected elements, in input order. Its k-th output is `f`
      of the k-th selected element. */
  function FilterMap<T, U>(p: T -> bool, f: T -> U, s: seq<T>): (r: seq<U>)
    ensures |r| <= |s|
    ensures |r| == |Positions(p, s)|
    ensures forall k :: 0 <= k < |r| ==> r[k] == f(s[Positions(p, s)[k]])
  {
    if s == [] then []
    else
      var last := s[|s| - 1];
      var init := FilterMap(p, f, s[..|s| - 1]);
      SelectStep(p, f, s, init);
      init + (if p(last) then [f(last)] else [])
  }

  /** One step of the selection loop: if `init` is `f` of the selected
      elements of all but the last element, appending `f` of the last element
      when it is selected gives `f` of the selected elements of all of `s`. */
  lemma SelectStep<T, U>(p: T -> bool, f: T -> U, s: seq<T>, init: seq<U>)
    requires s != []
    requires var Q := Positions(p, s[..|s| - 1]);
      && |init| == |Q|
      && forall k :: 0 <= k < |init| ==> init[k] == f(s[..|s| - 1][Q[k]])
    ensures var r := init + (if p(s[|s| - 1]) then [f(s[|s| - 1])] else []);
      var P := Positions(p, s);
      && |r| == |P|
      && forall k :: 0 <= k < |r| ==> r[k] == f(s[P[k]])
  {
  }

  /** `FilterMap` works element by element: it distributes over concatenation. */
  lemma {:induction false} FilterMapAppend<T, U>(p: T -> bool, f: T -> U, a: seq<T>, b: seq<T>)
    ensures FilterMap(p, f, a + b) == FilterMap(p, f, a) + FilterMap(p, f, b)
  {
    if b == [] {
      assert a + b == a;
    } else {
      var b', x := b[..|b| - 1], b[|b| - 1];
      FilterMapAppend(p, f, a, b');
      assert (a + b)[..|a + b| - 1] == a + b';
      var tail := if p(x) then [f(x)] else [];
      calc {
        FilterMap(p, f, a + b);
        FilterMap(p, f, a + b') + tail;
        FilterMap(p, f, a) + FilterMap(p, f, b') + tail;
        FilterMap(p, f, a) + (FilterMap(p, f, b') + tail);
      }
    }
  }
}
