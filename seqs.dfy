/**
 * `Array.prototype.map` and `Array.prototype.filter`, which the list of
 * projects, the detail page's sections, its video players and its keyword
 * buckets are built from, with the facts about them that those uses need.
 */
module Seqs {

  /** `xs.map(f)`: `f` applied to each element, in order. */
  function Map<A, B>(xs: seq<A>, f: A -> B): (r: seq<B>)
    ensures |r| == |xs|
    ensures forall i :: 0 <= i < |xs| ==> r[i] == f(xs[i])
  {
    if xs == [] then [] else [f(xs[0])] + Map(xs[1..], f)
  }

  /** `xs.filter(f)`: the elements satisfying `f`, in their original order. */
  function Filter<T(!new)>(xs: seq<T>, f: T -> bool): (r: seq<T>)
    ensures |r| <= |xs|
    ensures forall x :: x in r <==> x in xs && f(x)
  {
    if xs == [] then []
    else
      assert forall x :: x in xs <==> x == xs[0] || x in xs[1..];
      (if f(xs[0]) then [xs[0]] else []) + Filter(xs[1..], f)
  }

  /** Filtering distributes over concatenation: it never reorders elements. */
  lemma {:induction false} FilterAppend<T(!new)>(a: seq<T>, b: seq<T>, f: T -> bool)
    ensures Filter(a + b, f) == Filter(a, f) + Filter(b, f)
  {
    if a == [] {
      assert a + b == b;
    } else {
      var head := if f(a[0]) then [a[0]] else [];
      calc {
        Filter(a + b, f);
        { assert (a + b)[0] == a[0] && (a + b)[1..] == a[1..] + b; }
        head + Filter(a[1..] + b, f);
        { FilterAppend(a[1..], b, f); }
        head + (Filter(a[1..], f) + Filter(b, f));
        (head + Filter(a[1..], f)) + Filter(b, f);
        Filter(a, f) + Filter(b, f);
      }
    }
  }

  /** When every element passes, nothing is removed. */
  lemma {:induction false} FilterAll<T(!new)>(xs: seq<T>, f: T -> bool)
    requires forall x :: x in xs ==> f(x)
    ensures Filter(xs, f) == xs
  {
    if xs != [] {
      assert forall x :: x in xs[1..] ==> x in xs;
      FilterAll(xs[1..], f);
    }
  }
}
