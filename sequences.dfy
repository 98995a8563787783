/** The `filter(...).map(...)` pattern the pages use on their lists, stated once. */
module Sequences {

  /** `xs.filter(keep).map(f)`: the images of the kept elements, in order. */
  function FilterMap<A, B>(xs: seq<A>, keep: A -> bool, f: A -> B): (r: seq<B>)
    ensures |r| <= |xs|
  {
    if xs == [] then []
    else FilterMap(xs[..|xs| - 1], keep, f) + (if keep(xs[|xs| - 1]) then [f(xs[|xs| - 1])] else [])
  }

  /** An image is in the result exactly when some kept element maps to it. */
  lemma {:induction false} FilterMapMembers<A, B>(xs: seq<A>, keep: A -> bool, f: A -> B, y: B)
    ensures y in FilterMap(xs, keep, f) <==> exists k :: 0 <= k < |xs| && keep(xs[k]) && y == f(xs[k])
  {
    if xs != [] {
      var init := xs[..|xs| - 1];
      FilterMapMembers(init, keep, f, y);
      if exists k :: 0 <= k < |xs| && keep(xs[k]) && y == f(xs[k]) {
        var k :| 0 <= k < |xs| && keep(xs[k]) && y == f(xs[k]);
        if k < |init| {
          assert init[k] == xs[k];
        }
      }
      if y in FilterMap(init, keep, f) {
        var k :| 0 <= k < |init| && keep(init[k]) && y == f(init[k]);
        assert xs[k] == init[k];
      }
    }
  }

  /** The result is empty exactly when no element is kept. */
  lemma {:induction false} FilterMapEmpty<A, B>(xs: seq<A>, keep: A -> bool, f: A -> B)
    ensures FilterMap(xs, keep, f) == [] <==> forall k :: 0 <= k < |xs| ==> !keep(xs[k])
  {
    if xs != [] {
      var init := xs[..|xs| - 1];
      FilterMapEmpty(init, keep, f);
      assert forall k :: 0 <= k < |init| ==> init[k] == xs[k];
    }
  }

  /** When every element is kept, the result is the whole list mapped, element by element. */
  lemma {:induction false} FilterMapAll<A, B>(xs: seq<A>, keep: A -> bool, f: A -> B)
    requires forall k :: 0 <= k < |xs| ==> keep(xs[k])
    ensures |FilterMap(xs, keep, f)| == |xs|
    ensures forall k :: 0 <= k < |xs| ==> FilterMap(xs, keep, f)[k] == f(xs[k])
  {
    if xs != [] {
      var init := xs[..|xs| - 1];
      FilterMapAll(init, keep, f);
      assert forall k :: 0 <= k < |init| ==> init[k] == xs[k];
    }
  }

  /** The filter-map of a concatenation is the concatenation of the filter-maps. */
  lemma {:induction false} FilterMapAppend<A, B>(xs: seq<A>, ys: seq<A>, keep: A -> bool, f: A -> B)
    ensures FilterMap(xs + ys, keep, f) == FilterMap(xs, keep, f) + FilterMap(ys, keep, f)
  {
    if ys == [] {
      assert xs + ys == xs;
    } else {
      assert (xs + ys)[..|xs + ys| - 1] == xs + ys[..|ys| - 1];
      FilterMapAppend(xs, ys[..|ys| - 1], keep, f);
    }
  }
}
