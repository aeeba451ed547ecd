/**
 * Ordered selection. Every list the decision rules build (risk factors,
 * urgent notices, preventive recommendations) is made by walking a fixed,
 * declared sequence of conditions and keeping the ones that fire, in
 * declaration order. `Filter` is that walk, and the lemmas here are the
 * facts about it that the rest of the model relies on.
 */
module Filtering {

  /** The elements of `xs` satisfying `p`, in their order in `xs`. */
  function Filter<T(==,!new)>(xs: seq<T>, p: T -> bool): (r: seq<T>)
    ensures |r| <= |xs|
  {
    if xs == [] then []
    else (if p(xs[0]) then [xs[0]] else []) + Filter(xs[1..], p)
  }

  /** Exactly the elements that pass are kept. */
  lemma {:induction false} FilterMembers<T(!new)>(xs: seq<T>, p: T -> bool, x: T)
    ensures x in Filter(xs, p) <==> x in xs && p(x)
  {
    if xs != [] {
      FilterMembers(xs[1..], p, x);
      assert xs == [xs[0]] + xs[1..];
    }
  }

  /** `xs` lists its elements in strictly increasing `rank`. */
  ghost predicate Increasing<T>(xs: seq<T>, rank: T -> int) {
    forall i, j :: 0 <= i < j < |xs| ==> rank(xs[i]) < rank(xs[j])
  }

  /** No element occurs twice. */
  ghost predicate Distinct<T(!new)>(xs: seq<T>) {
    forall i, j :: 0 <= i < j < |xs| ==> xs[i] != xs[j]
  }

  /** Selection never reorders: what is kept keeps the order it had. */
  lemma {:induction false} FilterIncreasing<T(!new)>(xs: seq<T>, p: T -> bool, rank: T -> int)
    requires Increasing(xs, rank)
    ensures Increasing(Filter(xs, p), rank)
  {
    if xs != [] {
      var tail := Filter(xs[1..], p);
      FilterIncreasing(xs[1..], p, rank);
      if p(xs[0]) {
        var r := [xs[0]] + tail;
        forall i, j | 0 <= i < j < |r| ensures rank(r[i]) < rank(r[j]) {
          if i == 0 {
            assert r[j] == tail[j - 1];
            FilterMembers(xs[1..], p, r[j]);
            HeadRanksBelowRest(xs, rank, r[j]);
          } else {
            assert r[i] == tail[i - 1] && r[j] == tail[j - 1];
          }
        }
      }
    }
  }

  lemma HeadRanksBelowRest<T(!new)>(xs: seq<T>, rank: T -> int, y: T)
    requires Increasing(xs, rank)
    requires xs != [] && y in xs[1..]
    ensures rank(xs[0]) < rank(y)
  {
    var m :| 0 <= m < |xs[1..]| && xs[1..][m] == y;
    assert xs[m + 1] == y;
  }

  /** A sequence ranked strictly increasingly has no duplicates. */
  lemma IncreasingIsDistinct<T(!new)>(xs: seq<T>, rank: T -> int)
    requires Increasing(xs, rank)
    ensures Distinct(xs)
  {
    forall i, j | 0 <= i < j < |xs| ensures xs[i] != xs[j] {
      assert rank(xs[i]) < rank(xs[j]);
    }
  }

  /** Nothing is dropped exactly when every element passes. */
  lemma {:induction false} FilterKeepsAll<T(!new)>(xs: seq<T>, p: T -> bool)
    ensures Filter(xs, p) == xs <==> forall x :: x in xs ==> p(x)
  {
    if forall x :: x in xs ==> p(x) {
      AllPassKeepsAll(xs, p);
    } else {
      var x :| x in xs && !p(x);
      FilterMembers(xs, p, x);
    }
  }

  lemma {:induction false} AllPassKeepsAll<T(!new)>(xs: seq<T>, p: T -> bool)
    requires forall x :: x in xs ==> p(x)
    ensures Filter(xs, p) == xs
  {
    if xs != [] {
      assert forall x :: x in xs[1..] ==> x in xs;
      AllPassKeepsAll(xs[1..], p);
      assert Filter(xs, p) == [xs[0]] + xs[1..];
    }
  }

  /** One step of the walk, taken from the front. */
  lemma FilterCons<T(!new)>(x: T, xs: seq<T>, p: T -> bool)
    ensures Filter([x] + xs, p) == (if p(x) then [x] else []) + Filter(xs, p)
  {
    assert ([x] + xs)[1..] == xs;
  }

  /** One step of the walk, taken at the back. */
  lemma {:induction false} FilterSnoc<T(!new)>(xs: seq<T>, x: T, p: T -> bool)
    ensures Filter(xs + [x], p) == Filter(xs, p) + (if p(x) then [x] else [])
  {
    var last: seq<T> := if p(x) then [x] else [];
    if xs == [] {
      assert xs + [x] == [x] + [];
      FilterCons(x, [], p);
      assert Filter(xs, p) == [];
      assert last + [] == last;
    } else {
      var head: seq<T> := if p(xs[0]) then [xs[0]] else [];
      assert xs + [x] == [xs[0]] + (xs[1..] + [x]);
      FilterCons(xs[0], xs[1..] + [x], p);
      FilterSnoc(xs[1..], x, p);
      assert xs == [xs[0]] + xs[1..];
      FilterCons(xs[0], xs[1..], p);
      calc {
        Filter(xs + [x], p);
        head + Filter(xs[1..] + [x], p);
        head + (Filter(xs[1..], p) + last);
        (head + Filter(xs[1..], p)) + last;
        Filter(xs, p) + last;
      }
    }
  }

  /**
   * The walk stopped after the first `k` elements, built from the back: the
   * state of a list that is appended to one condition at a time.
   */
  ghost function FilterUpto<T>(xs: seq<T>, p: T -> bool, k: nat): seq<T>
    requires k <= |xs|
  {
    if k == 0 then []
    else FilterUpto(xs, p, k - 1) + (if p(xs[k - 1]) then [xs[k - 1]] else [])
  }

  lemma {:induction false} FilterUptoIsFilter<T(!new)>(xs: seq<T>, p: T -> bool, k: nat)
    requires k <= |xs|
    ensures FilterUpto(xs, p, k) == Filter(xs[..k], p)
  {
    if k > 0 {
      FilterUptoIsFilter(xs, p, k - 1);
      assert xs[..k] == xs[..k - 1] + [xs[k - 1]];
      FilterSnoc(xs[..k - 1], xs[k - 1], p);
    } else {
      assert xs[..0] == [];
    }
  }

  /** Once every element has been considered, the list built up is `Filter`'s. */
  lemma FilterUptoAll<T(!new)>(xs: seq<T>, p: T -> bool)
    ensures FilterUpto(xs, p, |xs|) == Filter(xs, p)
  {
    FilterUptoIsFilter(xs, p, |xs|);
    assert xs[..|xs|] == xs;
  }
}
