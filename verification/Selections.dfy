/** Picking the elements of a list that satisfy a condition, in order. */
module Selections {

  function Select<T(!new)>(xs: seq<T>, p: T -> bool): (out: seq<T>)
    ensures forall x :: x in out <==> x in xs && p(x)
  {
    if xs == [] then []
    else
      var n := |xs| - 1;
      assert xs == xs[..n] + [xs[n]];
      Select(xs[..n], p) + if p(xs[n]) then [xs[n]] else []
  }

  lemma {:induction false} SelectOver<T(!new)>(xs: seq<T>, ys: seq<T>, p: T -> bool)
    ensures Select(xs + ys, p) == Select(xs, p) + Select(ys, p)
  {
    if ys == [] {
      assert xs + ys == xs;
    } else {
      var n := |ys| - 1;
      assert (xs + ys)[..|xs + ys| - 1] == xs + ys[..n];
      SelectOver(xs, ys[..n], p);
    }
  }

  /** Element k satisfies the condition, and no other position does. */
  ghost predicate OnlyAt<T(!new)>(xs: seq<T>, p: T -> bool, k: int) {
    0 <= k < |xs| && p(xs[k]) && forall i :: 0 <= i < |xs| && i != k ==> !p(xs[i])
  }

  lemma {:induction false} SelectNone<T(!new)>(xs: seq<T>, p: T -> bool)
    ensures Select(xs, p) == [] <==> forall i :: 0 <= i < |xs| ==> !p(xs[i])
  {
    if xs != [] {
      var n := |xs| - 1;
      SelectNone(xs[..n], p);
      assert forall i :: 0 <= i < n ==> xs[..n][i] == xs[i];
    }
  }

  lemma {:induction false} SelectOnly<T(!new)>(xs: seq<T>, p: T -> bool, k: int)
    requires OnlyAt(xs, p, k)
    ensures Select(xs, p) == [xs[k]]
  {
    var n := |xs| - 1;
    if k == n {
      SelectNone(xs[..n], p);
    } else {
      SelectOnly(xs[..n], p, k);
    }
  }

  /** A single pick comes from a single position. */
  lemma {:induction false} SelectSingle<T(!new)>(xs: seq<T>, p: T -> bool) returns (k: nat)
    requires |Select(xs, p)| == 1
    ensures OnlyAt(xs, p, k) && Select(xs, p) == [xs[k]]
  {
    var n := |xs| - 1;
    assert forall i :: 0 <= i < n ==> xs[..n][i] == xs[i];
    if p(xs[n]) {
      SelectNone(xs[..n], p);
      k := n;
    } else {
      k := SelectSingle(xs[..n], p);
    }
  }

  lemma {:induction false} SelectCounts<T(!new)>(xs: seq<T>, p: T -> bool)
    ensures forall x :: multiset(Select(xs, p))[x] == if p(x) then multiset(xs)[x] else 0
  {
    if xs != [] {
      var n := |xs| - 1;
      SelectCounts(xs[..n], p);
      assert xs == xs[..n] + [xs[n]];
    }
  }
}
