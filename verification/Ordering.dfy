/** The stable descending sort `sorted(..., reverse=True)` as the source uses it twice. */
module Ordering {

  function Insert<T>(x: T, sorted: seq<T>, key: T -> int): seq<T> {
    if sorted == [] || key(x) >= key(sorted[0]) then [x] + sorted
    else [sorted[0]] + Insert(x, sorted[1..], key)
  }

  /** Largest key first; equal keys stay in their original order. */
  function SortDescending<T>(s: seq<T>, key: T -> int): seq<T> {
    if s == [] then [] else Insert(s[0], SortDescending(s[1..], key), key)
  }

  predicate Descending<T>(s: seq<T>, key: T -> int) {
    forall i, j :: 0 <= i < j < |s| ==> key(s[i]) >= key(s[j])
  }

  lemma {:induction false} InsertPermutes<T>(x: T, s: seq<T>, key: T -> int)
    ensures multiset(Insert(x, s, key)) == multiset{x} + multiset(s)
  {
    if s != [] && key(x) < key(s[0]) {
      InsertPermutes(x, s[1..], key);
      assert s == [s[0]] + s[1..];
    }
  }

  ghost predicate AllAtMost<T>(s: seq<T>, key: T -> int, top: int) {
    forall y :: y in multiset(s) ==> key(y) <= top
  }

  lemma DescendingCons<T>(x: T, s: seq<T>, key: T -> int)
    ensures Descending([x] + s, key) <==> Descending(s, key) && AllAtMost(s, key, key(x))
  {
    var all := [x] + s;
    if Descending(all, key) {
      forall i, j | 0 <= i < j < |s| ensures key(s[i]) >= key(s[j]) {
        assert all[i + 1] == s[i] && all[j + 1] == s[j];
      }
      forall y | y in multiset(s) ensures key(y) <= key(x) {
        assert y in s;
        var j :| 0 <= j < |s| && s[j] == y;
        assert all[j + 1] == y && all[0] == x;
      }
    }
    if Descending(s, key) && AllAtMost(s, key, key(x)) {
      forall i, j | 0 <= i < j < |all| ensures key(all[i]) >= key(all[j]) {
        assert all[j] == s[j - 1] && s[j - 1] in multiset(s);
      }
    }
  }

  lemma {:induction false} InsertDescends<T>(x: T, s: seq<T>, key: T -> int)
    requires Descending(s, key)
    ensures Descending(Insert(x, s, key), key)
  {
    if s != [] {
      assert s == [s[0]] + s[1..];
      DescendingCons(s[0], s[1..], key);
    }
    if s != [] && key(x) < key(s[0]) {
      InsertDescends(x, s[1..], key);
      InsertPermutes(x, s[1..], key);
      DescendingCons(s[0], Insert(x, s[1..], key), key);
    } else {
      DescendingCons(x, s, key);
    }
  }

  lemma {:induction false} SortIsDescendingPermutation<T>(s: seq<T>, key: T -> int)
    ensures Descending(SortDescending(s, key), key)
    ensures multiset(SortDescending(s, key)) == multiset(s)
    ensures |SortDescending(s, key)| == |s|
  {
    if s != [] {
      SortIsDescendingPermutation(s[1..], key);
      InsertDescends(s[0], SortDescending(s[1..], key), key);
      InsertPermutes(s[0], SortDescending(s[1..], key), key);
      assert s == [s[0]] + s[1..];
      assert |multiset(SortDescending(s, key))| == |multiset(s)|;
    }
  }

  function WithKey<T>(s: seq<T>, key: T -> int, k: int): seq<T> {
    if s == [] then [] else (if key(s[0]) == k then [s[0]] else []) + WithKey(s[1..], key, k)
  }

  lemma WithKeyCons<T>(x: T, s: seq<T>, key: T -> int, k: int)
    ensures WithKey([x] + s, key, k) == (if key(x) == k then [x] else []) + WithKey(s, key, k)
  {
    assert ([x] + s)[1..] == s;
  }

  lemma {:induction false} InsertIsStable<T>(x: T, s: seq<T>, key: T -> int, k: int)
    ensures WithKey(Insert(x, s, key), key, k) == (if key(x) == k then [x] else []) + WithKey(s, key, k)
  {
    if s != [] && key(x) < key(s[0]) {
      InsertIsStable(x, s[1..], key, k);
      WithKeyCons(s[0], Insert(x, s[1..], key), key, k);
    } else {
      WithKeyCons(x, s, key, k);
    }
  }

  /** Stability: the elements of one key appear in the result exactly as in the input. */
  lemma {:induction false} SortIsStable<T>(s: seq<T>, key: T -> int, k: int)
    ensures WithKey(SortDescending(s, key), key, k) == WithKey(s, key, k)
  {
    if s != [] {
      SortIsStable(s[1..], key, k);
      InsertIsStable(s[0], SortDescending(s[1..], key), key, k);
    }
  }
}
