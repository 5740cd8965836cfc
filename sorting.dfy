/** Array.prototype.sort with a comparator of the form (a, b) => key(a) - key(b).
    JavaScript's sort is stable, so the model is a stable insertion sort that
    orders by a non-decreasing integer key. */
module Sorting {
  import opened Seqs

  ghost predicate SortedBy<T>(s: seq<T>, key: T -> int) {
    forall i, j :: 0 <= i < j < |s| ==> key(s[i]) <= key(s[j])
  }

  /** Inserts x before the first element whose key is not smaller. */
  function Insert<T>(x: T, s: seq<T>, key: T -> int): (r: seq<T>)
    ensures |r| == |s| + 1
    ensures multiset(r) == multiset(s) + multiset{x}
  {
    if s == [] || key(x) <= key(s[0]) then
      [x] + s
    else
      assert s == [s[0]] + s[1..];
      [s[0]] + Insert(x, s[1..], key)
  }

  /** Prepending an element no larger than any other keeps a sequence sorted. */
  lemma ConsSorted<T>(h: T, r: seq<T>, key: T -> int)
    requires SortedBy(r, key)
    requires forall i :: 0 <= i < |r| ==> key(h) <= key(r[i])
    ensures SortedBy([h] + r, key)
  {
    var c := [h] + r;
    forall i, j | 0 <= i < j < |c| ensures key(c[i]) <= key(c[j]) {
      assert c[j] == r[j - 1];
      if i > 0 {
        assert c[i] == r[i - 1];
      }
    }
  }

  /** Every element of an insertion result is x or an element of s. */
  lemma InsertBound<T>(x: T, s: seq<T>, key: T -> int, b: int)
    requires b <= key(x)
    requires forall i :: 0 <= i < |s| ==> b <= key(s[i])
    ensures forall i :: 0 <= i < |Insert(x, s, key)| ==> b <= key(Insert(x, s, key)[i])
  {
    var r := Insert(x, s, key);
    forall i | 0 <= i < |r| ensures b <= key(r[i]) {
      assert r[i] in multiset(r);
      assert r[i] == x || r[i] in multiset(s);
      if r[i] != x {
        assert r[i] in s;
      }
    }
  }

  lemma {:induction false} InsertSorted<T>(x: T, s: seq<T>, key: T -> int)
    requires SortedBy(s, key)
    ensures SortedBy(Insert(x, s, key), key)
  {
    if s == [] || key(x) <= key(s[0]) {
      ConsSorted(x, s, key);
    } else {
      var tail := s[1..];
      assert forall i :: 0 <= i < |tail| ==> tail[i] == s[i + 1];
      InsertSorted(x, tail, key);
      InsertBound(x, tail, key, key(s[0]));
      ConsSorted(s[0], Insert(x, tail, key), key);
    }
  }

  function SortBy<T>(s: seq<T>, key: T -> int): (r: seq<T>)
    ensures |r| == |s|
    ensures multiset(r) == multiset(s)
    ensures SortedBy(r, key)
  {
    if s == [] then []
    else
      assert s == [s[0]] + s[1..];
      InsertSorted(s[0], SortBy(s[1..], key), key);
      Insert(s[0], SortBy(s[1..], key), key)
  }

  /** Sorting keeps exactly the elements it was given. */
  lemma SortKeepsMembers<T>(s: seq<T>, key: T -> int)
    ensures forall y :: y in SortBy(s, key) <==> y in s
  {
    forall y ensures y in SortBy(s, key) <==> y in s {
      assert y in SortBy(s, key) <==> y in multiset(SortBy(s, key));
      assert y in s <==> y in multiset(s);
    }
  }

  /** The elements whose key is k, in order. */
  function WithKey<T>(s: seq<T>, key: T -> int, k: int): seq<T> {
    if s == [] then []
    else (if key(s[0]) == k then [s[0]] else []) + WithKey(s[1..], key, k)
  }

  lemma {:induction false} InsertWithKey<T>(x: T, s: seq<T>, key: T -> int, k: int)
    requires SortedBy(s, key)
    ensures WithKey(Insert(x, s, key), key, k)
         == (if key(x) == k then [x] else []) + WithKey(s, key, k)
  {
    if s == [] || key(x) <= key(s[0]) {
      assert ([x] + s)[1..] == s;
    } else {
      var rest := Insert(x, s[1..], key);
      assert ([s[0]] + rest)[1..] == rest;
      InsertWithKey(x, s[1..], key, k);
    }
  }

  /** Stability: among elements with equal keys the original order is kept. */
  lemma {:induction false} SortStable<T>(s: seq<T>, key: T -> int, k: int)
    ensures WithKey(SortBy(s, key), key, k) == WithKey(s, key, k)
  {
    if s != [] {
      SortStable(s[1..], key, k);
      InsertWithKey(s[0], SortBy(s[1..], key), key, k);
    }
  }

  lemma {:induction false} InsertSumBy<T>(x: T, s: seq<T>, key: T -> int, f: T -> int)
    ensures SumBy(Insert(x, s, key), f) == f(x) + SumBy(s, f)
  {
    if s == [] || key(x) <= key(s[0]) {
      assert ([x] + s)[1..] == s;
    } else {
      var rest := Insert(x, s[1..], key);
      assert ([s[0]] + rest)[1..] == rest;
      InsertSumBy(x, s[1..], key, f);
    }
  }

  /** Sorting does not change any sum over the elements. */
  lemma {:induction false} SortSumBy<T>(s: seq<T>, key: T -> int, f: T -> int)
    ensures SumBy(SortBy(s, key), f) == SumBy(s, f)
  {
    if s != [] {
      SortSumBy(s[1..], key, f);
      InsertSumBy(s[0], SortBy(s[1..], key), key, f);
    }
  }

  lemma {:induction false} InsertMap<T, U>(x: T, s: seq<T>, f: T -> U, k1: T -> int, k2: U -> int)
    requires forall y :: k2(f(y)) == k1(y)
    ensures Insert(f(x), Map(s, f), k2) == Map(Insert(x, s, k1), f)
  {
    if s != [] {
      assert Map(s, f)[0] == f(s[0]) && Map(s, f)[1..] == Map(s[1..], f);
      if k1(x) > k1(s[0]) {
        InsertMap(x, s[1..], f, k1, k2);
        assert Map(Insert(x, s, k1), f) == [f(s[0])] + Map(Insert(x, s[1..], k1), f);
      } else {
        assert Map(Insert(x, s, k1), f) == [f(x)] + Map(s, f);
      }
    }
  }

  /** Sorting mapped elements by a key that agrees with a key on the originals
      gives the mapped sorted originals. */
  lemma {:induction false} SortByMap<T, U>(s: seq<T>, f: T -> U, k1: T -> int, k2: U -> int)
    requires forall y :: k2(f(y)) == k1(y)
    ensures SortBy(Map(s, f), k2) == Map(SortBy(s, k1), f)
  {
    if s != [] {
      assert Map(s, f)[0] == f(s[0]) && Map(s, f)[1..] == Map(s[1..], f);
      SortByMap(s[1..], f, k1, k2);
      InsertMap(s[0], SortBy(s[1..], k1), f, k1, k2);
    }
  }
}
