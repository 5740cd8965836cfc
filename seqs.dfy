/** Sequence operations that stand for JavaScript's Array.prototype.filter, find,
    findIndex and reduce-to-a-sum, with the facts the model needs about them. */
module Seqs {
  import opened Types

  /** Array.prototype.filter: the elements satisfying p, in their original order. */
  function Filter<T>(s: seq<T>, p: T -> bool): (r: seq<T>)
    ensures |r| <= |s|
    ensures forall i :: 0 <= i < |r| ==> p(r[i])
  {
    if s == [] then []
    else (if p(s[0]) then [s[0]] else []) + Filter(s[1..], p)
  }

  /** The filtered elements are exactly the elements of s that satisfy p. */
  lemma {:induction false} FilterMembers<T>(s: seq<T>, p: T -> bool)
    ensures forall i :: 0 <= i < |Filter(s, p)| ==> Filter(s, p)[i] in s
    ensures forall i :: 0 <= i < |s| && p(s[i]) ==> s[i] in Filter(s, p)
  {
    if s != [] {
      FilterMembers(s[1..], p);
      var h := if p(s[0]) then [s[0]] else [];
      assert Filter(s, p) == h + Filter(s[1..], p);
      forall i | 0 <= i < |s| && p(s[i]) ensures s[i] in Filter(s, p) {
        if i > 0 {
          assert s[i] == s[1..][i - 1];
        }
      }
    }
  }

  /** Filtering keeps every element satisfying p as often as it occurs in s,
      and no other element. */
  lemma {:induction false} FilterMultiset<T>(s: seq<T>, p: T -> bool)
    ensures forall x :: multiset(Filter(s, p))[x] == if p(x) then multiset(s)[x] else 0
  {
    if s != [] {
      FilterMultiset(s[1..], p);
      var h := if p(s[0]) then [s[0]] else [];
      assert Filter(s, p) == h + Filter(s[1..], p);
      assert s == [s[0]] + s[1..];
    }
  }

  /** r can be obtained from s by deleting elements (order is kept). */
  predicate IsSubsequence<T(==)>(r: seq<T>, s: seq<T>) {
    if r == [] then true
    else if s == [] then false
    else if r[0] == s[0] then IsSubsequence(r[1..], s[1..])
    else IsSubsequence(r, s[1..])
  }

  lemma {:induction false} FilterIsSubsequence<T>(s: seq<T>, p: T -> bool)
    ensures IsSubsequence(Filter(s, p), s)
  {
    if s != [] {
      FilterIsSubsequence(s[1..], p);
      var r := Filter(s, p);
      if p(s[0]) {
        assert r[0] == s[0] && r[1..] == Filter(s[1..], p);
      } else {
        assert r == Filter(s[1..], p);
        SubsequenceOfTail(r, s);
      }
    }
  }

  lemma {:induction false} SubsequenceOfTail<T>(r: seq<T>, s: seq<T>)
    requires s != [] && IsSubsequence(r, s[1..])
    ensures IsSubsequence(r, s)
  {
    if r != [] && r[0] == s[0] {
      SubsequenceDropHead(r, s[1..]);
    }
  }

  lemma {:induction false} SubsequenceDropHead<T>(r: seq<T>, s: seq<T>)
    requires r != [] && IsSubsequence(r, s)
    ensures IsSubsequence(r[1..], s)
  {
    if r[0] == s[0] {
      if r[1..] != [] {
        SubsequenceOfTail(r[1..], s);
      }
    } else {
      SubsequenceDropHead(r, s[1..]);
      if r[1..] != [] {
        SubsequenceOfTail(r[1..], s);
      }
    }
  }

  lemma {:induction false} FilterConcat<T>(a: seq<T>, b: seq<T>, p: T -> bool)
    ensures Filter(a + b, p) == Filter(a, p) + Filter(b, p)
  {
    if a != [] {
      assert (a + b)[1..] == a[1..] + b;
      FilterConcat(a[1..], b, p);
    } else {
      assert a + b == b;
    }
  }

  /** Array.prototype.reduce((s, x) => s + f(x), 0). */
  function SumBy<T>(s: seq<T>, f: T -> int): int {
    if s == [] then 0 else f(s[0]) + SumBy(s[1..], f)
  }

  /** A filtered sum is the head's share plus the filtered sum of the tail. */
  lemma FilterSumHead<T>(s: seq<T>, p: T -> bool, f: T -> int)
    requires s != []
    ensures SumBy(Filter(s, p), f) == (if p(s[0]) then f(s[0]) else 0) + SumBy(Filter(s[1..], p), f)
  {
    var h := if p(s[0]) then [s[0]] else [];
    assert Filter(s, p) == h + Filter(s[1..], p);
    SumByConcat(h, Filter(s[1..], p), f);
  }

  lemma {:induction false} SumByConcat<T>(a: seq<T>, b: seq<T>, f: T -> int)
    ensures SumBy(a + b, f) == SumBy(a, f) + SumBy(b, f)
  {
    if a != [] {
      assert (a + b)[1..] == a[1..] + b;
      SumByConcat(a[1..], b, f);
    } else {
      assert a + b == b;
    }
  }

  lemma RemoveAtMultiset<T>(b: seq<T>, k: nat)
    requires k < |b|
    ensures multiset(b[..k] + b[k + 1..]) == multiset(b) - multiset{b[k]}
  {
    assert b == b[..k] + [b[k]] + b[k + 1..];
  }

  lemma RemoveAtSum<T>(b: seq<T>, k: nat, f: T -> int)
    requires k < |b|
    ensures SumBy(b, f) == f(b[k]) + SumBy(b[..k] + b[k + 1..], f)
  {
    assert b == b[..k] + [b[k]] + b[k + 1..];
    SumByConcat(b[..k] + [b[k]], b[k + 1..], f);
    SumByConcat(b[..k], [b[k]], f);
    SumByConcat(b[..k], b[k + 1..], f);
  }

  /** Sums do not depend on the order of the elements. */
  lemma {:induction false} SumByPermutation<T>(a: seq<T>, b: seq<T>, f: T -> int)
    requires multiset(a) == multiset(b)
    ensures SumBy(a, f) == SumBy(b, f)
    decreases |a|
  {
    if a != [] {
      assert a[0] in multiset(b);
      var k :| 0 <= k < |b| && b[k] == a[0];
      RemoveAtMultiset(b, k);
      assert a == [a[0]] + a[1..];
      assert multiset(a[1..]) == multiset(a) - multiset{a[0]};
      SumByPermutation(a[1..], b[..k] + b[k + 1..], f);
      RemoveAtSum(b, k, f);
    } else {
      assert |b| == |multiset(b)| == 0;
    }
  }

  /** Two filters can be applied in either order. */
  lemma {:induction false} FilterCommutes<T>(s: seq<T>, p: T -> bool, q: T -> bool)
    ensures Filter(Filter(s, p), q) == Filter(Filter(s, q), p)
  {
    if s != [] {
      FilterCommutes(s[1..], p, q);
      var hp := if p(s[0]) then [s[0]] else [];
      var hq := if q(s[0]) then [s[0]] else [];
      FilterConcat(hp, Filter(s[1..], p), q);
      FilterConcat(hq, Filter(s[1..], q), p);
    }
  }

  /** When every element satisfies p or q but not both, the sums over the two
      filtered parts add up to the sum over the whole. */
  lemma {:induction false} FilterPartitionSum<T>(s: seq<T>, p: T -> bool, q: T -> bool, f: T -> int)
    requires forall i :: 0 <= i < |s| ==> p(s[i]) != q(s[i])
    ensures SumBy(Filter(s, p), f) + SumBy(Filter(s, q), f) == SumBy(s, f)
  {
    if s != [] {
      FilterPartitionSum(s[1..], p, q, f);
      var hp := if p(s[0]) then [s[0]] else [];
      var hq := if q(s[0]) then [s[0]] else [];
      SumByConcat(hp, Filter(s[1..], p), f);
      SumByConcat(hq, Filter(s[1..], q), f);
    }
  }

  /** f where p holds, 0 elsewhere. */
  function Restrict<T>(p: T -> bool, f: T -> int): T -> int {
    (x: T) => if p(x) then f(x) else 0
  }

  /** The sum over the elements satisfying p equals the sum of f restricted to p. */
  lemma {:induction false} FilterSum<T>(s: seq<T>, p: T -> bool, f: T -> int)
    ensures SumBy(Filter(s, p), f) == SumBy(s, Restrict(p, f))
  {
    if s != [] {
      FilterSum(s[1..], p, f);
      var h := if p(s[0]) then [s[0]] else [];
      SumByConcat(h, Filter(s[1..], p), f);
    }
  }

  /** Sums of two functions that agree on every element are equal. */
  lemma {:induction false} SumByPointwise<T>(s: seq<T>, f: T -> int, g: T -> int)
    requires forall i :: 0 <= i < |s| ==> f(s[i]) == g(s[i])
    ensures SumBy(s, f) == SumBy(s, g)
  {
    if s != [] {
      SumByPointwise(s[1..], f, g);
    }
  }

  /** Array.prototype.findIndex: the first index whose element satisfies p. */
  function FirstIndex<T>(s: seq<T>, p: T -> bool): (r: Option<nat>)
    ensures r.Some? ==> r.value < |s| && p(s[r.value]) && forall j :: 0 <= j < r.value ==> !p(s[j])
    ensures r.None? <==> forall j :: 0 <= j < |s| ==> !p(s[j])
  {
    if s == [] then None
    else if p(s[0]) then Some(0)
    else
      match FirstIndex(s[1..], p)
      case None => None
      case Some(i) => Some(i + 1)
  }

  /** findIndex only looks at what p says about each element. */
  lemma FirstIndexPointwise<T>(s: seq<T>, t: seq<T>, p: T -> bool)
    requires |s| == |t| && forall i :: 0 <= i < |s| ==> p(s[i]) == p(t[i])
    ensures FirstIndex(s, p) == FirstIndex(t, p)
  {
  }

  /** Array.prototype.find. */
  function Find<T>(s: seq<T>, p: T -> bool): (r: Option<T>)
    ensures r.None? <==> forall j :: 0 <= j < |s| ==> !p(s[j])
    ensures r.Some? ==> exists i :: 0 <= i < |s| && FirstIndex(s, p) == Some(i) && r.value == s[i]
  {
    match FirstIndex(s, p)
    case None => None
    case Some(i) => Some(s[i])
  }

  /** No element occurs twice. */
  predicate Distinct<T(==)>(s: seq<T>) {
    forall i, j :: 0 <= i < j < |s| ==> s[i] != s[j]
  }

  /** What find returns is the first element satisfying p. */
  lemma FindIsFirst<T>(s: seq<T>, p: T -> bool)
    ensures Find(s, p).Some? ==> exists i :: 0 <= i < |s| && Find(s, p).value == s[i] && p(s[i])
                                   && forall j :: 0 <= j < i ==> !p(s[j])
  {
  }

  /** Array.prototype.map. */
  function Map<T, U>(s: seq<T>, f: T -> U): (r: seq<U>)
    ensures |r| == |s|
    ensures forall i :: 0 <= i < |s| ==> r[i] == f(s[i])
  {
    if s == [] then [] else [f(s[0])] + Map(s[1..], f)
  }

  /** Mapping twice is mapping once by the composition. */
  lemma MapFuse<A, B, C>(s: seq<A>, f: A -> B, g: B -> C, h: A -> C)
    requires forall i :: 0 <= i < |s| ==> g(f(s[i])) == h(s[i])
    ensures Map(Map(s, f), g) == Map(s, h)
  {
    var l := Map(Map(s, f), g);
    var r := Map(s, h);
    forall i | 0 <= i < |l| ensures l[i] == r[i] {
      assert Map(s, f)[i] == f(s[i]);
    }
  }

  /** A sum over mapped elements is a sum over the original ones. */
  lemma {:induction false} MapSumBy<T, U>(s: seq<T>, f: T -> U, g: U -> int, h: T -> int)
    requires forall i :: 0 <= i < |s| ==> g(f(s[i])) == h(s[i])
    ensures SumBy(Map(s, f), g) == SumBy(s, h)
  {
    if s != [] {
      assert Map(s, f)[1..] == Map(s[1..], f);
      MapSumBy(s[1..], f, g, h);
    }
  }

  lemma {:induction false} DistinctMultiplicity<T>(a: seq<T>, x: T)
    requires Distinct(a)
    ensures multiset(a)[x] <= 1
  {
    if a != [] {
      assert a == [a[0]] + a[1..];
      DistinctMultiplicity(a[1..], x);
      if a[0] == x {
        assert x !in a[1..];
      }
    }
  }

  /** Reordering keeps the elements distinct. */
  lemma PermutationKeepsDistinct<T>(a: seq<T>, b: seq<T>)
    requires multiset(a) == multiset(b) && Distinct(a)
    ensures Distinct(b)
  {
    forall i, j | 0 <= i < j < |b| ensures b[i] != b[j] {
      if b[i] == b[j] {
        assert b == b[..j] + [b[j]] + b[j + 1..];
        assert b[i] in multiset(b[..j]);
        assert multiset(b)[b[j]] >= 2;
        DistinctMultiplicity(a, b[j]);
      }
    }
  }

  /** Array.prototype.reduce((best, x) => key(x) > key(best) ? x : best, init):
      a later element replaces the one kept only when its key is strictly larger. */
  function ReduceMax<T>(s: seq<T>, key: T -> int, init: T): T
    decreases |s|
  {
    if s == [] then init
    else
      var best := ReduceMax(s[..|s| - 1], key, init);
      if key(s[|s| - 1]) > key(best) then s[|s| - 1] else best
  }

  /** s[i] has the largest key, and every earlier element a smaller one. */
  predicate IsFirstMaximal<T>(s: seq<T>, key: T -> int, i: int) {
    0 <= i < |s|
    && (forall j :: 0 <= j < |s| ==> key(s[j]) <= key(s[i]))
    && (forall j :: 0 <= j < i ==> key(s[j]) < key(s[i]))
  }

  lemma FirstMaximalSnoc<T>(init: seq<T>, x: T, key: T -> int, i: int)
    requires IsFirstMaximal(init, key, i)
    ensures IsFirstMaximal(init + [x], key, if key(x) > key(init[i]) then |init| else i)
  {
    var s := init + [x];
    assert forall j :: 0 <= j < |init| ==> s[j] == init[j];
  }

  /** Started from the first element, the reduce yields the first element of
      maximal key. */
  lemma {:induction false} ReduceMaxIsFirstMaximal<T>(s: seq<T>, key: T -> int)
    requires s != []
    ensures exists i :: IsFirstMaximal(s, key, i) && ReduceMax(s, key, s[0]) == s[i]
    decreases |s|
  {
    var init := s[..|s| - 1];
    var x := s[|s| - 1];
    assert s == init + [x];
    if init == [] {
      assert ReduceMax(init, key, s[0]) == s[0];
      assert ReduceMax(s, key, s[0]) == s[0];
      assert IsFirstMaximal(s, key, 0);
    } else {
      assert init[0] == s[0];
      ReduceMaxIsFirstMaximal(init, key);
      var i :| IsFirstMaximal(init, key, i) && ReduceMax(init, key, s[0]) == init[i];
      FirstMaximalSnoc(init, x, key, i);
      var k := if key(x) > key(init[i]) then |init| else i;
      assert ReduceMax(s, key, s[0]) == s[k];
    }
  }

  /** A property of every element survives reordering. */
  lemma PermutationKeeps<T>(u: seq<T>, r: seq<T>, p: T -> bool)
    requires multiset(u) == multiset(r)
    requires forall i :: 0 <= i < |u| ==> p(u[i])
    ensures forall i :: 0 <= i < |r| ==> p(r[i])
  {
    forall i | 0 <= i < |r| ensures p(r[i]) {
      assert r[i] in multiset(u);
      var a :| 0 <= a < |u| && u[a] == r[i];
    }
  }

  /** Distinct keys survive reordering. */
  lemma PermutationKeepsDistinctKeys<T, K>(u: seq<T>, r: seq<T>, key: T -> K)
    requires multiset(u) == multiset(r)
    requires forall i, j :: 0 <= i < j < |u| ==> key(u[i]) != key(u[j])
    ensures forall i, j :: 0 <= i < j < |r| ==> key(r[i]) != key(r[j])
  {
    assert Distinct(u);
    PermutationKeepsDistinct(u, r);
    forall i, j | 0 <= i < j < |r| ensures key(r[i]) != key(r[j]) {
      assert r[i] in multiset(u) && r[j] in multiset(u);
      var a :| 0 <= a < |u| && u[a] == r[i];
      var b :| 0 <= b < |u| && u[b] == r[j];
      assert a != b;
    }
  }

  /** Reordering keeps the set of keys. */
  lemma PermutationKeepsKeys<T, K>(u: seq<T>, r: seq<T>, key: T -> K)
    requires multiset(u) == multiset(r)
    ensures forall k :: k in Map(u, key) <==> k in Map(r, key)
  {
    forall k | k in Map(r, key) ensures k in Map(u, key) {
      var i :| 0 <= i < |r| && Map(r, key)[i] == k;
      assert r[i] in multiset(u);
      var a :| 0 <= a < |u| && u[a] == r[i];
      assert Map(u, key)[a] == k;
    }
    forall k | k in Map(u, key) ensures k in Map(r, key) {
      var a :| 0 <= a < |u| && Map(u, key)[a] == k;
      assert u[a] in multiset(r);
      var i :| 0 <= i < |r| && r[i] == u[a];
      assert Map(r, key)[i] == k;
    }
  }

  /** Filtering twice by the same predicate filters once. */
  lemma {:induction false} FilterIdempotent<T>(s: seq<T>, p: T -> bool)
    ensures Filter(Filter(s, p), p) == Filter(s, p)
  {
    if s != [] {
      FilterIdempotent(s[1..], p);
      var h := if p(s[0]) then [s[0]] else [];
      FilterConcat(h, Filter(s[1..], p), p);
    }
  }

  /** Filtering keeps everything when every element passes. */
  lemma {:induction false} FilterKeepsAll<T>(s: seq<T>, p: T -> bool)
    requires forall i :: 0 <= i < |s| ==> p(s[i])
    ensures Filter(s, p) == s
  {
    if s != [] {
      FilterKeepsAll(s[1..], p);
    }
  }

  /** When every element satisfies exactly one of p and q, the two filters
      together have as many elements as s. */
  lemma {:induction false} FilterPartitionLength<T>(s: seq<T>, p: T -> bool, q: T -> bool)
    requires forall i :: 0 <= i < |s| ==> p(s[i]) != q(s[i])
    ensures |Filter(s, p)| + |Filter(s, q)| == |s|
  {
    if s != [] {
      FilterPartitionLength(s[1..], p, q);
    }
  }
}
