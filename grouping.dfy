/** A JavaScript Map from string keys to running totals, filled by a forEach
    that does `map.set(k, (map.get(k) || zero) + contribution)`. Entries keep
    insertion order, as Map.entries() does. Each entry carries two sums and a
    count; a caller uses the parts it needs. */
module Grouping {
  import opened Seqs

  datatype Entry = Entry(key: string, a: int, b: int, count: int)

  function KeyIs(k: string): Entry -> bool {
    (e: Entry) => e.key == k
  }

  function EntryKey(e: Entry): string { e.key }
  function EntryA(e: Entry): int { e.a }
  function EntryB(e: Entry): int { e.b }
  function EntryCount(e: Entry): int { e.count }

  function Keys(m: seq<Entry>): seq<string> {
    Map(m, EntryKey)
  }

  /** One forEach step: the entry for k is updated in place, or appended when
      k is new. */
  function AddTo(m: seq<Entry>, k: string, da: int, db: int): (r: seq<Entry>)
    ensures |r| == |m| || |r| == |m| + 1
  {
    match FirstIndex(m, KeyIs(k))
    case Some(i) => m[i := Entry(k, m[i].a + da, m[i].b + db, m[i].count + 1)]
    case None => m + [Entry(k, da, db, 1)]
  }

  /** The Map after the forEach over s. */
  function Group<T>(s: seq<T>, key: T -> string, fa: T -> int, fb: T -> int): seq<Entry>
    decreases |s|
  {
    if s == [] then []
    else
      var x := s[|s| - 1];
      AddTo(Group(s[..|s| - 1], key, fa, fb), key(x), fa(x), fb(x))
  }

  /** The values without repeats, in first-encounter order (also what
      Array.from(new Set(xs)) gives). */
  function Dedup<K(==)>(xs: seq<K>): (r: seq<K>)
    decreases |xs|
  {
    if xs == [] then []
    else
      var d := Dedup(xs[..|xs| - 1]);
      if xs[|xs| - 1] in d then d else d + [xs[|xs| - 1]]
  }

  function HasKey<T>(key: T -> string, k: string): T -> bool {
    (x: T) => key(x) == k
  }

  function Always<T>(): T -> bool {
    (x: T) => true
  }

  // ---- the loop ----

  /** forEach over s, skipping the elements that `keep` rejects. */
  method GroupLoop<T>(s: seq<T>, keep: T -> bool, key: T -> string, fa: T -> int, fb: T -> int)
    returns (m: seq<Entry>)
    ensures m == Group(Filter(s, keep), key, fa, fb)
  {
    m := [];
    var j := 0;
    while j < |s|
      invariant 0 <= j <= |s|
      invariant m == Group(Filter(s[..j], keep), key, fa, fb)
    {
      var x := s[j];
      ghost var done := Filter(s[..j], keep);
      FilterStep(s, j, keep);
      if keep(x) {
        var k := key(x);
        ghost var before := m;
        var found := FirstIndex(m, KeyIs(k));
        if found.Some? {
          var i := found.value;
          m := m[i := Entry(k, m[i].a + fa(x), m[i].b + fb(x), m[i].count + 1)];
        } else {
          m := m + [Entry(k, fa(x), fb(x), 1)];
        }
        assert m == AddTo(before, k, fa(x), fb(x));
        GroupSnoc(done, x, key, fa, fb);
        assert Filter(s[..j + 1], keep) == done + [x];
      } else {
        assert Filter(s[..j + 1], keep) == done;
      }
      j := j + 1;
    }
    assert s[..j] == s;
  }

  lemma FilterStep<T>(s: seq<T>, j: nat, keep: T -> bool)
    requires j < |s|
    ensures Filter(s[..j + 1], keep) == Filter(s[..j], keep) + (if keep(s[j]) then [s[j]] else [])
  {
    assert s[..j + 1] == s[..j] + [s[j]];
    FilterConcat(s[..j], [s[j]], keep);
  }

  lemma GroupSnoc<T>(s: seq<T>, x: T, key: T -> string, fa: T -> int, fb: T -> int)
    ensures Group(s + [x], key, fa, fb) == AddTo(Group(s, key, fa, fb), key(x), fa(x), fb(x))
  {
    assert (s + [x])[..|s|] == s;
  }

  lemma {:induction false} FilterAlways<T>(s: seq<T>)
    ensures Filter(s, Always<T>()) == s
  {
    if s != [] {
      FilterAlways(s[1..]);
    }
  }

  // ---- keys ----

  lemma KeysAddTo(m: seq<Entry>, k: string, da: int, db: int)
    ensures Keys(AddTo(m, k, da, db)) == if k in Keys(m) then Keys(m) else Keys(m) + [k]
  {
    match FirstIndex(m, KeyIs(k))
    case Some(i) =>
      assert Keys(m)[i] == k;
      var r := AddTo(m, k, da, db);
      assert forall j :: 0 <= j < |m| ==> Keys(r)[j] == Keys(m)[j];
    case None =>
      assert forall j :: 0 <= j < |m| ==> Keys(m)[j] != k;
      assert k !in Keys(m);
      assert Keys(m + [Entry(k, da, db, 1)]) == Keys(m) + [k];
  }

  /** The Map's keys are the elements' keys without repeats, in the order in
      which each first appears. */
  lemma {:induction false} GroupKeysInEncounterOrder<T>(s: seq<T>, key: T -> string, fa: T -> int, fb: T -> int)
    ensures Keys(Group(s, key, fa, fb)) == Dedup(Map(s, key))
    decreases |s|
  {
    if s != [] {
      var init := s[..|s| - 1];
      var x := s[|s| - 1];
      var m := Group(init, key, fa, fb);
      GroupKeysInEncounterOrder(init, key, fa, fb);
      KeysAddTo(m, key(x), fa(x), fb(x));
      MapSnoc(s, key);
      assert Group(s, key, fa, fb) == AddTo(m, key(x), fa(x), fb(x));
    }
  }

  lemma MapSnoc<T>(s: seq<T>, key: T -> string)
    requires s != []
    ensures Dedup(Map(s, key)) == var d := Dedup(Map(s[..|s| - 1], key));
      if key(s[|s| - 1]) in d then d else d + [key(s[|s| - 1])]
  {
    var xs := Map(s, key);
    assert xs[..|xs| - 1] == Map(s[..|s| - 1], key);
  }

  lemma {:induction false} DedupDistinct<K>(xs: seq<K>)
    ensures Distinct(Dedup(xs))
    decreases |xs|
  {
    if xs != [] {
      DedupDistinct(xs[..|xs| - 1]);
    }
  }

  lemma {:induction false} DedupMembers<K>(xs: seq<K>)
    ensures forall k :: k in Dedup(xs) <==> k in xs
    decreases |xs|
  {
    if xs != [] {
      DedupMembers(xs[..|xs| - 1]);
      assert xs == xs[..|xs| - 1] + [xs[|xs| - 1]];
    }
  }

  /** One entry per distinct key: the keys are distinct, and a key has an entry
      exactly when some element has it. */
  lemma GroupOneEntryPerKey<T>(s: seq<T>, key: T -> string, fa: T -> int, fb: T -> int)
    ensures Distinct(Keys(Group(s, key, fa, fb)))
    ensures forall k :: k in Keys(Group(s, key, fa, fb)) <==> k in Map(s, key)
  {
    GroupKeysInEncounterOrder(s, key, fa, fb);
    DedupDistinct(Map(s, key));
    DedupMembers(Map(s, key));
  }

  /** Every entry's key is the key of some element. */
  lemma GroupKeyWitness<T>(s: seq<T>, key: T -> string, fa: T -> int, fb: T -> int, i: nat)
    requires i < |Group(s, key, fa, fb)|
    ensures exists a :: 0 <= a < |s| && key(s[a]) == Group(s, key, fa, fb)[i].key
  {
    GroupOneEntryPerKey(s, key, fa, fb);
    assert Keys(Group(s, key, fa, fb))[i] in Map(s, key);
  }

  // ---- sums and counts ----

  lemma SumByUpdate<T>(m: seq<T>, i: nat, x: T, f: T -> int)
    requires i < |m|
    ensures SumBy(m[i := x], f) == SumBy(m, f) - f(m[i]) + f(x)
  {
    RemoveAtSum(m, i, f);
    RemoveAtSum(m[i := x], i, f);
    assert m[i := x][..i] + m[i := x][i + 1..] == m[..i] + m[i + 1..];
  }

  lemma AddToSums(m: seq<Entry>, k: string, da: int, db: int)
    ensures SumBy(AddTo(m, k, da, db), EntryA) == SumBy(m, EntryA) + da
    ensures SumBy(AddTo(m, k, da, db), EntryB) == SumBy(m, EntryB) + db
    ensures SumBy(AddTo(m, k, da, db), EntryCount) == SumBy(m, EntryCount) + 1
  {
    match FirstIndex(m, KeyIs(k))
    case Some(i) =>
      var e := Entry(k, m[i].a + da, m[i].b + db, m[i].count + 1);
      assert AddTo(m, k, da, db) == m[i := e];
      assert EntryA(e) == EntryA(m[i]) + da && EntryB(e) == EntryB(m[i]) + db
        && EntryCount(e) == EntryCount(m[i]) + 1;
      SumByUpdate(m, i, e, EntryA);
      SumByUpdate(m, i, e, EntryB);
      SumByUpdate(m, i, e, EntryCount);
    case None =>
      var e := Entry(k, da, db, 1);
      assert AddTo(m, k, da, db) == m + [e];
      SumByConcat(m, [e], EntryA);
      SumByConcat(m, [e], EntryB);
      SumByConcat(m, [e], EntryCount);
      assert SumBy([e], EntryA) == da && SumBy([e], EntryB) == db && SumBy([e], EntryCount) == 1;
  }

  /** The entries' sums add up to the sums over all elements, and their counts
      to the number of elements. */
  lemma {:induction false} GroupTotals<T>(s: seq<T>, key: T -> string, fa: T -> int, fb: T -> int)
    ensures SumBy(Group(s, key, fa, fb), EntryA) == SumBy(s, fa)
    ensures SumBy(Group(s, key, fa, fb), EntryB) == SumBy(s, fb)
    ensures SumBy(Group(s, key, fa, fb), EntryCount) == |s|
    decreases |s|
  {
    if s != [] {
      var init := s[..|s| - 1];
      var x := s[|s| - 1];
      GroupTotals(init, key, fa, fb);
      AddToSums(Group(init, key, fa, fb), key(x), fa(x), fb(x));
      assert s == init + [x];
      SumByConcat(init, [x], fa);
      SumByConcat(init, [x], fb);
    }
  }

  /** What one step does to the entry at index i, when the keys are distinct. */
  lemma AddToEntry(m: seq<Entry>, k: string, da: int, db: int, i: nat)
    requires Distinct(Keys(m))
    requires i < |AddTo(m, k, da, db)|
    ensures var r := AddTo(m, k, da, db);
      if i < |m| then
        r[i] == (if m[i].key == k then Entry(k, m[i].a + da, m[i].b + db, m[i].count + 1) else m[i])
      else
        r[i] == Entry(k, da, db, 1) && k !in Keys(m)
  {
    match FirstIndex(m, KeyIs(k))
    case Some(j) =>
      if i != j {
        assert Keys(m)[i] != Keys(m)[j];
      }
    case None =>
      assert forall j :: 0 <= j < |m| ==> Keys(m)[j] != k;
  }

  lemma FilterSnoc<T>(s: seq<T>, p: T -> bool)
    requires s != []
    ensures Filter(s, p) == Filter(s[..|s| - 1], p) + (if p(s[|s| - 1]) then [s[|s| - 1]] else [])
  {
    FilterStep(s, |s| - 1, p);
    assert s[..|s|] == s;
  }

  /** Each entry holds the sums and the count of exactly the elements with its key. */
  lemma {:induction false} GroupEntryIsFilteredSum<T>(s: seq<T>, key: T -> string, fa: T -> int, fb: T -> int, i: nat)
    requires i < |Group(s, key, fa, fb)|
    ensures var e := Group(s, key, fa, fb)[i];
      e.a == SumBy(Filter(s, HasKey(key, e.key)), fa)
      && e.b == SumBy(Filter(s, HasKey(key, e.key)), fb)
      && e.count == |Filter(s, HasKey(key, e.key))|
    decreases |s|
  {
    var init := s[..|s| - 1];
    var x := s[|s| - 1];
    var m := Group(init, key, fa, fb);
    assert Group(s, key, fa, fb) == AddTo(m, key(x), fa(x), fb(x));
    var e := Group(s, key, fa, fb)[i];
    var p := HasKey(key, e.key);
    var before := Filter(init, p);
    var last := if p(x) then [x] else [];
    FilterSnoc(s, p);
    assert Filter(s, p) == before + last;
    SumByConcat(before, last, fa);
    SumByConcat(before, last, fb);
    GroupOneEntryPerKey(init, key, fa, fb);
    AddToEntry(m, key(x), fa(x), fb(x), i);
    if i < |m| {
      GroupEntryIsFilteredSum(init, key, fa, fb, i);
      assert m[i].key == e.key;
    } else {
      assert key(x) !in Map(init, key);
      NoKeyFiltersEmpty(init, key, key(x));
    }
  }

  lemma {:induction false} NoKeyFiltersEmpty<T>(s: seq<T>, key: T -> string, k: string)
    requires k !in Map(s, key)
    ensures Filter(s, HasKey(key, k)) == []
  {
    if s != [] {
      assert Map(s, key)[0] == key(s[0]);
      assert Map(s, key)[1..] == Map(s[1..], key);
      NoKeyFiltersEmpty(s[1..], key, k);
    }
  }
}
