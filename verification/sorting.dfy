/** Stable sorting by a key: it permutes, it sorts, and a strictly sorted permutation is unique. Two
    lists that agree as multisets therefore sort alike, and sorting by position arranges by position. */
module Sorting {
  import opened Counting

  /** Inserts after every element whose key is not larger, which keeps the sort stable. */
  function Insert<T>(sorted: seq<T>, x: T, key: T -> real): seq<T> {
    if sorted == [] then [x]
    else if key(sorted[|sorted| - 1]) <= key(x) then sorted + [x]
    else Insert(sorted[..|sorted| - 1], x, key) + [sorted[|sorted| - 1]]
  }

  function SortByKey<T>(s: seq<T>, key: T -> real): seq<T> {
    if s == [] then [] else Insert(SortByKey(s[..|s| - 1], key), s[|s| - 1], key)
  }

  ghost predicate Sorted<T>(s: seq<T>, key: T -> real) {
    forall i, j :: 0 <= i < j < |s| ==> key(s[i]) <= key(s[j])
  }

  ghost predicate StrictlySorted<T>(s: seq<T>, key: T -> real) {
    forall i, j :: 0 <= i < j < |s| ==> key(s[i]) < key(s[j])
  }

  lemma {:induction false} InsertAdds<T>(sorted: seq<T>, x: T, key: T -> real)
    ensures multiset(Insert(sorted, x, key)) == multiset(sorted) + multiset{x}
  {
    if sorted != [] {
      assert sorted == sorted[..|sorted| - 1] + [sorted[|sorted| - 1]];
      InsertAdds(sorted[..|sorted| - 1], x, key);
    }
  }

  ghost predicate Bounded<T>(s: seq<T>, key: T -> real, bound: real) {
    forall i :: 0 <= i < |s| ==> key(s[i]) <= bound
  }

  lemma {:induction false} InsertBounded<T>(sorted: seq<T>, x: T, key: T -> real, bound: real)
    requires key(x) <= bound && Bounded(sorted, key, bound)
    ensures Bounded(Insert(sorted, x, key), key, bound)
  {
    if sorted != [] && key(sorted[|sorted| - 1]) > key(x) {
      assert Bounded(sorted[..|sorted| - 1], key, bound);
      InsertBounded(sorted[..|sorted| - 1], x, key, bound);
    }
  }

  lemma {:induction false} InsertSorts<T>(sorted: seq<T>, x: T, key: T -> real)
    requires Sorted(sorted, key)
    ensures Sorted(Insert(sorted, x, key), key)
  {
    if sorted != [] && key(sorted[|sorted| - 1]) > key(x) {
      var init, last := sorted[..|sorted| - 1], sorted[|sorted| - 1];
      assert Bounded(init, key, key(last));
      InsertSorts(init, x, key);
      InsertBounded(init, x, key, key(last));
    }
  }

  lemma {:induction false} SortSorts<T>(s: seq<T>, key: T -> real)
    ensures Sorted(SortByKey(s, key), key)
    ensures multiset(SortByKey(s, key)) == multiset(s)
  {
    if s != [] {
      var init, last := s[..|s| - 1], s[|s| - 1];
      assert s == init + [last];
      SortSorts(init, key);
      InsertSorts(SortByKey(init, key), last, key);
      InsertAdds(SortByKey(init, key), last, key);
    }
  }

  /** Elements of one key stand in the order `before`. */
  ghost predicate TiesKept<T>(s: seq<T>, key: T -> real, before: (T, T) -> bool) {
    forall i, j :: 0 <= i < j < |s| && key(s[i]) == key(s[j]) ==> before(s[i], s[j])
  }

  lemma {:induction false} InsertKeepsTies<T>(sorted: seq<T>, x: T, key: T -> real, before: (T, T) -> bool)
    requires TiesKept(sorted, key, before) && forall i :: 0 <= i < |sorted| ==> before(sorted[i], x)
    ensures TiesKept(Insert(sorted, x, key), key, before)
  {
    if sorted != [] && key(sorted[|sorted| - 1]) > key(x) {
      var init, last := sorted[..|sorted| - 1], sorted[|sorted| - 1];
      var inner := Insert(init, x, key);
      InsertKeepsTies(init, x, key, before);
      InsertAdds(init, x, key);
      forall i | 0 <= i < |inner| && key(inner[i]) == key(last) ensures before(inner[i], last) {
        assert inner[i] in multiset(inner);
        var k :| 0 <= k < |init| && init[k] == inner[i];
      }
    }
  }

  /** The sort is stable. */
  lemma {:induction false} SortStable<T>(s: seq<T>, key: T -> real, before: (T, T) -> bool)
    requires forall i, j :: 0 <= i < j < |s| ==> before(s[i], s[j])
    ensures TiesKept(SortByKey(s, key), key, before)
  {
    if s != [] {
      var init, last := s[..|s| - 1], s[|s| - 1];
      SortStable(init, key, before);
      SortSorts(init, key);
      var sorted := SortByKey(init, key);
      forall i | 0 <= i < |sorted| ensures before(sorted[i], last) {
        assert sorted[i] in multiset(init);
        var k :| 0 <= k < |init| && init[k] == sorted[i];
      }
      InsertKeepsTies(sorted, last, key, before);
    }
  }

  lemma SameLast<T>(a: seq<T>, b: seq<T>, key: T -> real)
    requires a != [] && b != [] && multiset(a) == multiset(b)
    requires Sorted(a, key) && StrictlySorted(b, key)
    ensures a[|a| - 1] == b[|b| - 1]
  {
    var lastA, lastB := a[|a| - 1], b[|b| - 1];
    assert lastA in multiset(b) && lastB in multiset(a);
    var i :| 0 <= i < |b| && b[i] == lastA;
    var j :| 0 <= j < |a| && a[j] == lastB;
    assert key(lastB) <= key(lastA);
  }

  lemma DropLast<T>(s: seq<T>)
    requires s != []
    ensures multiset(s[..|s| - 1]) == multiset(s) - multiset{s[|s| - 1]}
  {
    assert s == s[..|s| - 1] + [s[|s| - 1]];
  }

  lemma SameLength<T>(a: seq<T>, b: seq<T>)
    requires multiset(a) == multiset(b)
    ensures |a| == |b|
  {
    assert |a| == |multiset(a)|;
  }

  lemma Rejoin<T>(a: seq<T>, b: seq<T>)
    requires |a| == |b| && a != [] && a[..|a| - 1] == b[..|b| - 1] && a[|a| - 1] == b[|b| - 1]
    ensures a == b
  {
    assert a == a[..|a| - 1] + [a[|a| - 1]];
  }

  lemma SortedPrefix<T>(a: seq<T>, b: seq<T>, key: T -> real)
    requires a != [] && b != [] && Sorted(a, key) && StrictlySorted(b, key)
    ensures Sorted(a[..|a| - 1], key) && StrictlySorted(b[..|b| - 1], key)
  {
  }

  /** Two sorted arrangements of the same elements agree if the keys of one are all different. */
  lemma {:induction false} SortedUnique<T>(a: seq<T>, b: seq<T>, key: T -> real)
    requires multiset(a) == multiset(b)
    requires Sorted(a, key) && StrictlySorted(b, key)
    ensures a == b
    decreases |a|
  {
    hide Sorted, StrictlySorted;
    SameLength(a, b);
    if a != [] {
      SameLast(a, b, key);
      DropLast(a);
      DropLast(b);
      SortedPrefix(a, b, key);
      SortedUnique(a[..|a| - 1], b[..|b| - 1], key);
      Rejoin(a, b);
    }
  }

  /** A rearrangement keeps the elements and repeats none of them. */
  lemma PermutedList<T>(some: seq<T>, other: seq<T>)
    requires multiset(some) == multiset(other) && NoDuplicates(some)
    ensures NoDuplicates(other) && forall x :: x in some <==> x in other
  {
    forall x ensures x in some <==> x in other {
      assert x in multiset(some) <==> x in multiset(other);
    }
    SameLength(some, other);
    assert (set x | x in some) == (set x | x in other);
    SetSizeTellsDuplicates(some);
    SetSizeTellsDuplicates(other);
  }

  lemma {:induction false} DistinctCount<T>(s: seq<T>, x: T)
    requires forall i, j :: 0 <= i < j < |s| ==> s[i] != s[j]
    ensures multiset(s)[x] == if x in s then 1 else 0
  {
    if s != [] {
      var init, last := s[..|s| - 1], s[|s| - 1];
      assert s == init + [last];
      DistinctCount(init, x);
    }
  }

  lemma SameElements<T>(a: seq<T>, b: seq<T>)
    requires forall i, j :: 0 <= i < j < |a| ==> a[i] != a[j]
    requires forall i, j :: 0 <= i < j < |b| ==> b[i] != b[j]
    requires forall x :: x in a <==> x in b
    ensures multiset(a) == multiset(b)
  {
    forall x | x in multiset(a) || x in multiset(b) ensures multiset(a)[x] == multiset(b)[x] {
      DistinctCount(a, x);
      DistinctCount(b, x);
    }
  }

  // Sorting records by the position of their id in a list of ids.

  function Position<K(==)>(ids: seq<K>, id: K): nat
    ensures Position(ids, id) <= |ids|
    ensures Position(ids, id) < |ids| ==> ids[Position(ids, id)] == id
    ensures Position(ids, id) == |ids| ==> id !in ids
  {
    if ids == [] then 0 else if ids[0] == id then 0 else 1 + Position(ids[1..], id)
  }

  lemma {:induction false} PositionOf<K>(ids: seq<K>, i: nat)
    requires i < |ids| && forall a, b :: 0 <= a < b < |ids| ==> ids[a] != ids[b]
    ensures Position(ids, ids[i]) == i
  {
    if i > 0 {
      PositionOf(ids[1..], i - 1);
    }
  }

  ghost predicate HasItem<T, K>(items: seq<T>, id: K, idOf: T -> K) {
    exists item :: item in items && idOf(item) == id
  }

  ghost predicate OnePerId<T, K(!new)>(items: seq<T>, ids: seq<K>, idOf: T -> K) {
    && (forall i, j :: 0 <= i < j < |items| ==> idOf(items[i]) != idOf(items[j]))
    && (forall item :: item in items ==> idOf(item) in ids)
    && (forall id :: id in ids ==> HasItem(items, id, idOf))
  }

  ghost function ItemFor<T, K>(items: seq<T>, id: K, idOf: T -> K): T
    requires HasItem(items, id, idOf)
  {
    var item :| item in items && idOf(item) == id;
    item
  }

  ghost function Arranged<T, K(!new)>(items: seq<T>, ids: seq<K>, idOf: T -> K): seq<T>
    requires OnePerId(items, ids, idOf)
  {
    seq(|ids|, i requires 0 <= i < |ids| => ItemFor(items, ids[i], idOf))
  }

  /** With exactly one record per id, sorting by the id's position puts the i-th id's record i-th. */
  lemma SortArranges<T, K(!new)>(items: seq<T>, ids: seq<K>, idOf: T -> K, key: T -> real)
    requires forall i, j :: 0 <= i < j < |ids| ==> ids[i] != ids[j]
    requires OnePerId(items, ids, idOf)
    requires forall item :: item in items ==> key(item) == Position(ids, idOf(item)) as real
    ensures |SortByKey(items, key)| == |ids|
    ensures forall i :: 0 <= i < |ids| ==> SortByKey(items, key)[i] in items
    ensures forall i :: 0 <= i < |ids| ==> idOf(SortByKey(items, key)[i]) == ids[i]
  {
    var arranged := Arranged(items, ids, idOf);
    forall i | 0 <= i < |ids|
      ensures arranged[i] in items && idOf(arranged[i]) == ids[i] && key(arranged[i]) == i as real
    {
      PositionOf(ids, i);
    }
    ArrangedHasAll(items, ids, idOf);
    assert StrictlySorted(arranged, key);
    hide OnePerId, Arranged, HasItem, StrictlySorted;
    SortSorts(items, key);
    SortedUnique(SortByKey(items, key), arranged, key);
  }

  lemma ArrangedHasAll<T, K(!new)>(items: seq<T>, ids: seq<K>, idOf: T -> K)
    requires forall i, j :: 0 <= i < j < |ids| ==> ids[i] != ids[j]
    requires OnePerId(items, ids, idOf)
    ensures multiset(items) == multiset(Arranged(items, ids, idOf))
  {
    var arranged := Arranged(items, ids, idOf);
    forall item | item in items ensures item in arranged {
      var i :| 0 <= i < |ids| && ids[i] == idOf(item);
      assert idOf(arranged[i]) == idOf(item) && arranged[i] in items;
      var a :| 0 <= a < |items| && items[a] == item;
      var b :| 0 <= b < |items| && items[b] == arranged[i];
    }
    SameElements(items, arranged);
  }
}
