/** Strings in code point order, and the sorted list of a set of them. */
module StringOrder {
  import opened Counting

  predicate KeyLeq(a: string, b: string) {
    a == "" || (b != "" && (a[0] < b[0] || (a[0] == b[0] && KeyLeq(a[1..], b[1..]))))
  }

  lemma {:induction false} KeyOrder(a: string, b: string, c: string)
    ensures KeyLeq(a, b) || KeyLeq(b, a)
    ensures KeyLeq(a, b) && KeyLeq(b, c) ==> KeyLeq(a, c)
    ensures KeyLeq(a, b) && KeyLeq(b, a) ==> a == b
    decreases |a|
  {
    if a != "" && b != "" {
      KeyOrder(a[1..], b[1..], if c == "" then "" else c[1..]);
      assert a == [a[0]] + a[1..] && b == [b[0]] + b[1..];
    }
  }

  /** The first difference decides: it is a lower code point in `a`, or `a` ends there. */
  ghost predicate Precedes(a: string, b: string) {
    exists i :: DiffersFirst(a, b, i)
  }

  predicate DiffersFirst(a: string, b: string, i: int) {
    && 0 <= i <= |a| && i <= |b|
    && a[..i] == b[..i]
    && (i == |a| || (i < |b| && a[i] < b[i]))
  }

  lemma SharedFront(a: string, b: string, i: int)
    requires DiffersFirst(a, b, i)
    ensures i > 0 ==> a != "" && b != "" && a[0] == b[0]
  {
    if i > 0 {
      assert a[..i][0] == a[0] && b[..i][0] == b[0];
    }
  }

  lemma {:induction false} KeyLeqByFirstDifference(a: string, b: string)
    ensures KeyLeq(a, b) <==> Precedes(a, b)
  {
    if a == "" {
      assert DiffersFirst(a, b, 0);
    } else if b != "" && a[0] == b[0] {
      KeyLeqByFirstDifference(a[1..], b[1..]);
      if i :| DiffersFirst(a[1..], b[1..], i) {
        assert a[..i + 1] == [a[0]] + a[1..][..i] && b[..i + 1] == [b[0]] + b[1..][..i];
        assert DiffersFirst(a, b, i + 1);
      }
      if i :| DiffersFirst(a, b, i) {
        assert i > 0;
        assert a[1..][..i - 1] == a[..i][1..] && b[1..][..i - 1] == b[..i][1..];
        assert DiffersFirst(a[1..], b[1..], i - 1);
      }
    } else {
      forall i | DiffersFirst(a, b, i) {
        SharedFront(a, b, i);
      }
      if b != "" && a[0] < b[0] {
        assert DiffersFirst(a, b, 0);
      }
    }
  }

  predicate IsLeast(keys: set<string>, least: string) {
    least in keys && forall key :: key in keys ==> KeyLeq(least, key)
  }

  lemma LeastUnique(keys: set<string>, a: string, b: string)
    requires IsLeast(keys, a) && IsLeast(keys, b)
    ensures a == b
  {
    KeyOrder(a, b, b);
  }

  lemma {:induction false} LeastKeyExists(keys: set<string>) returns (least: string)
    requires keys != {}
    ensures IsLeast(keys, least)
    decreases |keys|
  {
    var some :| some in keys;
    KeyOrder(some, some, some);
    if keys == {some} {
      return some;
    }
    var other := LeastKeyExists(keys - {some});
    least := if KeyLeq(other, some) then other else some;
    forall key | key in keys ensures KeyLeq(least, key) {
      KeyOrder(some, other, key);
    }
  }

  function SortedKeys(keys: set<string>): seq<string> {
    if keys == {} then []
    else
      assert exists least :: least in keys && IsLeast(keys, least) by {
        var least := LeastKeyExists(keys);
      }
      assert forall a, b :: IsLeast(keys, a) && IsLeast(keys, b) ==> a == b by {
        forall a, b | IsLeast(keys, a) && IsLeast(keys, b) ensures a == b {
          LeastUnique(keys, a, b);
        }
      }
      var least :| least in keys && IsLeast(keys, least);
      [least] + SortedKeys(keys - {least})
  }

  lemma {:induction false} SortedKeysSorted(keys: set<string>)
    ensures forall key :: key in SortedKeys(keys) <==> key in keys
    ensures forall i, j :: 0 <= i < j < |SortedKeys(keys)| ==>
      KeyLeq(SortedKeys(keys)[i], SortedKeys(keys)[j]) && SortedKeys(keys)[i] != SortedKeys(keys)[j]
  {
    if keys != {} {
      var least := SortedKeys(keys)[0];
      SortedKeysSorted(keys - {least});
      assert SortedKeys(keys) == [least] + SortedKeys(keys - {least});
    }
  }

  /** The list holds each key once, every key before the ones it precedes. */
  lemma SortedKeysAscend(keys: set<string>)
    ensures forall key :: key in SortedKeys(keys) <==> key in keys
    ensures forall i, j :: 0 <= i < j < |SortedKeys(keys)| ==>
      Precedes(SortedKeys(keys)[i], SortedKeys(keys)[j]) && SortedKeys(keys)[i] != SortedKeys(keys)[j]
  {
    SortedKeysSorted(keys);
    var sorted := SortedKeys(keys);
    hide SortedKeys, KeyLeq, Precedes;
    forall i, j | 0 <= i < j < |sorted| ensures Precedes(sorted[i], sorted[j]) {
      KeyLeqByFirstDifference(sorted[i], sorted[j]);
    }
  }

  lemma KeysDistinct(keys: set<string>)
    ensures NoDuplicates(SortedKeys(keys)) && forall key :: key in SortedKeys(keys) <==> key in keys
  {
    SortedKeysSorted(keys);
    hide SortedKeys, KeyLeq;
  }

  lemma KeyPosition(keys: set<string>, key: string) returns (i: nat)
    requires key in keys
    ensures i < |SortedKeys(keys)| && SortedKeys(keys)[i] == key
  {
    SortedKeysSorted(keys);
    hide SortedKeys, KeyLeq;
    i :| 0 <= i < |SortedKeys(keys)| && SortedKeys(keys)[i] == key;
  }

  lemma OrderedPositions(keys: set<string>, a: string, b: string) returns (i: nat, j: nat)
    requires a in keys && b in keys && a != b && Precedes(a, b)
    ensures i < j < |SortedKeys(keys)| && SortedKeys(keys)[i] == a && SortedKeys(keys)[j] == b
  {
    i := KeyPosition(keys, a);
    j := KeyPosition(keys, b);
    SortedKeysSorted(keys);
    hide SortedKeys, Precedes;
    KeyLeqByFirstDifference(a, b);
    if j < i {
      KeyOrder(a, b, a);
    }
  }
}
