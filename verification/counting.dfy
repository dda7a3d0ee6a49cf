/** Cardinality facts about finite sets and sequences: counting the distinct elements of a list tells whether
    it repeats one, and counting an image tells whether the function is injective. */
module Counting {
  ghost predicate NoDuplicates<T>(s: seq<T>) {
    forall i, j :: 0 <= i < j < |s| ==> s[i] != s[j]
  }

  /** A list has no repeats exactly when its set is as large as the list. */
  lemma {:induction false} SetSizeTellsDuplicates<T>(s: seq<T>)
    ensures |set x | x in s| <= |s|
    ensures NoDuplicates(s) <==> |set x | x in s| == |s|
  {
    if s != [] {
      var init, last := s[..|s| - 1], s[|s| - 1];
      SetSizeTellsDuplicates(init);
      var all, before := set x | x in s, set x | x in init;
      assert all == before + {last};
      if last in before {
        assert all == before;
        var i :| 0 <= i < |init| && init[i] == last;
        assert s[i] == s[|s| - 1];
      } else {
        assert |all| == |before| + 1;
        assert NoDuplicates(s) <==> NoDuplicates(init);
      }
    }
  }

  lemma AppendDistinct<T>(s: seq<T>, x: T)
    ensures NoDuplicates(s + [x]) <==> NoDuplicates(s) && x !in s
  {
    var t := s + [x];
    if x in s {
      var i :| 0 <= i < |s| && s[i] == x;
      assert t[i] == t[|s|];
    }
    if NoDuplicates(t) {
      forall i, j | 0 <= i < j < |s| ensures s[i] != s[j] {
        assert t[i] != t[j];
      }
    }
  }

  ghost predicate InjectiveOn<T(!new), U>(xs: set<T>, f: T -> U) {
    forall x, y :: x in xs && y in xs && f(x) == f(y) ==> x == y
  }

  /** An image is as large as its source exactly when the map is injective there. */
  lemma {:induction false} ImageSizeTellsInjective<T(!new), U>(xs: set<T>, ys: set<U>, f: T -> U)
    requires ys == set x | x in xs :: f(x)
    ensures |ys| <= |xs|
    ensures |ys| == |xs| <==> InjectiveOn(xs, f)
    decreases xs
  {
    if xs != {} {
      var x :| x in xs;
      var rest := set y | y in xs - {x} :: f(y);
      ImageSizeTellsInjective(xs - {x}, rest, f);
      assert ys == rest + {f(x)};
      if f(x) in rest {
        assert ys == rest;
      }
    }
  }

  lemma OneMoreIndex(before: set<int>, all: set<int>, n: nat, holds: bool)
    requires forall i :: i in before ==> i < n
    requires forall i :: i in all <==> i in before || (i == n && holds)
    ensures |all| == |before| + if holds then 1 else 0
  {
    var expected := if holds then before + {n} else before;
    forall i ensures i in all <==> i in expected {
    }
    assert all == expected;
  }

  function Product<T, U>(xs: set<T>, ys: set<U>): set<(T, U)> {
    set x, y | x in xs && y in ys :: (x, y)
  }

  lemma {:induction false} ProductSize<T(!new), U(!new)>(xs: set<T>, ys: set<U>)
    ensures |Product(xs, ys)| == |xs| * |ys|
    decreases xs
  {
    if xs == {} {
      assert Product(xs, ys) == {};
    } else {
      var x :| x in xs;
      var row := set y | y in ys :: (x, y);
      ProductSize(xs - {x}, ys);
      ImageSizeTellsInjective(ys, row, y => (x, y));
      assert Product(xs, ys) == Product(xs - {x}, ys) + row;
      assert Product(xs - {x}, ys) !! row;
      assert |Product(xs, ys)| == (|xs| - 1) * |ys| + |ys|;
    }
  }

  function Range(n: nat): (r: set<int>)
    ensures |r| == n
    ensures forall i :: i in r <==> 0 <= i < n
  {
    if n == 0 then {} else Range(n - 1) + {n - 1}
  }
}
