/** The Holm step-down procedure is closed testing of Bonferroni intersection tests. */
module Holm {
  import opened Counting
  import opened Diagnostics
  import opened Options
  import opened Sorting

  predicate InputValid(p: seq<real>, alpha: real) {
    && 0 < |p| <= MAX_DIAGNOSTIC_CASES
    && 0.0 < alpha < 1.0
    && forall i :: 0 <= i < |p| ==> Probability(p[i])
  }

  // Closed testing.

  /** A non-empty set of hypotheses. */
  ghost predicate Family(p: seq<real>, s: set<int>) {
    s != {} && forall i :: i in s ==> 0 <= i < |p|
  }

  /** The smallest p-value of the set is at most alpha over its size. */
  ghost predicate IntersectionRejected(p: seq<real>, alpha: real, s: set<int>)
    requires Family(p, s)
  {
    exists j :: j in s && p[j] <= alpha / |s| as real
  }

  /** Every set that holds the hypothesis is rejected. */
  ghost predicate ClosedRejects(p: seq<real>, alpha: real, i: int) {
    forall s :: Family(p, s) && i in s ==> IntersectionRejected(p, alpha, s)
  }

  // The procedure.

  function PValueAt(p: seq<real>, i: int): real {
    if 0 <= i < |p| then p[i] else 0.0
  }

  function Indices(n: nat): (r: seq<int>)
    ensures |r| == n && forall i :: 0 <= i < n ==> r[i] == i
  {
    seq(n, i => i)
  }

  /** The hypotheses by p-value, ties in input order. */
  function Ordered(p: seq<real>): seq<int> {
    SortByKey(Indices(|p|), i => PValueAt(p, i))
  }

  ghost predicate OrderOk(p: seq<real>, ordered: seq<int>) {
    && |ordered| == |p|
    && (forall r :: 0 <= r < |ordered| ==> 0 <= ordered[r] < |p|)
    && NoDuplicates(ordered)
    && (forall i :: 0 <= i < |p| ==> i in ordered)
    && (forall r, t :: 0 <= r < t < |ordered| ==> PValueAt(p, ordered[r]) <= PValueAt(p, ordered[t]))
  }

  lemma OrderedOk(p: seq<real>)
    ensures OrderOk(p, Ordered(p))
  {
    var indices, ordered := Indices(|p|), Ordered(p);
    SortSorts(indices, i => PValueAt(p, i));
    assert forall r, t :: 0 <= r < t < |ordered| ==> PValueAt(p, ordered[r]) <= PValueAt(p, ordered[t]);
    hide PValueAt, Ordered;
    SameLength(indices, ordered);
    PermutedList(indices, ordered);
    hide Indices;
    forall i ensures i in ordered <==> 0 <= i < |p| {
      if 0 <= i < |p| {
        assert indices[i] == i;
      }
    }
    assert forall r :: 0 <= r < |ordered| ==> ordered[r] in ordered;
  }

  function Threshold(alpha: real, m: nat, rank: nat): real
    requires rank < m
  {
    alpha / (m - rank) as real
  }

  /** The first rank whose p-value fails its threshold, or the number of hypotheses. */
  ghost predicate FirstFailure(p: seq<real>, alpha: real, ordered: seq<int>, k: nat)
    requires k <= |ordered| == |p|
  {
    && (forall r :: 0 <= r < k ==> PValueAt(p, ordered[r]) <= Threshold(alpha, |p|, r))
    && (k < |p| ==> PValueAt(p, ordered[k]) > Threshold(alpha, |p|, k))
  }

  ghost predicate DecidesBy(decisions: seq<bool>, ordered: seq<int>, k: nat)
    requires k <= |ordered|
  {
    forall i :: 0 <= i < |decisions| ==> (decisions[i] <==> i in ordered[..k])
  }

  /** The decisions in input order; nothing when the input is malformed. */
  method HolmBonferroni(p: seq<real>, alpha: real) returns (result: Option<seq<bool>>)
    ensures result.Some? <==> InputValid(p, alpha)
    ensures result.Some? ==> |result.value| == |p|
    ensures result.Some? ==> forall i :: 0 <= i < |p| ==> (result.value[i] <==> ClosedRejects(p, alpha, i))
  {
    if !InputValid(p, alpha) {
      return None;
    }
    var ordered := Ordered(p);
    OrderedOk(p);
    var decisions := seq(|p|, _ => false);
    var rank := 0;
    while rank < |p|
      invariant 0 <= rank <= |p| == |decisions|
      invariant forall r :: 0 <= r < rank ==> PValueAt(p, ordered[r]) <= Threshold(alpha, |p|, r)
      invariant DecidesBy(decisions, ordered, rank)
    {
      var index := ordered[rank];
      var threshold := Threshold(alpha, |p|, rank);
      if PValueAt(p, index) > threshold {
        break;
      }
      decisions := decisions[index := true];
      assert ordered[..rank + 1] == ordered[..rank] + [index];
      rank := rank + 1;
    }
    hide Ordered, ClosedRejects, InputValid;
    forall i | 0 <= i < |p| ensures decisions[i] <==> ClosedRejects(p, alpha, i) {
      StepDownIsClosed(p, alpha, ordered, rank, i);
    }
    return Some(decisions);
  }

  lemma LateRanks(late: seq<int>, s: set<int>)
    requires NoDuplicates(late) && forall i :: i in s ==> i in late
    ensures |s| <= |late|
  {
    SetSizeTellsDuplicates(late);
    var all := set i | i in late;
    forall i | i in s ensures i in all {
      assert i in late;
    }
    SubsetSize(s, all);
  }

  lemma {:induction false} SubsetSize(some: set<int>, all: set<int>)
    requires some <= all
    ensures |some| <= |all|
  {
    assert all == some + (all - some);
  }

  lemma LargerDenominator(alpha: real, a: nat, b: nat)
    requires alpha > 0.0 && 0 < a <= b
    ensures alpha / b as real <= alpha / a as real
  {
    var x := alpha / b as real;
    assert x * b as real == alpha && x >= 0.0;
    assert x * a as real <= x * b as real;
    AtMostQuotient(x, a as real, alpha);
  }

  lemma AtMostQuotient(x: real, a: real, alpha: real)
    requires a > 0.0 && x * a <= alpha
    ensures x <= alpha / a
  {
    var y := alpha / a;
    assert y * a == alpha;
    assert (y - x) * a >= 0.0;
  }

  ghost function FirstRank(ordered: seq<int>, s: set<int>): (r: nat)
    requires exists i :: i in s && i in ordered
    ensures r < |ordered| && ordered[r] in s
    ensures forall t :: 0 <= t < r ==> ordered[t] !in s
  {
    if ordered[0] in s then 0 else 1 + FirstRank(ordered[1..], s)
  }

  lemma LateMembers(ordered: seq<int>, s: set<int>)
    requires NoDuplicates(ordered) && (forall i :: i in s ==> i in ordered)
    requires exists i :: i in s && i in ordered
    ensures |s| <= |ordered| - FirstRank(ordered, s)
  {
    var first := FirstRank(ordered, s);
    var late := ordered[first..];
    forall i | i in s ensures i in late {
      var t :| 0 <= t < |ordered| && ordered[t] == i;
      assert late[t - first] == i;
    }
    LateRanks(late, s);
  }

  /** A hypothesis passed by the step-down loop is rejected in every set that holds it. */
  lemma PassedIsClosed(p: seq<real>, alpha: real, ordered: seq<int>, k: nat, r: nat, s: set<int>)
    requires alpha > 0.0 && OrderOk(p, ordered) && k <= |p| && FirstFailure(p, alpha, ordered, k)
    requires r < k && Family(p, s) && ordered[r] in s
    ensures IntersectionRejected(p, alpha, s)
  {
    var first := FirstRank(ordered, s);
    LateMembers(ordered, s);
    assert |s| > 0;
    hide NoDuplicates;
    LargerDenominator(alpha, |s|, |p| - first);
    assert PValueAt(p, ordered[first]) <= Threshold(alpha, |p|, first);
  }

  /** From the first failure on, the remaining hypotheses form a set that is not rejected. */
  lemma FailedIsNotClosed(p: seq<real>, alpha: real, ordered: seq<int>, k: nat, r: nat)
    requires OrderOk(p, ordered) && k <= r < |p| && FirstFailure(p, alpha, ordered, k)
    ensures !ClosedRejects(p, alpha, ordered[r])
  {
    var late := ordered[k..];
    var s := set i | i in late;
    SetSizeTellsDuplicates(late);
    assert late[r - k] == ordered[r];
    assert |s| == |p| - k;
    forall j | j in s ensures 0 <= j < |p| && p[j] > alpha / |s| as real {
      var t :| 0 <= t < |late| && late[t] == j;
      assert ordered[k + t] == j;
      assert PValueAt(p, ordered[k]) <= PValueAt(p, ordered[k + t]);
    }
    assert Family(p, s) && !IntersectionRejected(p, alpha, s);
  }

  lemma StepDownIsClosed(p: seq<real>, alpha: real, ordered: seq<int>, k: nat, i: int)
    requires alpha > 0.0 && OrderOk(p, ordered) && k <= |p| && FirstFailure(p, alpha, ordered, k)
    requires 0 <= i < |p|
    ensures i in ordered[..k] <==> ClosedRejects(p, alpha, i)
  {
    assert i in ordered;
    var r :| 0 <= r < |ordered| && ordered[r] == i;
    hide FirstFailure, IntersectionRejected, Family;
    if r < k {
      assert ordered[..k][r] == i;
      forall s | Family(p, s) && i in s ensures IntersectionRejected(p, alpha, s) {
        PassedIsClosed(p, alpha, ordered, k, r, s);
      }
    } else {
      FailedIsNotClosed(p, alpha, ordered, k, r);
    }
  }

  // What closed testing says about the decisions.

  /** Equal p-values get equal decisions. */
  lemma EqualPValues(p: seq<real>, alpha: real, i: int, j: int)
    requires 0 <= i < |p| && 0 <= j < |p| && p[i] == p[j] && ClosedRejects(p, alpha, i)
    ensures ClosedRejects(p, alpha, j)
  {
    forall s | Family(p, s) && j in s ensures IntersectionRejected(p, alpha, s) {
      if i !in s {
        var swapped := s - {j} + {i};
        assert |swapped| == |s| && i in swapped;
        assert Family(p, swapped) && IntersectionRejected(p, alpha, swapped);
        var smallest :| smallest in swapped && p[smallest] <= alpha / |swapped| as real;
        var moved := if smallest == i then j else smallest;
        assert moved in s && p[moved] <= alpha / |s| as real;
      }
    }
  }

  /** Lowering p-values never loses a rejection. */
  lemma Monotone(p: seq<real>, q: seq<real>, alpha: real, i: int)
    requires |p| == |q| && forall j :: 0 <= j < |p| ==> q[j] <= p[j]
    requires ClosedRejects(p, alpha, i)
    ensures ClosedRejects(q, alpha, i)
  {
    forall s | Family(q, s) && i in s ensures IntersectionRejected(q, alpha, s) {
      assert Family(p, s) && IntersectionRejected(p, alpha, s);
      var j :| j in s && p[j] <= alpha / |s| as real;
      assert q[j] <= alpha / |s| as real;
    }
  }

  /** Rejecting a member of a set of hypotheses needs a p-value of at most alpha over its size. */
  lemma FamilyWise(p: seq<real>, alpha: real, t: set<int>, i: int)
    requires Family(p, t) && i in t && ClosedRejects(p, alpha, i)
    ensures exists j :: j in t && p[j] <= alpha / |t| as real
  {
    assert IntersectionRejected(p, alpha, t);
  }

  ghost predicate Permutation(n: nat, order: seq<int>) {
    |order| == n && NoDuplicates(order) && forall i :: 0 <= i < n ==> 0 <= order[i] < n
  }

  /** A rejected hypothesis stays rejected wherever the rearranged input holds it. */
  lemma RearrangedRejects(p: seq<real>, q: seq<real>, order: seq<int>, alpha: real, i: int)
    requires |q| == |p| && Permutation(|p|, order) && forall j :: 0 <= j < |p| ==> q[j] == p[order[j]]
    requires 0 <= i < |p| && ClosedRejects(p, alpha, order[i])
    ensures ClosedRejects(q, alpha, i)
  {
    forall s | Family(q, s) && i in s ensures IntersectionRejected(q, alpha, s) {
      var moved := set j | j in s :: PlaceOf(order, j);
      ImageSizeTellsInjective(s, moved, j => PlaceOf(order, j));
      assert PlaceOf(order, i) in moved;
      assert Family(p, moved) && IntersectionRejected(p, alpha, moved);
      var smallest :| smallest in moved && p[smallest] <= alpha / |moved| as real;
      var j :| j in s && PlaceOf(order, j) == smallest;
      assert q[j] <= alpha / |s| as real;
    }
  }

  function PlaceOf(order: seq<int>, j: int): int {
    if 0 <= j < |order| then order[j] else j
  }

  /** The arrangement that puts everything back. */
  ghost function Inverse(n: nat, order: seq<int>): (back: seq<int>)
    requires Permutation(n, order)
    ensures |back| == n && forall i :: 0 <= i < n ==> 0 <= back[i] < n && order[back[i]] == i
  {
    seq(n, i requires 0 <= i < n => HitBy(n, order, i))
  }

  ghost function HitBy(n: nat, order: seq<int>, i: int): (k: int)
    requires Permutation(n, order) && 0 <= i < n
    ensures 0 <= k < n && order[k] == i
  {
    PermutationHits(n, order, i);
    var k :| 0 <= k < n && order[k] == i;
    k
  }

  lemma PermutationHits(n: nat, order: seq<int>, i: int)
    requires Permutation(n, order) && 0 <= i < n
    ensures i in order
  {
    var places := Range(n);
    SetSizeTellsDuplicates(order);
    var hit := set x | x in order;
    assert hit <= places;
    assert |places| == |hit| + |places - hit|;
    assert places - hit == {} ==> hit == places;
    assert i in places;
  }

  /** Decisions commute with rearranging the input: a hypothesis is rejected exactly if it is rejected
      at its new place. */
  lemma Rearranged(p: seq<real>, q: seq<real>, order: seq<int>, alpha: real, i: int)
    requires |q| == |p| && Permutation(|p|, order) && forall j :: 0 <= j < |p| ==> q[j] == p[order[j]]
    requires 0 <= i < |p|
    ensures ClosedRejects(q, alpha, i) <==> ClosedRejects(p, alpha, order[i])
  {
    var n, back := |p|, Inverse(|p|, order);
    assert Permutation(n, back);
    assert back[order[i]] == i by {
      assert order[back[order[i]]] == order[i];
    }
    hide ClosedRejects;
    if ClosedRejects(p, alpha, order[i]) {
      RearrangedRejects(p, q, order, alpha, i);
    }
    if ClosedRejects(q, alpha, i) {
      RearrangedRejects(q, p, back, alpha, order[i]);
    }
  }
}
