/** Domain means of paired utility deltas, and their bottom tail. */
module Quality {
  import opened Counting
  import opened Diagnostics
  import opened Options
  import opened Sorting
  import opened StringOrder
  import opened Texts

  type Deltas = map<string, seq<real>>

  function Sum(values: seq<real>): real {
    if values == [] then 0.0 else Sum(values[..|values| - 1]) + values[|values| - 1]
  }

  function Mean(values: seq<real>): real
    requires values != []
  {
    Sum(values) / |values| as real
  }

  /** The sum of a quantity over a set of domains. */
  ghost function SumOver(m: map<string, real>, domains: set<string>): real
    requires domains <= m.Keys
    decreases |domains|
  {
    if domains == {} then 0.0
    else
      var d :| d in domains;
      m[d] + SumOver(m, domains - {d})
  }

  lemma {:induction false} SumOverRemove(m: map<string, real>, domains: set<string>, d: string)
    requires domains <= m.Keys && d in domains
    ensures SumOver(m, domains) == m[d] + SumOver(m, domains - {d})
    decreases |domains|
  {
    var first :| first in domains && SumOver(m, domains) == m[first] + SumOver(m, domains - {first});
    if first != d {
      SumOverRemove(m, domains - {first}, d);
      SumOverRemove(m, domains - {d}, first);
      assert domains - {first} - {d} == domains - {d} - {first};
    }
  }

  lemma {:induction false} SumOverUnion(m: map<string, real>, a: set<string>, b: set<string>)
    requires a + b <= m.Keys && a !! b
    ensures SumOver(m, a + b) == SumOver(m, a) + SumOver(m, b)
    decreases |a|
  {
    if a == {} {
      assert a + b == b;
    } else {
      var d :| d in a;
      SumOverRemove(m, a, d);
      SumOverRemove(m, a + b, d);
      assert a + b - {d} == (a - {d}) + b;
      SumOverUnion(m, a - {d}, b);
    }
  }

  function Times(n: nat, x: real): real {
    n as real * x
  }

  lemma TimesOrder(n: nat, x: real, y: real)
    requires n > 0 && Times(n, x) <= Times(n, y)
    ensures x <= y
  {
    assert n as real * (y - x) >= 0.0;
  }

  lemma TimesSplit(a: nat, b: nat, x: real, y: real)
    requires x <= y
    ensures Times(a + b, x) <= Times(a, x) + Times(b, y)
  {
    assert b as real * (y - x) >= 0.0;
  }

  lemma MeanTimes(sum: real, n: nat)
    requires n > 0
    ensures Times(n, sum / n as real) == sum
  {
  }

  lemma OneMore(n: nat, x: real)
    ensures Times(n + 1, x) == Times(n, x) + x && Times(0, x) == 0.0
  {
  }

  // Domains by mean.

  function ValueAt(m: map<string, real>, d: string): real {
    if d in m then m[d] else 0.0
  }

  /** The domains by mean, ties by id. */
  function OrderedDomains(m: map<string, real>): seq<string> {
    SortByKey(SortedKeys(m.Keys), d => ValueAt(m, d))
  }

  ghost predicate Ranked(m: map<string, real>, ordered: seq<string>) {
    && NoDuplicates(ordered)
    && (forall d :: d in ordered <==> d in m)
    && (forall i, j :: 0 <= i < j < |ordered| ==> ValueAt(m, ordered[i]) <= ValueAt(m, ordered[j]))
  }

  /** The order of the report: by mean, and by id where means are equal. */
  ghost predicate Before(m: map<string, real>, a: string, b: string) {
    ValueAt(m, a) < ValueAt(m, b) || (ValueAt(m, a) == ValueAt(m, b) && KeyLeq(a, b))
  }

  lemma OrderedBefore(m: map<string, real>)
    ensures forall i, j :: 0 <= i < j < |OrderedDomains(m)| ==> Before(m, OrderedDomains(m)[i], OrderedDomains(m)[j])
  {
    SortedKeysSorted(m.Keys);
    var value := d => ValueAt(m, d);
    SortStable(SortedKeys(m.Keys), value, KeyLeq);
    OrderedSorts(m);
    hide SortedKeys, SortByKey, KeyLeq, ValueAt;
    var ordered := OrderedDomains(m);
    assert TiesKept(ordered, value, KeyLeq);
    forall i, j | 0 <= i < j < |ordered| ensures Before(m, ordered[i], ordered[j]) {
      assert value(ordered[i]) == ValueAt(m, ordered[i]) && value(ordered[j]) == ValueAt(m, ordered[j]);
    }
  }

  function Members(domains: seq<string>): set<string> {
    set d | d in domains
  }

  lemma OrderedSorts(m: map<string, real>)
    ensures multiset(SortedKeys(m.Keys)) == multiset(OrderedDomains(m))
    ensures forall i, j :: 0 <= i < j < |OrderedDomains(m)| ==>
      ValueAt(m, OrderedDomains(m)[i]) <= ValueAt(m, OrderedDomains(m)[j])
  {
    SortSorts(SortedKeys(m.Keys), d => ValueAt(m, d));
    hide SortedKeys, SortByKey;
  }

  lemma OrderedRanked(m: map<string, real>)
    ensures Ranked(m, OrderedDomains(m)) && |OrderedDomains(m)| == |m|
  {
    hide OrderedDomains, SortedKeys, ValueAt, NoDuplicates;
    OrderedSorts(m);
    KeysDistinct(m.Keys);
    PermutedList(SortedKeys(m.Keys), OrderedDomains(m));
    ListSize(m, OrderedDomains(m));
  }

  lemma ListSize(m: map<string, real>, ids: seq<string>)
    requires NoDuplicates(ids) && forall d :: d in ids <==> d in m
    ensures |ids| == |m|
  {
    SetSizeTellsDuplicates(ids);
    assert (set d | d in ids) == m.Keys;
    assert |m.Keys| == |m|;
  }

  lemma PrefixSize(m: map<string, real>, ordered: seq<string>, k: nat)
    requires Ranked(m, ordered) && k <= |ordered|
    ensures Members(ordered[..k]) <= m.Keys && |Members(ordered[..k])| == k
  {
    SetSizeTellsDuplicates(ordered[..k]);
    assert Members(ordered[..k]) == set d | d in ordered[..k];
    hide ValueAt;
    forall d | d in ordered[..k] ensures d in ordered {
    }
  }

  lemma PrefixBounds(m: map<string, real>, ordered: seq<string>, k: nat, d: string)
    requires Ranked(m, ordered) && 0 < k <= |ordered| && d in Members(ordered[..k])
    ensures d in m && ValueAt(m, ordered[0]) <= m[d] <= ValueAt(m, ordered[k - 1])
  {
    hide NoDuplicates;
    var prefix := ordered[..k];
    assert d in prefix;
    var i :| 0 <= i < |prefix| && prefix[i] == d;
    assert ordered[i] == d && ordered[i] in ordered;
    assert i > 0 ==> ValueAt(m, ordered[0]) <= ValueAt(m, ordered[i]);
    assert i < k - 1 ==> ValueAt(m, ordered[i]) <= ValueAt(m, ordered[k - 1]);
  }

  lemma RestBounds(m: map<string, real>, ordered: seq<string>, k: nat, d: string)
    requires Ranked(m, ordered) && 0 < k <= |ordered| && d in m && d !in Members(ordered[..k])
    ensures ValueAt(m, ordered[k - 1]) <= m[d]
  {
    hide NoDuplicates;
    var rest := ordered[k..];
    assert d in ordered && d !in ordered[..k];
    assert ordered == ordered[..k] + rest && d in rest;
    var i :| 0 <= i < |rest| && rest[i] == d;
    assert ordered[k + i] == d;
    assert ValueAt(m, ordered[k - 1]) <= ValueAt(m, ordered[k + i]);
  }

  /** No other set of as many domains has a smaller sum. */
  lemma PrefixIsLeast(m: map<string, real>, ordered: seq<string>, k: nat, other: set<string>)
    requires Ranked(m, ordered) && 0 < k <= |ordered|
    requires other <= m.Keys && |other| == k
    ensures Members(ordered[..k]) <= m.Keys && SumOver(m, Members(ordered[..k])) <= SumOver(m, other)
  {
    hide Ranked, Members, ValueAt;
    PrefixSize(m, ordered, k);
    forall d | d in Members(ordered[..k]) {
      PrefixBounds(m, ordered, k, d);
    }
    forall d | d in m && d !in Members(ordered[..k]) {
      RestBounds(m, ordered, k, d);
    }
    Exchange(m, Members(ordered[..k]), other, ValueAt(m, ordered[k - 1]));
  }

  lemma Exchange(m: map<string, real>, low: set<string>, other: set<string>, t: real)
    requires low <= m.Keys && other <= m.Keys && |low| == |other|
    requires (forall d :: d in low ==> m[d] <= t) && (forall d :: d in m && d !in low ==> t <= m[d])
    ensures SumOver(m, low) <= SumOver(m, other)
  {
    hide SumOver, Times;
    var shared, left, right := low * other, low - other, other - low;
    assert |low| == |shared| + |left| by { assert low == shared + left; }
    assert |other| == |shared| + |right| by { assert other == shared + right; }
    SumOverUnion(m, shared, left);
    SumOverUnion(m, shared, right);
    assert low == shared + left && other == shared + right;
    UpperBound(m, left, t);
    LowerBound(m, right, t);
  }

  lemma {:induction false} UpperBound(m: map<string, real>, domains: set<string>, high: real)
    requires domains <= m.Keys && forall d :: d in domains ==> m[d] <= high
    ensures SumOver(m, domains) <= Times(|domains|, high)
    decreases |domains|
  {
    hide Times;
    if domains == {} {
      OneMore(0, high);
    } else {
      var d :| d in domains;
      SumOverRemove(m, domains, d);
      UpperBound(m, domains - {d}, high);
      OneMore(|domains - {d}|, high);
    }
  }

  lemma {:induction false} LowerBound(m: map<string, real>, domains: set<string>, low: real)
    requires domains <= m.Keys && forall d :: d in domains ==> low <= m[d]
    ensures Times(|domains|, low) <= SumOver(m, domains)
    decreases |domains|
  {
    hide Times;
    if domains == {} {
      OneMore(0, low);
    } else {
      var d :| d in domains;
      SumOverRemove(m, domains, d);
      LowerBound(m, domains - {d}, low);
      OneMore(|domains - {d}|, low);
    }
  }

  // The summary.

  datatype Summary = Summary(
    domainMeans: map<string, real>,
    caseCount: nat,
    microDelta: real,
    macroDelta: real,
    worstDomain: string,
    worstDelta: real,
    bottomCount: nat,
    bottomDomains: seq<string>,
    bottomCvar: real)

  function Pooled(deltas: Deltas, ids: seq<string>, n: nat): seq<real>
    requires n <= |ids| && forall id :: id in ids ==> id in deltas
  {
    if n == 0 then [] else Pooled(deltas, ids, n - 1) + deltas[ids[n - 1]]
  }

  /** All the deltas, domain by domain in order of id. */
  function PooledAll(deltas: Deltas): seq<real> {
    SortedKeysSorted(deltas.Keys);
    Pooled(deltas, SortedKeys(deltas.Keys), |SortedKeys(deltas.Keys)|)
  }

  predicate DeltasValid(values: seq<real>) {
    values != [] && forall i :: 0 <= i < |values| ==> -1.0 <= values[i] <= 1.0
  }

  predicate IdsValid(deltas: Deltas) {
    forall id :: id in deltas ==> !Blank(id)
  }

  ghost predicate InputValid(deltas: Deltas, fraction: real) {
    && 0 < |deltas| <= MAX_DIAGNOSTIC_CASES
    && 0.0 < fraction <= 1.0
    && IdsValid(deltas)
    && (forall id :: id in deltas ==> DeltasValid(deltas[id]))
    && |PooledAll(deltas)| <= MAX_DIAGNOSTIC_CASES
  }

  function MeansOf(deltas: Deltas): map<string, real>
    requires forall id :: id in deltas ==> DeltasValid(deltas[id])
  {
    map id | id in deltas :: assert DeltasValid(deltas[id]); Mean(deltas[id])
  }

  function Ceiling(x: real): int {
    -(-x).Floor
  }

  function Values(m: map<string, real>, ids: seq<string>): seq<real> {
    seq(|ids|, i requires 0 <= i < |ids| => ValueAt(m, ids[i]))
  }

  lemma {:induction false} ListedSum(m: map<string, real>, ids: seq<string>)
    requires NoDuplicates(ids) && forall d :: d in ids ==> d in m
    ensures Members(ids) <= m.Keys && Sum(Values(m, ids)) == SumOver(m, Members(ids))
  {
    if ids != [] {
      var init, last := ids[..|ids| - 1], ids[|ids| - 1];
      assert Values(m, ids)[..|ids| - 1] == Values(m, init);
      assert ids == init + [last];
      assert Members(ids) - {last} == Members(init);
      ListedSum(m, init);
      SumOverRemove(m, Members(ids), last);
    }
  }

  /** The mean of the bottom domains is the least over all sets of as many domains, and lies between
      the worst domain and the macro mean. */
  ghost predicate BottomOk(m: map<string, real>, summary: Summary) {
    var bottom := Members(summary.bottomDomains);
    && bottom <= m.Keys && |bottom| == summary.bottomCount > 0
    && Times(summary.bottomCount, summary.bottomCvar) == SumOver(m, bottom)
    && (forall other :: other <= m.Keys && |other| == summary.bottomCount ==> SumOver(m, bottom) <= SumOver(m, other))
    && summary.worstDomain in m && summary.worstDelta == m[summary.worstDomain]
    && (forall d :: d in m ==> summary.worstDelta <= m[d])
    && Times(|m|, summary.macroDelta) == SumOver(m, m.Keys)
    && summary.worstDelta <= summary.bottomCvar <= summary.macroDelta
  }

  /** The bottom domains are listed in order, everything else comes after them, and the first is the worst. */
  ghost predicate ListedFirst(m: map<string, real>, summary: Summary) {
    var bottom := summary.bottomDomains;
    && |bottom| == summary.bottomCount > 0 && NoDuplicates(bottom)
    && (forall i, j :: 0 <= i < j < |bottom| ==> Before(m, bottom[i], bottom[j]))
    && (forall i, d :: 0 <= i < |bottom| && d in m && d !in bottom ==> Before(m, bottom[i], d))
    && summary.worstDomain == bottom[0]
  }

  lemma PrefixListed(m: map<string, real>, ordered: seq<string>, summary: Summary)
    requires Ranked(m, ordered) && 0 < summary.bottomCount <= |ordered|
    requires forall i, j :: 0 <= i < j < |ordered| ==> Before(m, ordered[i], ordered[j])
    requires summary.bottomDomains == ordered[..summary.bottomCount] && summary.worstDomain == ordered[0]
    ensures ListedFirst(m, summary)
  {
    var bottom := summary.bottomDomains;
    hide Before, ValueAt;
    forall i, d | 0 <= i < |bottom| && d in m && d !in bottom ensures Before(m, bottom[i], d) {
      var rest := ordered[|bottom|..];
      assert ordered == bottom + rest && d in ordered;
      var j :| 0 <= j < |rest| && rest[j] == d;
    }
  }

  /** Every mean of the rest is at least the bottom's, so the whole cannot be below it. */
  lemma BottomBelowMacro(m: map<string, real>, bottom: set<string>, t: real, cvar: real)
    requires bottom <= m.Keys && bottom != {}
    requires (forall d :: d in bottom ==> m[d] <= t) && (forall d :: d in m && d !in bottom ==> t <= m[d])
    requires Times(|bottom|, cvar) == SumOver(m, bottom)
    ensures Times(|m|, cvar) <= SumOver(m, m.Keys)
  {
    hide SumOver, Times;
    var rest := m.Keys - bottom;
    assert m.Keys == bottom + rest;
    SumOverUnion(m, bottom, rest);
    UpperBound(m, bottom, t);
    LowerBound(m, rest, t);
    TimesOrder(|bottom|, cvar, t);
    assert |m| == |bottom| + |rest|;
    TimesSplit(|bottom|, |rest|, cvar, t);
  }

  ghost predicate ValidOn(deltas: Deltas, ids: seq<string>) {
    forall id :: id in ids ==> id in deltas && DeltasValid(deltas[id])
  }

  ghost predicate MeansFor(deltas: Deltas, ids: seq<string>, found: map<string, real>) {
    && (forall id :: id in found <==> id in ids)
    && (forall id :: id in found ==> id in deltas && deltas[id] != [] && found[id] == Mean(deltas[id]))
  }

  lemma DomainAdded(deltas: Deltas, ids: seq<string>, n: nat, found: map<string, real>)
    requires n < |ids| && ids[n] in deltas && ValidOn(deltas, ids[..n]) && MeansFor(deltas, ids[..n], found)
    ensures DeltasValid(deltas[ids[n]]) <==> ValidOn(deltas, ids[..n + 1])
    ensures DeltasValid(deltas[ids[n]]) ==> deltas[ids[n]] != []
    ensures DeltasValid(deltas[ids[n]]) ==> MeansFor(deltas, ids[..n + 1], found[ids[n] := Mean(deltas[ids[n]])])
  {
    assert ids[..n + 1] == ids[..n] + [ids[n]];
    hide Mean;
  }

  lemma DomainsDone(deltas: Deltas, ids: seq<string>, found: map<string, real>)
    requires (forall id :: id in ids <==> id in deltas) && ValidOn(deltas, ids) && MeansFor(deltas, ids, found)
    ensures (forall id :: id in deltas ==> DeltasValid(deltas[id])) && found == MeansOf(deltas)
  {
    hide Mean, DeltasValid;
  }

  lemma OneInvalid(deltas: Deltas, ids: seq<string>, n: nat)
    requires n <= |ids| && (forall id :: id in ids <==> id in deltas) && !ValidOn(deltas, ids[..n])
    ensures !InputValid(deltas, 1.0)
  {
    hide PooledAll, DeltasValid;
    var id :| id in ids[..n] && !(id in deltas && DeltasValid(deltas[id]));
    assert id in ids;
  }

  method SummarizeDomains(deltas: Deltas) returns (means: Option<map<string, real>>, pooled: seq<real>)
    requires 0 < |deltas| <= MAX_DIAGNOSTIC_CASES
    ensures means.Some? <==> InputValid(deltas, 1.0)
    ensures means.Some? ==> means.value == MeansOf(deltas) && pooled == PooledAll(deltas)
  {
    var ids, found := SortedKeys(deltas.Keys), map[];
    SortedKeysSorted(deltas.Keys);
    hide KeyLeq, Mean, IdsValid, SortedKeys, DeltasValid, ValidOn, MeansFor, InputValid;
    NothingYet(deltas);
    pooled := [];
    if !IdsValid(deltas) {
      BlankId(deltas);
      return None, pooled;
    }
    for n := 0 to |ids|
      invariant pooled == Pooled(deltas, ids, n) && |pooled| <= MAX_DIAGNOSTIC_CASES
      invariant ValidOn(deltas, ids[..n]) && MeansFor(deltas, ids[..n], found)
    {
      var values := deltas[ids[n]];
      DomainAdded(deltas, ids, n, found);
      if !DeltasValid(values) {
        OneInvalid(deltas, ids, n + 1);
        return None, pooled;
      }
      PooledGrows(deltas, ids, n + 1, |ids|);
      pooled := pooled + values;
      if |pooled| > MAX_DIAGNOSTIC_CASES {
        TooMany(deltas);
        return None, pooled;
      }
      found := found[ids[n] := Mean(values)];
    }
    assert ids[..|ids|] == ids;
    DomainsDone(deltas, ids, found);
    AllAccepted(deltas);
    means := Some(found);
  }

  lemma NothingYet(deltas: Deltas)
    ensures ValidOn(deltas, []) && MeansFor(deltas, [], map[])
  {
  }

  lemma BlankId(deltas: Deltas)
    requires !IdsValid(deltas)
    ensures !InputValid(deltas, 1.0)
  {
    hide PooledAll, DeltasValid, IdsValid;
  }

  lemma TooMany(deltas: Deltas)
    requires |PooledAll(deltas)| > MAX_DIAGNOSTIC_CASES
    ensures !InputValid(deltas, 1.0)
  {
  }

  lemma AllAccepted(deltas: Deltas)
    requires 0 < |deltas| <= MAX_DIAGNOSTIC_CASES && |PooledAll(deltas)| <= MAX_DIAGNOSTIC_CASES
    requires IdsValid(deltas)
    requires forall id :: id in deltas ==> DeltasValid(deltas[id])
    ensures InputValid(deltas, 1.0)
  {
  }

  lemma {:induction false} PooledGrows(deltas: Deltas, ids: seq<string>, n: nat, k: nat)
    requires n <= k <= |ids| && forall id :: id in ids ==> id in deltas
    ensures |Pooled(deltas, ids, n)| <= |Pooled(deltas, ids, k)|
    decreases k
  {
    if n < k {
      PooledGrows(deltas, ids, n, k - 1);
    }
  }

  lemma CeilingOk(x: real)
    ensures x <= Ceiling(x) as real < x + 1.0
  {
  }

  lemma FractionOnly(deltas: Deltas, fraction: real)
    ensures InputValid(deltas, fraction) <==> InputValid(deltas, 1.0) && 0.0 < fraction <= 1.0
    ensures InputValid(deltas, 1.0) ==>
      0 < |deltas| <= MAX_DIAGNOSTIC_CASES && forall id :: id in deltas ==> DeltasValid(deltas[id])
  {
    hide PooledAll, DeltasValid;
  }

  lemma MeansSize(deltas: Deltas)
    requires forall id :: id in deltas ==> DeltasValid(deltas[id])
    ensures |MeansOf(deltas)| == |deltas|
  {
    assert MeansOf(deltas).Keys == deltas.Keys;
    assert |MeansOf(deltas).Keys| == |MeansOf(deltas)| && |deltas.Keys| == |deltas|;
  }

  lemma {:induction false} PooledNotEmpty(deltas: Deltas)
    requires InputValid(deltas, 1.0)
    ensures PooledAll(deltas) != []
  {
    var ids := SortedKeys(deltas.Keys);
    SortedKeysSorted(deltas.Keys);
    hide SortedKeys, KeyLeq;
    assert deltas.Keys != {};
    var some :| some in deltas;
    assert some in ids && DeltasValid(deltas[ids[0]]);
    assert Pooled(deltas, ids, 1) == Pooled(deltas, ids, 0) + deltas[ids[0]];
    PooledGrows(deltas, ids, 1, |ids|);
  }

  method QualityDistributionSummary(deltas: Deltas, fraction: real) returns (result: Option<Summary>)
    ensures result.Some? <==> InputValid(deltas, fraction)
    ensures result.Some? ==> (forall id :: id in deltas ==> DeltasValid(deltas[id]))
    ensures result.Some? ==> PooledAll(deltas) != [] && result.value.microDelta == Mean(PooledAll(deltas))
    ensures result.Some? ==> result.value.domainMeans == MeansOf(deltas)
    ensures result.Some? ==> result.value.caseCount == |PooledAll(deltas)|
    ensures result.Some? ==> BottomOk(MeansOf(deltas), result.value) && ListedFirst(MeansOf(deltas), result.value)
    ensures result.Some? ==> RoundedUp(|deltas|, fraction, result.value.bottomCount)
  {
    FractionOnly(deltas, fraction);
    hide InputValid, DeltasValid, MeansOf, Mean, PooledAll, OrderedDomains, Values, BottomOk, ValueAt, Ranked;
    hide RoundedUp, BottomCount, ListedFirst, Before;
    if |deltas| == 0 || |deltas| > MAX_DIAGNOSTIC_CASES || fraction <= 0.0 || fraction > 1.0 {
      return None;
    }
    var found, pooled := SummarizeDomains(deltas);
    if found.None? {
      return None;
    }
    var means := found.value;
    MeansSize(deltas);
    PooledNotEmpty(deltas);
    var ordered := OrderedDomains(means);
    OrderedRanked(means);
    OrderedBefore(means);
    CountInRange(|ordered|, fraction);
    var bottomCount := BottomCount(|ordered|, fraction);
    var bottom := ordered[..bottomCount];
    var summary := Summary(
      means, |pooled|, Mean(pooled), Sum(Values(means, ordered)) / |means| as real,
      ordered[0], ValueAt(means, ordered[0]), bottomCount, bottom, Sum(Values(means, bottom)) / bottomCount as real);
    SummaryOk(means, ordered, summary);
    PrefixListed(means, ordered, summary);
    return Some(summary);
  }

  /** The count is the given fraction of the domains, rounded up. */
  ghost predicate RoundedUp(n: nat, fraction: real, count: int) {
    Times(n, fraction) <= count as real < Times(n, fraction) + 1.0
  }

  function BottomCount(n: nat, fraction: real): int {
    var exact := Ceiling(Times(n, fraction));
    if exact >= 1 then exact else 1
  }

  lemma CountInRange(n: nat, fraction: real)
    requires n > 0 && 0.0 < fraction <= 1.0
    ensures 1 <= BottomCount(n, fraction) <= n
    ensures RoundedUp(n, fraction, BottomCount(n, fraction))
  {
    CeilingOk(Times(n, fraction));
    assert 0.0 < n as real * fraction <= n as real;
  }

  lemma SummaryOk(m: map<string, real>, ordered: seq<string>, summary: Summary)
    requires Ranked(m, ordered) && |ordered| == |m| && 0 < summary.bottomCount <= |ordered|
    requires summary.bottomDomains == ordered[..summary.bottomCount]
    requires summary.worstDomain == ordered[0] && summary.worstDelta == ValueAt(m, ordered[0])
    requires summary.macroDelta == Sum(Values(m, ordered)) / |m| as real
    requires summary.bottomCvar == Sum(Values(m, summary.bottomDomains)) / summary.bottomCount as real
    ensures BottomOk(m, summary)
  {
    var k, bottom := summary.bottomCount, Members(summary.bottomDomains);
    hide Ranked, Members, Values, Sum, SumOver, NoDuplicates, Times;
    PrefixSize(m, ordered, k);
    PrefixSum(m, ordered, k);
    PrefixSum(m, ordered, |ordered|);
    WholePrefix(m, ordered);
    WorstFirst(m, ordered);
    forall other | other <= m.Keys && |other| == k ensures SumOver(m, bottom) <= SumOver(m, other) {
      PrefixIsLeast(m, ordered, k, other);
    }
    MeanTimes(SumOver(m, bottom), k);
    MeanTimes(SumOver(m, m.Keys), |m|);
    BottomBetween(m, ordered, k, summary.bottomCvar);
  }

  lemma PrefixSum(m: map<string, real>, ordered: seq<string>, k: nat)
    requires Ranked(m, ordered) && k <= |ordered|
    ensures Members(ordered[..k]) <= m.Keys && Sum(Values(m, ordered[..k])) == SumOver(m, Members(ordered[..k]))
  {
    assert NoDuplicates(ordered[..k]);
    forall d | d in ordered[..k] ensures d in m {
      assert d in ordered;
    }
    ListedSum(m, ordered[..k]);
  }

  lemma WholePrefix(m: map<string, real>, ordered: seq<string>)
    requires Ranked(m, ordered)
    ensures ordered[..|ordered|] == ordered && Members(ordered) == m.Keys
  {
  }

  lemma WorstFirst(m: map<string, real>, ordered: seq<string>)
    requires Ranked(m, ordered) && ordered != []
    ensures ordered[0] in m && forall d :: d in m ==> ValueAt(m, ordered[0]) <= m[d]
  {
    assert ordered[0] in ordered;
    forall d | d in m ensures ValueAt(m, ordered[0]) <= m[d] {
      assert d in ordered;
    }
  }

  lemma BottomBetween(m: map<string, real>, ordered: seq<string>, k: nat, cvar: real)
    requires Ranked(m, ordered) && |ordered| == |m| && 0 < k <= |ordered|
    requires Members(ordered[..k]) <= m.Keys && Times(k, cvar) == SumOver(m, Members(ordered[..k]))
    ensures ValueAt(m, ordered[0]) <= cvar <= SumOver(m, m.Keys) / |m| as real
  {
    hide Ranked, Members, SumOver, ValueAt, Times;
    var bottom := Members(ordered[..k]);
    PrefixSize(m, ordered, k);
    forall d | d in bottom {
      PrefixBounds(m, ordered, k, d);
    }
    forall d | d in m && d !in bottom {
      RestBounds(m, ordered, k, d);
    }
    assert bottom != {};
    LowerBound(m, bottom, ValueAt(m, ordered[0]));
    TimesOrder(k, ValueAt(m, ordered[0]), cvar);
    BottomBelowMacro(m, bottom, ValueAt(m, ordered[k - 1]), cvar);
    MeanTimes(SumOver(m, m.Keys), |m|);
    TimesOrder(|m|, cvar, SumOver(m, m.Keys) / |m| as real);
  }

  // What the means stand for.

  function Totals(deltas: Deltas): map<string, real> {
    map id | id in deltas :: Sum(deltas[id])
  }

  function Sizes(deltas: Deltas): map<string, real> {
    map id | id in deltas :: |deltas[id]| as real
  }

  lemma {:induction false} SumConcat(a: seq<real>, b: seq<real>)
    ensures Sum(a + b) == Sum(a) + Sum(b)
    decreases |b|
  {
    if b == [] {
      assert a + b == a;
    } else {
      SumConcat(a, b[..|b| - 1]);
      assert (a + b)[..|a + b| - 1] == a + b[..|b| - 1];
    }
  }

  lemma {:induction false} PooledSums(deltas: Deltas, ids: seq<string>, n: nat)
    requires n <= |ids| && forall id :: id in ids ==> id in deltas
    ensures Sum(Pooled(deltas, ids, n)) == Sum(Values(Totals(deltas), ids[..n]))
    ensures |Pooled(deltas, ids, n)| as real == Sum(Values(Sizes(deltas), ids[..n]))
  {
    if n > 0 {
      var before, all, id := ids[..n - 1], ids[..n], ids[n - 1];
      PooledSums(deltas, ids, n - 1);
      SumConcat(Pooled(deltas, ids, n - 1), deltas[id]);
      assert all == before + [id];
      assert Values(Totals(deltas), all) == Values(Totals(deltas), before) + [Sum(deltas[id])];
      assert Values(Sizes(deltas), all) == Values(Sizes(deltas), before) + [|deltas[id]| as real];
      SumConcat(Values(Totals(deltas), before), [Sum(deltas[id])]);
      SumConcat(Values(Sizes(deltas), before), [|deltas[id]| as real]);
      SumOne(Sum(deltas[id]));
      SumOne(|deltas[id]| as real);
    }
  }

  lemma SumOne(x: real)
    ensures Sum([x]) == x
  {
  }

  /** A domain's mean stands for the sum of its cases, and the micro mean weighs every domain by its size: both
      account for every single delta. */
  lemma MeansAddUp(deltas: Deltas)
    requires InputValid(deltas, 1.0)
    ensures forall id :: id in deltas ==>
      deltas[id] != [] && id in MeansOf(deltas) && Times(|deltas[id]|, MeansOf(deltas)[id]) == Sum(deltas[id])
    ensures PooledAll(deltas) != []
      && Times(|PooledAll(deltas)|, Mean(PooledAll(deltas))) == SumOver(Totals(deltas), deltas.Keys)
    ensures |PooledAll(deltas)| as real == SumOver(Sizes(deltas), deltas.Keys)
  {
    FractionOnly(deltas, 1.0);
    PooledNotEmpty(deltas);
    PooledAddUp(deltas);
    hide InputValid, Sum, Times, Totals, Sizes, PooledAll, SumOver;
    forall id | id in deltas
      ensures deltas[id] != [] && id in MeansOf(deltas) && Times(|deltas[id]|, MeansOf(deltas)[id]) == Sum(deltas[id])
    {
      assert DeltasValid(deltas[id]);
      MeanTimes(Sum(deltas[id]), |deltas[id]|);
    }
    MeanTimes(Sum(PooledAll(deltas)), |PooledAll(deltas)|);
  }

  lemma PooledAddUp(deltas: Deltas)
    ensures Totals(deltas).Keys == deltas.Keys && Sizes(deltas).Keys == deltas.Keys
    ensures Sum(PooledAll(deltas)) == SumOver(Totals(deltas), deltas.Keys)
    ensures |PooledAll(deltas)| as real == SumOver(Sizes(deltas), deltas.Keys)
  {
    var ids := SortedKeys(deltas.Keys);
    SortedKeysSorted(deltas.Keys);
    KeysDistinct(deltas.Keys);
    assert Members(ids) == deltas.Keys && ids[..|ids|] == ids;
    hide SortedKeys, KeyLeq, Sum, SumOver, NoDuplicates;
    PooledSums(deltas, ids, |ids|);
    ListedSum(Totals(deltas), ids);
    ListedSum(Sizes(deltas), ids);
  }
}
