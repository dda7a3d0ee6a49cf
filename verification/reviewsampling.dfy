/** Round-robin sampling of review cases over domains. */
module ReviewSampling {
  import opened Counting

  /** The cases of each domain, in the order in which they are to be drawn. */
  type Groups = map<string, seq<string>>

  /** A domain and the round in which it was drawn. */
  type Pick = (string, nat)

  predicate Known(groups: Groups, domains: seq<string>) {
    forall d :: d in domains ==> d in groups
  }

  /** The picks of one round: every domain that still has a case. */
  function Row(groups: Groups, domains: seq<string>, r: nat): seq<Pick>
    requires Known(groups, domains)
  {
    if domains == [] then []
    else
      var before := Row(groups, domains[..|domains| - 1], r);
      var d := domains[|domains| - 1];
      if r < |groups[d]| then before + [(d, r)] else before
  }

  function Rounds(groups: Groups, domains: seq<string>, n: nat): seq<Pick>
    requires Known(groups, domains)
  {
    if n == 0 then [] else Rounds(groups, domains, n - 1) + Row(groups, domains, n - 1)
  }

  function Longest(groups: Groups, domains: seq<string>): nat
    requires Known(groups, domains)
  {
    if domains == [] then 0
    else
      var before, own := Longest(groups, domains[..|domains| - 1]), |groups[domains[|domains| - 1]]|;
      if own > before then own else before
  }

  /** All picks in order. */
  function AllPicks(groups: Groups, domains: seq<string>): seq<Pick>
    requires Known(groups, domains)
  {
    Rounds(groups, domains, Longest(groups, domains))
  }

  predicate GoodPick(groups: Groups, pick: Pick) {
    pick.0 in groups && pick.1 < |groups[pick.0]|
  }

  function CaseOf(groups: Groups, pick: Pick): string
    requires GoodPick(groups, pick)
  {
    groups[pick.0][pick.1]
  }

  // Rows.

  lemma {:induction false} RowHas(groups: Groups, domains: seq<string>, r: nat, d: string, t: nat)
    requires Known(groups, domains)
    ensures (d, t) in Row(groups, domains, r) <==> t == r && d in domains && r < |groups[d]|
  {
    if domains != [] {
      assert domains == domains[..|domains| - 1] + [domains[|domains| - 1]];
      RowHas(groups, domains[..|domains| - 1], r, d, t);
    }
  }

  lemma {:induction false} RowDistinct(groups: Groups, domains: seq<string>, r: nat)
    requires Known(groups, domains) && NoDuplicates(domains)
    ensures NoDuplicates(Row(groups, domains, r))
  {
    if domains != [] {
      var init, d := domains[..|domains| - 1], domains[|domains| - 1];
      RowDistinct(groups, init, r);
      RowHas(groups, init, r, d, r);
      assert d !in init;
    }
  }

  lemma {:induction false} LongestBounds(groups: Groups, domains: seq<string>, d: string)
    requires Known(groups, domains) && d in domains
    ensures |groups[d]| <= Longest(groups, domains)
  {
    if d != domains[|domains| - 1] {
      assert domains == domains[..|domains| - 1] + [domains[|domains| - 1]];
      LongestBounds(groups, domains[..|domains| - 1], d);
    }
  }

  /** A round without picks is the last: no domain has that many cases. */
  lemma EmptyRowEnds(groups: Groups, domains: seq<string>, r: nat, later: nat)
    requires Known(groups, domains) && Row(groups, domains, r) == [] && r <= later
    ensures Row(groups, domains, later) == []
  {
    if Row(groups, domains, later) != [] {
      var pick := Row(groups, domains, later)[0];
      assert (pick.0, pick.1) in Row(groups, domains, later);
      RowHas(groups, domains, later, pick.0, pick.1);
      RowHas(groups, domains, r, pick.0, r);
    }
  }

  lemma {:induction false} EmptyRowsAdd(groups: Groups, domains: seq<string>, r: nat, n: nat)
    requires Known(groups, domains) && Row(groups, domains, r) == [] && r <= n
    ensures Rounds(groups, domains, n) == Rounds(groups, domains, r)
    decreases n
  {
    if r < n {
      EmptyRowsAdd(groups, domains, r, n - 1);
      EmptyRowEnds(groups, domains, r, n - 1);
    }
  }

  lemma {:induction false} RoundsPrefix(groups: Groups, domains: seq<string>, r: nat, n: nat)
    requires Known(groups, domains) && r <= n
    ensures Rounds(groups, domains, r) <= Rounds(groups, domains, n)
    decreases n
  {
    hide Row;
    if r < n {
      RoundsPrefix(groups, domains, r, n - 1);
    }
  }

  /** Past the longest group every row is empty. */
  lemma RoundsSaturate(groups: Groups, domains: seq<string>, n: nat)
    requires Known(groups, domains) && n >= Longest(groups, domains)
    ensures Rounds(groups, domains, n) == AllPicks(groups, domains)
  {
    var last := Longest(groups, domains);
    if Row(groups, domains, last) != [] {
      var pick := Row(groups, domains, last)[0];
      assert (pick.0, pick.1) in Row(groups, domains, last);
      RowHas(groups, domains, last, pick.0, pick.1);
      LongestBounds(groups, domains, pick.0);
    }
    EmptyRowsAdd(groups, domains, last, n);
  }

  lemma RoundsWithin(groups: Groups, domains: seq<string>, n: nat)
    requires Known(groups, domains)
    ensures Rounds(groups, domains, n) <= AllPicks(groups, domains)
  {
    if n <= Longest(groups, domains) {
      RoundsPrefix(groups, domains, n, Longest(groups, domains));
    } else {
      RoundsSaturate(groups, domains, n);
    }
  }

  // The picks are all the cases, each once.

  lemma {:induction false} RoundsHave(groups: Groups, domains: seq<string>, n: nat, d: string, t: nat)
    requires Known(groups, domains)
    ensures (d, t) in Rounds(groups, domains, n) <==> t < n && d in domains && t < |groups[d]|
  {
    if n > 0 {
      RoundsHave(groups, domains, n - 1, d, t);
      RowHas(groups, domains, n - 1, d, t);
      hide Row;
    }
  }

  ghost predicate Apart(a: seq<Pick>, b: seq<Pick>) {
    forall i, j :: 0 <= i < |a| && 0 <= j < |b| ==> a[i] != b[j]
  }

  lemma {:induction false} RoundsDistinct(groups: Groups, domains: seq<string>, n: nat)
    requires Known(groups, domains) && NoDuplicates(domains)
    ensures NoDuplicates(Rounds(groups, domains, n))
  {
    if n > 0 {
      RoundsDistinct(groups, domains, n - 1);
      RowDistinct(groups, domains, n - 1);
      RowIsNew(groups, domains, n - 1);
      JoinDistinct(Rounds(groups, domains, n - 1), Row(groups, domains, n - 1));
      hide Row, Apart, NoDuplicates;
    }
  }

  lemma JoinDistinct(before: seq<Pick>, row: seq<Pick>)
    requires NoDuplicates(before) && NoDuplicates(row)
    requires Apart(before, row)
    ensures NoDuplicates(before + row)
  {
  }

  lemma RowIsNew(groups: Groups, domains: seq<string>, n: nat)
    requires Known(groups, domains)
    ensures Apart(Rounds(groups, domains, n), Row(groups, domains, n))
  {
    var before, row := Rounds(groups, domains, n), Row(groups, domains, n);
    hide Rounds, Row;
    forall i, j | 0 <= i < |before| && 0 <= j < |row| ensures before[i] != row[j] {
      assert (before[i].0, before[i].1) in before && (row[j].0, row[j].1) in row;
      RoundsHave(groups, domains, n, before[i].0, before[i].1);
      RowHas(groups, domains, n, row[j].0, row[j].1);
    }
  }

  lemma AllPicksHave(groups: Groups, domains: seq<string>, d: string, t: nat)
    requires Known(groups, domains)
    ensures (d, t) in AllPicks(groups, domains) <==> d in domains && t < |groups[d]|
  {
    RoundsHave(groups, domains, Longest(groups, domains), d, t);
    if d in domains {
      LongestBounds(groups, domains, d);
    }
  }

  // Fairness.

  function Count(picks: seq<Pick>, d: string): nat {
    if picks == [] then 0
    else Count(picks[..|picks| - 1], d) + if picks[|picks| - 1].0 == d then 1 else 0
  }

  lemma {:induction false} CountConcat(a: seq<Pick>, b: seq<Pick>, d: string)
    ensures Count(a + b, d) == Count(a, d) + Count(b, d)
    decreases |b|
  {
    if b == [] {
      assert a + b == a;
    } else {
      CountConcat(a, b[..|b| - 1], d);
      assert (a + b)[..|a + b| - 1] == a + b[..|b| - 1];
    }
  }

  lemma {:induction false} RowCount(groups: Groups, domains: seq<string>, r: nat, d: string)
    requires Known(groups, domains) && NoDuplicates(domains)
    ensures Count(Row(groups, domains, r), d) == if d in domains && r < |groups[d]| then 1 else 0
  {
    if domains != [] {
      var init, last := domains[..|domains| - 1], domains[|domains| - 1];
      assert domains == init + [last];
      RowCount(groups, init, r, d);
      CountConcat(Row(groups, init, r), [(last, r)], d);
      assert last !in init;
    }
  }

  function AtMost(n: nat, limit: nat): nat {
    if n <= limit then n else limit
  }

  lemma CountNothing(d: string)
    ensures Count([], d) == 0
  {
  }

  lemma {:induction false} RoundsCount(groups: Groups, domains: seq<string>, n: nat, d: string)
    requires Known(groups, domains) && NoDuplicates(domains) && d in domains
    ensures Count(Rounds(groups, domains, n), d) == AtMost(n, |groups[d]|)
  {
    hide Row, Count;
    CountNothing(d);
    if n > 0 {
      RoundsCount(groups, domains, n - 1, d);
      RowCount(groups, domains, n - 1, d);
      CountConcat(Rounds(groups, domains, n - 1), Row(groups, domains, n - 1), d);
    }
  }

  /** Any prefix of the rounds is some full rounds and the start of one more. */
  lemma {:induction false} PrefixShape(groups: Groups, domains: seq<string>, n: nat, k: nat) returns (r: nat, j: nat)
    requires Known(groups, domains) && k <= |Rounds(groups, domains, n)|
    ensures j <= |Row(groups, domains, r)|
    ensures Rounds(groups, domains, n)[..k] == Rounds(groups, domains, r) + Row(groups, domains, r)[..j]
  {
    hide Row;
    if k == |Rounds(groups, domains, n)| {
      return n, 0;
    }
    var before := Rounds(groups, domains, n - 1);
    if k < |before| {
      r, j := PrefixShape(groups, domains, n - 1, k);
    } else {
      r, j := n - 1, k - |before|;
    }
  }

  lemma CountPrefix(picks: seq<Pick>, j: nat, d: string)
    requires j <= |picks|
    ensures Count(picks[..j], d) <= Count(picks, d)
  {
    CountConcat(picks[..j], picks[j..], d);
    assert picks == picks[..j] + picks[j..];
  }

  /** A domain is at most one case ahead of any other, unless the other has none left. */
  lemma Fair(groups: Groups, domains: seq<string>, k: nat, d: string, e: string)
    requires Known(groups, domains) && NoDuplicates(domains) && k <= |AllPicks(groups, domains)|
    requires d in domains && e in domains
    ensures var drawn := AllPicks(groups, domains)[..k];
      Count(drawn, d) <= Count(drawn, e) + 1 || Count(drawn, e) == |groups[e]|
  {
    var r, j := PrefixShape(groups, domains, Longest(groups, domains), k);
    var row := Row(groups, domains, r);
    forall x | x == d || x == e
      ensures AtMost(r, |groups[x]|) <= Count(AllPicks(groups, domains)[..k], x) <= AtMost(r + 1, |groups[x]|)
    {
      RoundsCount(groups, domains, r, x);
      RowCount(groups, domains, r, x);
      CountConcat(Rounds(groups, domains, r), row[..j], x);
      CountPrefix(row, j, x);
    }
  }

  // The sample.

  function CasesOf(groups: Groups, picks: seq<Pick>): seq<string>
    requires forall pick :: pick in picks ==> GoodPick(groups, pick)
  {
    seq(|picks|, i requires 0 <= i < |picks| => CaseOf(groups, picks[i]))
  }

  lemma AllPicksGood(groups: Groups, domains: seq<string>)
    requires Known(groups, domains)
    ensures forall pick :: pick in AllPicks(groups, domains) ==> GoodPick(groups, pick)
  {
    forall pick | pick in AllPicks(groups, domains) ensures GoodPick(groups, pick) {
      AllPicksHave(groups, domains, pick.0, pick.1);
    }
  }

  /** The first `n` cases drawn, or all of them. */
  function Sampled(groups: Groups, domains: seq<string>, n: nat): seq<string>
    requires Known(groups, domains)
  {
    AllPicksGood(groups, domains);
    CasesOf(groups, AllPicks(groups, domains)[..AtMost(n, |AllPicks(groups, domains)|)])
  }

  /** The groups hold each of the cases exactly once. */
  ghost predicate Partitioned(cases: set<string>, groups: Groups, domains: seq<string>) {
    && Known(groups, domains) && NoDuplicates(domains)
    && (forall d :: d in groups ==> d in domains)
    && (forall p: Pick, q: Pick :: GoodPick(groups, p) && GoodPick(groups, q) && CaseOf(groups, p) == CaseOf(groups, q) ==>
          p == q)
    && (forall p: Pick :: GoodPick(groups, p) ==> CaseOf(groups, p) in cases)
    && (forall id :: id in cases ==> exists p: Pick :: GoodPick(groups, p) && CaseOf(groups, p) == id)
  }

  lemma PicksAreCases(cases: set<string>, groups: Groups, domains: seq<string>)
    requires Partitioned(cases, groups, domains)
    ensures |AllPicks(groups, domains)| == |cases|
    ensures forall pick :: pick in AllPicks(groups, domains) ==> GoodPick(groups, pick)
    ensures NoDuplicates(CasesOf(groups, AllPicks(groups, domains)))
  {
    var picks := AllPicks(groups, domains);
    AllPicksGood(groups, domains);
    RoundsDistinct(groups, domains, Longest(groups, domains));
    var ids := CasesOf(groups, picks);
    forall i, j | 0 <= i < j < |ids| ensures ids[i] != ids[j] {
      assert picks[i] in picks && picks[j] in picks && picks[i] != picks[j];
    }
    forall i | 0 <= i < |ids| ensures ids[i] in cases {
      assert picks[i] in picks;
    }
    forall id ensures id in ids <==> id in cases {
      if id in cases {
        var p: Pick :| GoodPick(groups, p) && CaseOf(groups, p) == id;
        AllPicksHave(groups, domains, p.0, p.1);
        assert (p.0, p.1) in picks;
        var i :| 0 <= i < |picks| && picks[i] == p;
        assert ids[i] == id;
      }
    }
    SetSizeTellsDuplicates(ids);
    assert (set id | id in ids) == cases;
  }

  /** Exactly the wanted number of distinct cases, whenever there are that many. */
  lemma SampleExact(cases: set<string>, groups: Groups, domains: seq<string>, n: nat)
    requires Partitioned(cases, groups, domains) && n <= |cases|
    ensures |Sampled(groups, domains, n)| == n && NoDuplicates(Sampled(groups, domains, n))
    ensures forall id :: id in Sampled(groups, domains, n) ==> id in cases
  {
    PicksAreCases(cases, groups, domains);
    hide AllPicks;
    var picks := AllPicks(groups, domains);
    forall i | 0 <= i < n ensures Sampled(groups, domains, n)[i] == CasesOf(groups, picks)[i] {
      assert picks[..n][i] == picks[i];
    }
    forall id | id in Sampled(groups, domains, n) ensures id in cases {
      var i :| 0 <= i < n && Sampled(groups, domains, n)[i] == id;
      assert picks[i] in picks;
    }
  }

  // The loop.

  lemma RowStep(groups: Groups, domains: seq<string>, r: nat, i: nat)
    requires Known(groups, domains) && i < |domains|
    ensures Row(groups, domains[..i + 1], r)
      == Row(groups, domains[..i], r) + if r < |groups[domains[i]]| then [(domains[i], r)] else []
  {
    assert domains[..i + 1][..i] == domains[..i];
  }

  lemma {:induction false} RowPrefix(groups: Groups, domains: seq<string>, r: nat, i: nat)
    requires Known(groups, domains) && i <= |domains|
    ensures Row(groups, domains[..i], r) <= Row(groups, domains, r)
    decreases |domains| - i
  {
    if i == |domains| {
      assert domains[..i] == domains;
    } else {
      RowStep(groups, domains, r, i);
      RowPrefix(groups, domains, r, i + 1);
    }
  }

  /** A prefix of the picks up to some point of some round is a prefix of all picks. */
  lemma PartialRound(groups: Groups, domains: seq<string>, r: nat, i: nat)
    requires Known(groups, domains) && i <= |domains|
    ensures Rounds(groups, domains, r) + Row(groups, domains[..i], r) <= AllPicks(groups, domains)
  {
    RowPrefix(groups, domains, r, i);
    hide Row;
    RoundsWithin(groups, domains, r + 1);
    assert Rounds(groups, domains, r + 1) == Rounds(groups, domains, r) + Row(groups, domains, r);
  }

  lemma PrefixIsSample(groups: Groups, domains: seq<string>, picks: seq<Pick>, n: nat)
    requires Known(groups, domains) && picks <= AllPicks(groups, domains)
    requires |picks| == n || (|picks| < n && picks == AllPicks(groups, domains))
    ensures forall pick :: pick in picks ==> GoodPick(groups, pick)
    ensures CasesOf(groups, picks) == Sampled(groups, domains, n)
  {
    AllPicksGood(groups, domains);
    hide AllPicks;
    assert picks == AllPicks(groups, domains)[..|picks|];
    forall pick | pick in picks ensures GoodPick(groups, pick) {
      assert pick in AllPicks(groups, domains);
    }
  }

  ghost predicate Drawn(groups: Groups, picks: seq<Pick>, selected: seq<string>) {
    |selected| == |picks| && forall i :: 0 <= i < |picks| ==>
      GoodPick(groups, picks[i]) && selected[i] == CaseOf(groups, picks[i])
  }

  lemma DrawnCases(groups: Groups, picks: seq<Pick>, selected: seq<string>)
    requires Drawn(groups, picks, selected) && forall pick :: pick in picks ==> GoodPick(groups, pick)
    ensures selected == CasesOf(groups, picks)
  {
  }

  /** One round, cut short once the sample is full. */
  method DrawRound(
    groups: Groups, domains: seq<string>, r: nat, n: nat, before: seq<string>, ghost picked: seq<Pick>)
    returns (selected: seq<string>, added: bool, ghost picks: seq<Pick>)
    requires Known(groups, domains) && Drawn(groups, picked, before) && |before| < n
    requires picked == Rounds(groups, domains, r)
    ensures Drawn(groups, picks, selected) && |selected| <= n
    ensures picks <= AllPicks(groups, domains)
    ensures |selected| < n ==> picks == Rounds(groups, domains, r + 1)
    ensures added <==> |selected| > |before|
    ensures !added ==> Row(groups, domains, r) == []
  {
    hide Row, AllPicks, Rounds;
    selected, added, picks := before, false, picked;
    EmptyRow(groups, r);
    for i := 0 to |domains|
      invariant picks == picked + Row(groups, domains[..i], r)
      invariant Drawn(groups, picks, selected) && |selected| < n
      invariant |before| <= |selected| && before == selected[..|before|]
      invariant added <==> |selected| > |before|
    {
      var d := domains[i];
      RowStep(groups, domains, r, i);
      if r < |groups[d]| {
        selected, added, picks := selected + [groups[d][r]], true, picks + [(d, r)];
        if |selected| == n {
          PartialRound(groups, domains, r, i + 1);
          return;
        }
      }
    }
    assert domains[..|domains|] == domains;
    PartialRound(groups, domains, r, |domains|);
    RoundStep(groups, domains, r);
  }

  lemma EmptyRow(groups: Groups, r: nat)
    ensures Row(groups, [], r) == []
  {
  }

  lemma RoundStep(groups: Groups, domains: seq<string>, r: nat)
    requires Known(groups, domains)
    ensures Rounds(groups, domains, r + 1) == Rounds(groups, domains, r) + Row(groups, domains, r)
    ensures Rounds(groups, domains, 0) == []
  {
  }

  method RoundRobin(groups: Groups, domains: seq<string>, n: nat) returns (selected: seq<string>)
    requires Known(groups, domains)
    ensures selected == Sampled(groups, domains, n)
  {
    hide Row, AllPicks, Rounds, Sampled;
    selected := [];
    ghost var picks: seq<Pick> := [];
    var r := 0;
    RoundStep(groups, domains, 0);
    RoundsWithin(groups, domains, 0);
    while |selected| < n
      invariant Drawn(groups, picks, selected) && |selected| <= n && picks <= AllPicks(groups, domains)
      invariant |selected| < n ==> picks == Rounds(groups, domains, r)
      decreases n - |selected|
    {
      var drawn, added;
      ghost var now;
      drawn, added, now := DrawRound(groups, domains, r, n, selected, picks);
      if !added {
        EmptyRowEndsAll(groups, domains, r);
        break;
      }
      selected, picks, r := drawn, now, r + 1;
    }
    PrefixIsSample(groups, domains, picks, n);
    DrawnCases(groups, picks, selected);
  }

  lemma EmptyRowEndsAll(groups: Groups, domains: seq<string>, r: nat)
    requires Known(groups, domains) && Row(groups, domains, r) == []
    ensures Rounds(groups, domains, r) == AllPicks(groups, domains)
  {
    if r <= Longest(groups, domains) {
      EmptyRowsAdd(groups, domains, r, Longest(groups, domains));
    } else {
      RoundsSaturate(groups, domains, r);
    }
  }
}
