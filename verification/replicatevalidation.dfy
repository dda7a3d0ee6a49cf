/** The validator of replicate reports, which recomputes every fact in the order of the rows. */
module ReplicateValidation {
  import opened Counting
  import opened Replicates
  import opened Sorting
  import opened StringOrder

  // One row.

  function ObservedIds(observations: seq<Observation>): seq<string> {
    seq(|observations|, i requires 0 <= i < |observations| => observations[i].replicateId)
  }

  lemma ObservedId(observations: seq<Observation>, id: string)
    ensures id in ObservedIds(observations) <==> HasObservation(observations, id)
  {
    if i :| 0 <= i < |observations| && observations[i].replicateId == id {
      assert ObservedIds(observations)[i] == id;
    }
  }

  /** As many observations as replicates, one of each: the two lists sort alike. */
  lemma SameIds(observations: seq<Observation>, ids: seq<string>)
    requires NoDuplicates(ids)
    ensures multiset(ObservedIds(observations)) == multiset(ids) <==>
      |observations| == |ids| && forall k :: 0 <= k < |ids| ==> HasObservation(observations, ids[k])
  {
    var observed := ObservedIds(observations);
    forall k | 0 <= k < |ids| ensures ids[k] in observed <==> HasObservation(observations, ids[k]) {
      ObservedId(observations, ids[k]);
    }
    hide HasObservation, ObservedIds;
    if multiset(observed) == multiset(ids) {
      SameLength(observed, ids);
      forall k | 0 <= k < |ids| ensures ids[k] in observed {
        assert ids[k] in multiset(ids);
      }
    }
    if |observed| == |ids| && forall k :: 0 <= k < |ids| ==> ids[k] in observed {
      forall x ensures multiset(ids)[x] <= multiset(observed)[x] {
        DistinctCount(ids, x);
        assert x in ids ==> x in multiset(observed);
      }
      assert multiset(observed) == multiset(ids) + (multiset(observed) - multiset(ids));
      assert |multiset(observed) - multiset(ids)| == 0;
    }
  }

  method CountOutcomes(observations: seq<Observation>) returns (tally: Tally)
    ensures tally == TallyOf(observations)
  {
    var counts: map<Outcome, nat> := map[E.Win := 0, E.Tie := 0, E.Loss := 0];
    for i := 0 to |observations|
      invariant counts.Keys == {E.Win, E.Tie, E.Loss}
      invariant forall outcome :: outcome in counts ==> counts[outcome] == Count(observations[..i], Ended(outcome))
    {
      assert observations[..i + 1][..i] == observations[..i];
      var outcome := observations[i].outcome;
      assert outcome == E.Win || outcome == E.Tie || outcome == E.Loss;
      counts := counts[outcome := counts[outcome] + 1];
    }
    assert observations[..|observations|] == observations;
    tally := Tally(counts[E.Win], counts[E.Tie], counts[E.Loss]);
  }

  method CheckRow(row: CaseRow, ids: seq<string>) returns (ok: bool)
    requires NoDuplicates(ids) && ids != []
    ensures ok <==> RowOk(row, ids)
  {
    SameIds(row.observations, ids);
    hide HasObservation, Consensus;
    if multiset(ObservedIds(row.observations)) != multiset(ids) {
      return false;
    }
    var tally := CountOutcomes(row.observations);
    hide TallyOf;
    var (consensus, basis) := Consensus(tally);
    var stable := Present(tally.wins) + Present(tally.ties) + Present(tally.losses) == 1;
    ok := row.tally == tally && row.consensus == consensus && row.basis == basis
      && row.agreement == tally.Largest() as real / |ids| as real && row.stable == stable;
  }

  // Grouping by domain, in the order of first appearance.

  ghost predicate Grouped(rows: seq<CaseRow>, order: seq<string>, groups: map<string, seq<CaseRow>>) {
    && NoDuplicates(order)
    && (forall d :: d in order <==> d in groups)
    && (forall d :: d in groups <==> d in DomainsOf(rows))
    && (forall d :: d in groups ==> groups[d] == InDomain(rows, d))
  }

  lemma DomainsOneMore(rows: seq<CaseRow>, row: CaseRow)
    ensures DomainsOf(rows + [row]) == DomainsOf(rows) + {row.domain}
  {
    forall d ensures d in DomainsOf(rows + [row]) <==> d in DomainsOf(rows) + {row.domain} {
      assert row in rows + [row];
      if d in DomainsOf(rows) {
        var other :| other in rows && other.domain == d;
        assert other in rows + [row];
      }
    }
  }

  lemma InDomainOneMore(rows: seq<CaseRow>, row: CaseRow, domain: string)
    ensures InDomain(rows + [row], domain) == if domain == row.domain then InDomain(rows, domain) + [row] else InDomain(rows, domain)
  {
    assert (rows + [row])[..|rows|] == rows;
  }

  lemma GroupOneMore(rows: seq<CaseRow>, row: CaseRow, order: seq<string>, groups: map<string, seq<CaseRow>>)
    requires Grouped(rows, order, groups)
    ensures Grouped(rows + [row],
      if row.domain in groups then order else order + [row.domain],
      groups[row.domain := (if row.domain in groups then groups[row.domain] else []) + [row]])
  {
    NotListed(rows, row.domain);
    AppendDistinct(order, row.domain);
    DomainsOneMore(rows, row);
    hide NoDuplicates, DomainsOf, InDomain;
    var after := groups[row.domain := (if row.domain in groups then groups[row.domain] else []) + [row]];
    forall d | d in after ensures after[d] == InDomain(rows + [row], d) {
      InDomainOneMore(rows, row, d);
    }
  }

  lemma {:induction false} NotListed(rows: seq<CaseRow>, domain: string)
    ensures domain !in DomainsOf(rows) ==> InDomain(rows, domain) == []
  {
    if rows != [] {
      var init, last := rows[..|rows| - 1], rows[|rows| - 1];
      NotListed(init, domain);
      assert rows == init + [last] && last in rows;
      forall row | row in init ensures row in rows {
      }
    }
  }

  ghost predicate PlacedBefore(rows: seq<CaseRow>, n: nat, place: (string, string)) {
    exists j :: 0 <= j < n && j < |rows| && (rows[j].domain, rows[j].caseId) == place
  }

  ghost predicate SeenPlaces(rows: seq<CaseRow>, n: nat, seen: set<(string, string)>) {
    forall place :: place in seen <==> PlacedBefore(rows, n, place)
  }

  lemma SeeOneMore(rows: seq<CaseRow>, n: nat, seen: set<(string, string)>)
    requires n < |rows| && SeenPlaces(rows, n, seen)
    ensures SeenPlaces(rows, n + 1, seen + {(rows[n].domain, rows[n].caseId)})
  {
    forall place ensures place in seen + {(rows[n].domain, rows[n].caseId)} <==> PlacedBefore(rows, n + 1, place) {
      assert place in seen <==> PlacedBefore(rows, n, place);
    }
  }

  method CheckRows(rows: seq<CaseRow>, ids: seq<string>)
    returns (ok: bool, order: seq<string>, groups: map<string, seq<CaseRow>>)
    requires NoDuplicates(ids) && ids != []
    ensures ok <==> RowsValid(rows, ids)
    ensures ok ==> Grouped(rows, order, groups)
  {
    hide RowOk, Grouped, NoDuplicates;
    var seen: set<(string, string)> := {};
    ok, order, groups := true, [], map[];
    NothingGrouped();
    for i := 0 to |rows|
      invariant ok && Grouped(rows[..i], order, groups) && SeenPlaces(rows, i, seen)
      invariant forall j :: 0 <= j < i ==> RowOk(rows[j], ids)
      invariant forall j, k :: 0 <= j < k < i ==> (rows[j].domain, rows[j].caseId) != (rows[k].domain, rows[k].caseId)
    {
      var row := rows[i];
      var place := (row.domain, row.caseId);
      if place in seen {
        assert PlacedBefore(rows, i, place);
        ok := false;
        return;
      }
      forall j | 0 <= j < i ensures (rows[j].domain, rows[j].caseId) != place {
        assert PlacedBefore(rows, i, (rows[j].domain, rows[j].caseId));
      }
      SeeOneMore(rows, i, seen);
      seen := seen + {place};
      ok := CheckRow(row, ids);
      if !ok {
        return;
      }
      GroupOneMore(rows[..i], row, order, groups);
      assert rows[..i] + [row] == rows[..i + 1];
      var known := row.domain in groups;
      var group := if known then groups[row.domain] else [];
      order := if known then order else order + [row.domain];
      groups := groups[row.domain := group + [row]];
    }
    assert rows[..|rows|] == rows;
  }

  lemma NothingGrouped()
    ensures Grouped([], [], map[])
  {
  }

  // Domain results, and each replicate's gates in the order of the groups.

  method TotalFlags(rows: seq<CaseRow>) returns (criticals: nat, fatals: nat, hardFailures: nat)
    ensures criticals == SumOver(rows, Regressed) && fatals == SumOver(rows, Flawed)
    ensures hardFailures == SumOver(rows, HardFailed)
  {
    criticals, fatals, hardFailures := 0, 0, 0;
    for i := 0 to |rows|
      invariant criticals == SumOver(rows[..i], Regressed) && fatals == SumOver(rows[..i], Flawed)
      invariant hardFailures == SumOver(rows[..i], HardFailed)
    {
      assert rows[..i + 1][..i] == rows[..i];
      var observations := rows[i].observations;
      var regressed, flawed, failed := 0, 0, 0;
      for j := 0 to |observations|
        invariant regressed == Count(observations[..j], Regressed) && flawed == Count(observations[..j], Flawed)
        invariant failed == Count(observations[..j], HardFailed)
      {
        assert observations[..j + 1][..j] == observations[..j];
        regressed := regressed + (if observations[j].critical then 1 else 0);
        flawed := flawed + (if observations[j].fatal then 1 else 0);
        failed := failed + (if observations[j].hardFailed then 1 else 0);
      }
      assert observations[..|observations|] == observations;
      criticals, fatals, hardFailures := criticals + regressed, fatals + flawed, hardFailures + failed;
    }
    assert rows[..|rows|] == rows;
  }

  ghost predicate Tabled(
    rows: seq<CaseRow>, order: seq<string>, ids: seq<string>, done: nat, tables: map<string, seq<Gate>>)
    requires AllObserve(rows, ids)
  {
    forall k :: 0 <= k < |ids| ==>
      && ids[k] in tables && RowsObserve(rows, ids[k])
      && tables[ids[k]] == GatesBy(rows, order, ids[k])[..if done <= |order| then done else |order|]
  }

  method RecomputeDomain(cases: seq<CaseRow>, ids: seq<string>) returns (result: DomainResult)
    requires AllObserve(cases, ids)
    ensures result == DomainResultOf(cases, ids)
  {
    hide GateOf, OwnObservations, ConsensusObservations;
    var gates: seq<(string, Gate)> := [];
    for k := 0 to |ids|
      invariant gates == ReplicateGates(cases, ids)[..k]
    {
      assert RowsObserve(cases, ids[k]);
      var gate := DomainGateFromObservations(OwnObservations(cases, ids[k]));
      gates := gates + [(ids[k], gate)];
    }
    var consensus := DomainGateFromObservations(ConsensusObservations(cases));
    var criticals, fatals, hardFailures := TotalFlags(cases);
    var individual := forall k :: 0 <= k < |gates| ==> gates[k].1.passed;
    result := DomainResult(
      |cases|, consensus.wins, consensus.ties, consensus.losses, criticals, fatals, hardFailures,
      individual, consensus.passed, individual && consensus.passed, gates);
  }

  /** Each replicate's new result goes to the end of its own list. */
  method AppendResults(tables: map<string, seq<Gate>>, gates: seq<(string, Gate)>)
    returns (after: map<string, seq<Gate>>)
    requires forall k :: 0 <= k < |gates| ==> gates[k].0 in tables
    requires forall j, k :: 0 <= j < k < |gates| ==> gates[j].0 != gates[k].0
    ensures after.Keys == tables.Keys
    ensures forall k :: 0 <= k < |gates| ==> after[gates[k].0] == tables[gates[k].0] + [gates[k].1]
  {
    after := tables;
    for k := 0 to |gates|
      invariant after.Keys == tables.Keys
      invariant forall j :: 0 <= j < k ==> after[gates[j].0] == tables[gates[j].0] + [gates[j].1]
      invariant forall j :: k <= j < |gates| ==> after[gates[j].0] == tables[gates[j].0]
    {
      after := after[gates[k].0 := after[gates[k].0] + [gates[k].1]];
    }
  }

  lemma ResultGates(rows: seq<CaseRow>, domain: string, ids: seq<string>, k: nat)
    requires AllObserve(rows, ids) && k < |ids|
    ensures RowsObserve(rows, ids[k]) && AllObserve(InDomain(rows, domain), ids)
    ensures var gates := DomainResultOf(InDomain(rows, domain), ids).replicates;
      |gates| == |ids| && gates[k] == (ids[k], DomainGate(rows, domain, ids[k]))
  {
    DomainObserves(rows, domain, ids);
    hide GateOf, InDomain, OwnObservations, ConsensusObservations, SumOver;
  }

  lemma TableOneMore(
    rows: seq<CaseRow>, order: seq<string>, ids: seq<string>, i: nat, before: map<string, seq<Gate>>,
    after: map<string, seq<Gate>>, gates: seq<(string, Gate)>)
    requires AllObserve(rows, ids) && i < |order| && Tabled(rows, order, ids, i, before)
    requires AllObserve(InDomain(rows, order[i]), ids)
    requires gates == DomainResultOf(InDomain(rows, order[i]), ids).replicates && |gates| == |ids|
    requires after.Keys == before.Keys
    requires forall k :: 0 <= k < |ids| ==> gates[k].0 == ids[k] && after[ids[k]] == before[ids[k]] + [gates[k].1]
    ensures Tabled(rows, order, ids, i + 1, after)
  {
    hide DomainResultOf, DomainGate, InDomain;
    forall k | 0 <= k < |ids|
      ensures ids[k] in after && RowsObserve(rows, ids[k])
      ensures after[ids[k]] == GatesBy(rows, order, ids[k])[..i + 1]
    {
      ResultGates(rows, order[i], ids, k);
    }
  }

  method RecomputeDomains(
    order: seq<string>, groups: map<string, seq<CaseRow>>, ids: seq<string>, claimed: map<string, DomainResult>,
    ghost rows: seq<CaseRow>) returns (ok: bool, tables: map<string, seq<Gate>>)
    requires AllObserve(rows, ids) && NoDuplicates(ids) && Grouped(rows, order, groups)
    ensures ok <==> claimed == DomainResultsOf(rows, ids)
    ensures Tabled(rows, order, ids, |order|, tables)
  {
    hide DomainResultOf, InDomain, DomainsOf, AllObserve, Tabled, NoDuplicates;
    tables := map id | id in ids :: [];
    NothingTabled(rows, order, ids, tables);
    ok := claimed.Keys == groups.Keys;
    for i := 0 to |order|
      invariant Tabled(rows, order, ids, i, tables)
      invariant ok <==> claimed.Keys == groups.Keys && forall j :: 0 <= j < i ==>
        && order[j] in claimed && order[j] in DomainResultsOf(rows, ids)
        && claimed[order[j]] == DomainResultsOf(rows, ids)[order[j]]
    {
      assert order[i] in order;
      DomainObserves(rows, order[i], ids);
      var expected := RecomputeDomain(groups[order[i]], ids);
      ghost var before := tables;
      ResultsNamed(rows, order, ids, i, tables, expected.replicates);
      tables := AppendResults(tables, expected.replicates);
      TableOneMore(rows, order, ids, i, before, tables, expected.replicates);
      ok := ok && order[i] in claimed && claimed[order[i]] == expected;
    }
    KeysKnown(rows, ids);
    assert claimed.Keys == groups.Keys <==> claimed.Keys == DomainResultsOf(rows, ids).Keys;
  }

  lemma KeysKnown(rows: seq<CaseRow>, ids: seq<string>)
    requires AllObserve(rows, ids)
    ensures DomainResultsOf(rows, ids).Keys == DomainsOf(rows)
  {
    hide DomainResultOf, DomainsOf, AllObserve;
  }

  lemma ResultsNamed(
    rows: seq<CaseRow>, order: seq<string>, ids: seq<string>, i: nat, tables: map<string, seq<Gate>>,
    gates: seq<(string, Gate)>)
    requires AllObserve(rows, ids) && NoDuplicates(ids) && i < |order| && Tabled(rows, order, ids, i, tables)
    requires AllObserve(InDomain(rows, order[i]), ids)
    requires gates == DomainResultOf(InDomain(rows, order[i]), ids).replicates
    ensures |gates| == |ids| && forall k :: 0 <= k < |ids| ==> gates[k].0 == ids[k] && ids[k] in tables
    ensures forall j, k :: 0 <= j < k < |gates| ==> gates[j].0 != gates[k].0
  {
    hide GateOf, InDomain, OwnObservations, ConsensusObservations, SumOver, GatesBy;
  }

  lemma NothingTabled(rows: seq<CaseRow>, order: seq<string>, ids: seq<string>, tables: map<string, seq<Gate>>)
    requires AllObserve(rows, ids) && tables == map id | id in ids :: []
    ensures Tabled(rows, order, ids, 0, tables)
  {
    hide DomainGate;
    forall k | 0 <= k < |ids| ensures ids[k] in tables && RowsObserve(rows, ids[k]) {
    }
  }

  // Facts and totals.

  method RecomputeFacts(source: Source, gates: seq<Gate>) returns (facts: Facts)
    ensures facts == FactsFrom(source, gates)
  {
    hide Net;
    var cases, wins, ties, losses, criticals, fatals, hardFailures := 0, 0, 0, 0, 0, 0, 0;
    for i := 0 to |gates|
      invariant cases == SumMeasure(gates[..i], Cases) && wins == SumMeasure(gates[..i], Wins)
      invariant ties == SumMeasure(gates[..i], Ties) && losses == SumMeasure(gates[..i], Losses)
      invariant criticals == SumMeasure(gates[..i], Criticals) && fatals == SumMeasure(gates[..i], Fatals)
      invariant hardFailures == SumMeasure(gates[..i], HardFailures)
    {
      assert gates[..i + 1][..i] == gates[..i];
      cases, wins, ties := cases + gates[i].caseCount, wins + gates[i].wins, ties + gates[i].ties;
      losses, criticals := losses + gates[i].losses, criticals + gates[i].criticals;
      fatals, hardFailures := fatals + gates[i].fatals, hardFailures + gates[i].hardFailures;
    }
    assert gates[..|gates|] == gates;
    var passed := forall i :: 0 <= i < |gates| ==> gates[i].passed;
    facts := Facts(
      source, source.calls > 0 && source.verifiedCalls == source.calls,
      |gates|, cases, wins, ties, losses, criticals, fatals, hardFailures,
      |gates| == RELEASE_DOMAIN_COUNT && passed && Net(wins, losses, cases) >= 0.10
      && criticals == 0 && fatals == 0 && hardFailures == 0);
  }

  method CheckFacts(
    claimed: seq<Facts>, tables: map<string, seq<Gate>>, ghost rows: seq<CaseRow>, ghost order: seq<string>)
    returns (ok: bool)
    requires AllObserve(rows, Ids(claimed)) && Lists(order, rows)
    requires Tabled(rows, order, Ids(claimed), |order|, tables)
    ensures ok <==> FactsValid(rows, claimed)
  {
    hide AllObserve, RowsObserve, FactsFor, FactsFrom, GatesBy, Lists;
    for i := 0 to |claimed|
      invariant forall j :: 0 <= j < i ==> RowsObserve(rows, Ids(claimed)[j]) && FactsRight(rows, claimed[j])
    {
      var source, id := claimed[i].source, Ids(claimed)[i];
      assert tables[id] == GatesBy(rows, order, id) by {
        assert GatesBy(rows, order, id)[..|order|] == GatesBy(rows, order, id) by { GateCount(rows, order, id); }
      }
      FactsFromSums(rows, order, source, tables[id]);
      var expected := RecomputeFacts(source, tables[id]);
      if source.calls < 1 || source.verifiedCalls > source.calls || claimed[i] != expected {
        return false;
      }
    }
    return true;
  }

  lemma GateCount(rows: seq<CaseRow>, order: seq<string>, id: string)
    requires RowsObserve(rows, id)
    ensures |GatesBy(rows, order, id)| == |order|
  {
    hide DomainGate;
  }

  method TotalRows(rows: seq<CaseRow>) returns (wins: nat, ties: nat, losses: nat, stable: nat)
    ensures wins == ConsensusCount(rows, E.Win) && ties == ConsensusCount(rows, E.Tie)
    ensures losses == ConsensusCount(rows, E.Loss) && stable == StableCount(rows)
  {
    wins, ties, losses, stable := 0, 0, 0, 0;
    for i := 0 to |rows|
      invariant wins == ConsensusCount(rows[..i], E.Win) && ties == ConsensusCount(rows[..i], E.Tie)
      invariant losses == ConsensusCount(rows[..i], E.Loss) && stable == StableCount(rows[..i])
    {
      assert rows[..i + 1][..i] == rows[..i];
      match rows[i].consensus {
        case Win => wins := wins + 1;
        case Tie => ties := ties + 1;
        case Loss => losses := losses + 1;
      }
      stable := if rows[i].stable then stable + 1 else stable;
    }
    assert rows[..|rows|] == rows;
  }

  method TotalCalls(facts: seq<Facts>) returns (calls: nat, verified: nat)
    ensures calls == SumCalls(facts) && verified == SumVerified(facts)
  {
    calls, verified := 0, 0;
    for i := 0 to |facts|
      invariant calls == SumCalls(facts[..i]) && verified == SumVerified(facts[..i])
    {
      assert facts[..i + 1][..i] == facts[..i];
      var source := facts[i].source;
      calls, verified := source.calls + calls, source.verifiedCalls + verified;
    }
    assert facts[..|facts|] == facts;
  }

  method RecomputeAggregate(
    rows: seq<CaseRow>, domains: seq<string>, results: map<string, DomainResult>, facts: seq<Facts>)
    returns (aggregate: Aggregate)
    ensures aggregate == AggregateOf(rows, domains, results, facts)
  {
    hide Net, SumOver, ConsensusCount, StableCount, SumCalls, SumVerified;
    var wins, ties, losses, stable := TotalRows(rows);
    var criticals, fatals, hardFailures := TotalFlags(rows);
    var calls, verified := TotalCalls(facts);
    var net := Net(wins, losses, |rows|);
    var full := |domains| == RELEASE_DOMAIN_COUNT && |rows| >= RELEASE_CASE_COUNT;
    var allDomains := results != map[] && forall d :: d in results ==> results[d].passed;
    var allRelease := forall i :: 0 <= i < |facts| ==> facts[i].aggregateGate;
    var allReal := forall i :: 0 <= i < |facts| ==> facts[i].source.calls > 0;
    var allReceipts := forall i :: 0 <= i < |facts| ==> facts[i].provenance;
    aggregate := Aggregate(
      wins, ties, losses, calls, verified, net, criticals, fatals, hardFailures, stable, |rows| - stable,
      if rows == [] then 0.0 else stable as real / |rows| as real,
      full, allRelease, allReceipts, allDomains,
      |facts| >= MINIMUM_REPLICATES && full && allRelease && allReal && allReceipts && allDomains
      && net >= 0.10 && criticals == 0 && fatals == 0 && hardFailures == 0);
  }

  // The report.

  lemma IdsDistinct(facts: seq<Facts>)
    requires SourcesUnique(facts)
    ensures NoDuplicates(Ids(facts)) && |Ids(facts)| == |facts|
  {
  }

  lemma GroupsListed(rows: seq<CaseRow>, order: seq<string>, groups: map<string, seq<CaseRow>>)
    requires Grouped(rows, order, groups)
    ensures Lists(order, rows) && groups.Keys == DomainsOf(rows)
  {
    hide DomainsOf, InDomain;
  }

  /** The report validator: it recomputes every derived fact. */
  method ValidateReplicateReport(report: Report) returns (ok: bool)
    ensures ok <==> ReportValid(report)
  {
    hide RowsValid, AllObserve, SourcesUnique, FactsValid, AggregateOf, RowOk, Grouped, Tabled, DomainResultsOf, Lists;
    hide DomainsOf, SortedKeys, NoDuplicates;
    if |report.facts| < MINIMUM_REPLICATES || !SourcesUnique(report.facts) {
      return false;
    }
    var ids := Ids(report.facts);
    IdsDistinct(report.facts);
    var rowsOk, order, groups := CheckRows(report.rows, ids);
    if !rowsOk {
      return false;
    }
    RowsValidObserve(report.rows, ids);
    GroupsListed(report.rows, order, groups);
    var resultsOk, tables := RecomputeDomains(order, groups, ids, report.domainResults, report.rows);
    var factsOk := CheckFacts(report.facts, tables, report.rows, order);
    var aggregate := RecomputeAggregate(report.rows, SortedKeys(groups.Keys), report.domainResults, report.facts);
    ok := resultsOk && factsOk && report.domains == SortedKeys(groups.Keys) && report.aggregate == aggregate
      && report.evidence == EvidenceFor(|report.rows| * |report.facts|, aggregate.releaseGate);
  }
}
