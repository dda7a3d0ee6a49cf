/** The aggregator of benchmark runs, domain by domain in sorted order. */
module ReplicateAggregation {
  import opened Counting
  import opened Options
  import opened Replicates
  import opened ReplicateRuns
  import opened StringOrder

  /** What the earlier runs have used. */
  ghost predicate Seen(runs: seq<Run>, identities: set<string>, receipts: set<string>) {
    && (forall x :: x in identities <==> exists i :: 0 <= i < |runs| && x in runs[i].source.identities)
    && (forall x :: x in receipts <==> exists i :: 0 <= i < |runs| && x in runs[i].source.receipts)
  }

  lemma SeenOneMore(runs: seq<Run>, k: nat, identities: set<string>, receipts: set<string>)
    requires k < |runs| && Seen(runs[..k], identities, receipts)
    ensures Seen(runs[..k + 1], identities + runs[k].source.identities, receipts + runs[k].source.receipts)
    ensures (forall i :: 0 <= i < k ==> Independent(runs[i], runs[k])) <==>
      runs[k].source.identities !! identities && runs[k].source.receipts !! receipts
  {
    var before, after := runs[..k], runs[..k + 1];
    assert forall i :: 0 <= i < k ==> after[i] == before[i] == runs[i];
    assert after[k] == runs[k];
  }

  method CheckIndependence(runs: seq<Run>) returns (ok: bool)
    ensures ok <==> AllIndependent(runs)
  {
    hide Seen, Independent;
    var identities: set<string>, receipts: set<string> := {}, {};
    NothingSeen();
    for k := 0 to |runs|
      invariant Seen(runs[..k], identities, receipts)
      invariant forall i, j :: 0 <= i < j < k ==> Independent(runs[i], runs[j])
    {
      SeenOneMore(runs, k, identities, receipts);
      if !(runs[k].source.identities !! identities) || !(runs[k].source.receipts !! receipts) {
        return false;
      }
      identities, receipts := identities + runs[k].source.identities, receipts + runs[k].source.receipts;
    }
    return true;
  }

  lemma NothingSeen()
    ensures Seen([], {}, {})
  {
  }

  // Case rows.

  method BuildRow(runs: seq<Run>, domain: string, caseId: string) returns (row: CaseRow)
    requires runs != [] && HasCase(runs, domain, caseId)
    ensures row == RowOf(runs, domain, caseId)
  {
    var observations: seq<Observation> := [];
    var wins, ties, losses := 0, 0, 0;
    for i := 0 to |runs|
      invariant observations == Observations(runs, domain, caseId)[..i]
      invariant wins == Count(observations, Ended(E.Win)) && ties == Count(observations, Ended(E.Tie))
      invariant losses == Count(observations, Ended(E.Loss))
    {
      var observation := ObservationOf(runs[i], domain, caseId);
      OneMoreObservation(observations, observation, Ended(E.Win));
      OneMoreObservation(observations, observation, Ended(E.Tie));
      OneMoreObservation(observations, observation, Ended(E.Loss));
      match observation.outcome {
        case Win => wins := wins + 1;
        case Tie => ties := ties + 1;
        case Loss => losses := losses + 1;
      }
      observations := observations + [observation];
    }
    assert observations == Observations(runs, domain, caseId);
    var tally := Tally(wins, ties, losses);
    var (consensus, basis) := Consensus(tally);
    row := CaseRow(
      domain, caseId, runs[0].evaluations[domain][caseId].caseSha, tally, observations, consensus, basis,
      tally.Largest() as real / |runs| as real,
      |(if wins > 0 then [wins] else []) + (if ties > 0 then [ties] else []) + (if losses > 0 then [losses] else [])| == 1);
  }

  lemma RowsConcat(runs: seq<Run>, places: seq<Place>, more: seq<Place>)
    requires runs != [] && PlacesKnown(runs, places) && PlacesKnown(runs, more)
    ensures PlacesKnown(runs, places + more)
    ensures Rows(runs, places + more) == Rows(runs, places) + Rows(runs, more)
  {
    hide HasCase, RowOf;
  }

  lemma PlacesAppend(first: map<string, map<string, CaseRecord>>, domains: seq<string>, k: nat)
    requires (forall d :: d in domains ==> d in first) && k < |domains|
    ensures PlacesIn(first, domains[..k + 1])
      == PlacesIn(first, domains[..k]) + Paired(domains[k], SortedKeys(first[domains[k]].Keys))
    ensures PlacesIn(first, domains[..0]) == []
  {
    assert domains[..k + 1][..k] == domains[..k];
  }

  lemma DomainCases(runs: seq<Run>, domain: string, caseId: string)
    requires runs != [] && Compatible(runs) && domain in runs[0].evaluations && caseId in runs[0].evaluations[domain]
    ensures HasCase(runs, domain, caseId)
  {
    assert SameCases(runs, domain);
  }

  lemma CasesKnown(runs: seq<Run>, domain: string, caseIds: seq<string>)
    requires runs != [] && Compatible(runs) && domain in runs[0].evaluations
    requires forall c :: c in caseIds ==> c in runs[0].evaluations[domain]
    ensures PlacesKnown(runs, Paired(domain, caseIds))
  {
    hide Compatible, HasCase;
    forall i | 0 <= i < |caseIds| ensures HasCase(runs, domain, caseIds[i]) {
      DomainCases(runs, domain, caseIds[i]);
    }
  }

  method BuildDomainRows(runs: seq<Run>, domain: string, caseIds: seq<string>) returns (rows: seq<CaseRow>)
    requires runs != [] && PlacesKnown(runs, Paired(domain, caseIds))
    ensures rows == Rows(runs, Paired(domain, caseIds))
  {
    hide HasCase, RowOf;
    rows := [];
    for m := 0 to |caseIds|
      invariant rows == Rows(runs, Paired(domain, caseIds))[..m]
    {
      assert Paired(domain, caseIds)[m] == (domain, caseIds[m]);
      var row := BuildRow(runs, domain, caseIds[m]);
      rows := rows + [row];
    }
  }

  method BuildRows(runs: seq<Run>, domains: seq<string>) returns (rows: seq<CaseRow>)
    requires runs != [] && Compatible(runs) && forall d :: d in domains ==> d in runs[0].evaluations
    ensures PlacesKnown(runs, PlacesIn(runs[0].evaluations, domains))
    ensures rows == Rows(runs, PlacesIn(runs[0].evaluations, domains))
  {
    var first := runs[0].evaluations;
    hide Compatible, SortedKeys, Paired, RowOf, HasCase;
    rows := [];
    for k := 0 to |domains|
      invariant PlacesKnown(runs, PlacesIn(first, domains[..k]))
      invariant rows == Rows(runs, PlacesIn(first, domains[..k]))
    {
      var caseIds := SortedKeys(first[domains[k]].Keys);
      SortedKeysSorted(first[domains[k]].Keys);
      CasesKnown(runs, domains[k], caseIds);
      var own := BuildDomainRows(runs, domains[k], caseIds);
      PlacesAppend(first, domains, k);
      RowsConcat(runs, PlacesIn(first, domains[..k]), Paired(domains[k], caseIds));
      rows := rows + own;
    }
    assert domains[..|domains|] == domains;
  }

  // Domain results.

  method FilterDomain(rows: seq<CaseRow>, domain: string) returns (cases: seq<CaseRow>)
    ensures cases == InDomain(rows, domain)
  {
    cases := [];
    for i := 0 to |rows|
      invariant cases == InDomain(rows[..i], domain)
    {
      assert rows[..i + 1][..i] == rows[..i];
      if rows[i].domain == domain {
        cases := cases + [rows[i]];
      }
    }
    assert rows[..|rows|] == rows;
  }

  method SumFlags(rows: seq<CaseRow>, feature: Feature) returns (n: nat)
    ensures n == SumOver(rows, feature)
  {
    n := 0;
    for i := 0 to |rows|
      invariant n == SumOver(rows[..i], feature)
    {
      assert rows[..i + 1][..i] == rows[..i];
      var observations := rows[i].observations;
      ghost var before := n;
      for j := 0 to |observations|
        invariant n == before + Count(observations[..j], feature)
      {
        OneMoreObservation(observations[..j], observations[j], feature);
        assert observations[..j] + [observations[j]] == observations[..j + 1];
        n := n + (if Shows(observations[j], feature) then 1 else 0);
      }
      assert observations[..|observations|] == observations;
    }
    assert rows[..|rows|] == rows;
  }

  method BuildDomain(rows: seq<CaseRow>, domain: string, ids: seq<string>) returns (result: DomainResult)
    requires AllObserve(rows, ids)
    ensures AllObserve(InDomain(rows, domain), ids)
    ensures result == DomainResultOf(InDomain(rows, domain), ids)
  {
    DomainObserves(rows, domain, ids);
    hide GateOf, InDomain, OwnObservations, ConsensusObservations;
    var cases := FilterDomain(rows, domain);
    var gates: seq<(string, Gate)>, individual := [], true;
    for k := 0 to |ids|
      invariant gates == ReplicateGates(cases, ids)[..k]
      invariant individual <==> forall j :: 0 <= j < k ==> ReplicateGates(cases, ids)[j].1.passed
    {
      assert RowsObserve(cases, ids[k]);
      var gate := DomainGateFromObservations(OwnObservations(cases, ids[k]));
      assert ReplicateGates(cases, ids)[k] == (ids[k], gate);
      gates, individual := gates + [(ids[k], gate)], individual && gate.passed;
    }
    var consensus := DomainGateFromObservations(ConsensusObservations(cases));
    var criticals := SumFlags(cases, Regressed);
    var fatals := SumFlags(cases, Flawed);
    var hardFailures := SumFlags(cases, HardFailed);
    result := DomainResult(
      |cases|, consensus.wins, consensus.ties, consensus.losses, criticals, fatals, hardFailures,
      individual, consensus.passed, individual && consensus.passed, gates);
  }

  method BuildDomains(rows: seq<CaseRow>, domains: seq<string>, ids: seq<string>)
    returns (results: map<string, DomainResult>)
    requires AllObserve(rows, ids) && Lists(domains, rows)
    ensures results == DomainResultsOf(rows, ids)
  {
    hide DomainResultOf, InDomain, DomainsOf, AllObserve;
    results := map[];
    for i := 0 to |domains|
      invariant forall d :: d in results <==> d in domains[..i]
      invariant forall d :: d in results ==> d in DomainsOf(rows) && results[d] == DomainResultsOf(rows, ids)[d]
    {
      var result := BuildDomain(rows, domains[i], ids);
      results := results[domains[i] := result];
      assert domains[..i + 1] == domains[..i] + [domains[i]];
    }
    assert domains[..|domains|] == domains;
  }

  // Facts.

  function IndexOf(ids: seq<string>, id: string): (k: nat)
    requires id in ids
    ensures k < |ids| && ids[k] == id
  {
    if ids[0] == id then 0 else IndexOf(ids[1..], id) + 1
  }

  lemma LookedUp(rows: seq<CaseRow>, ids: seq<string>, id: string, domain: string)
    requires AllObserve(rows, ids) && id in ids && domain in DomainsOf(rows)
    ensures RowsObserve(rows, id)
    ensures IndexOf(ids, id) < |DomainResultsOf(rows, ids)[domain].replicates|
    ensures DomainResultsOf(rows, ids)[domain].replicates[IndexOf(ids, id)].1 == DomainGate(rows, domain, id)
  {
    var k := IndexOf(ids, id);
    assert RowsObserve(rows, ids[k]);
    DomainObserves(rows, domain, ids);
    hide GateOf, InDomain, OwnObservations, ConsensusObservations, SumOver, DomainsOf;
    assert DomainResultsOf(rows, ids)[domain] == DomainResultOf(InDomain(rows, domain), ids);
  }

  /** Adds up the domain results, each looked up by the replicate's index. */
  method AddResults(
    results: map<string, DomainResult>, domains: seq<string>, k: nat, source: Source, ghost gates: seq<Gate>)
    returns (facts: Facts)
    requires |gates| == |domains| && forall i :: 0 <= i < |domains| ==>
      && domains[i] in results && k < |results[domains[i]].replicates|
      && results[domains[i]].replicates[k].1 == gates[i]
    ensures facts == FactsFrom(source, gates)
  {
    hide Net;
    var cases, wins, ties, losses, criticals, fatals, hardFailures, passed := 0, 0, 0, 0, 0, 0, 0, true;
    for i := 0 to |domains|
      invariant cases == SumMeasure(gates[..i], Cases) && wins == SumMeasure(gates[..i], Wins)
      invariant ties == SumMeasure(gates[..i], Ties) && losses == SumMeasure(gates[..i], Losses)
      invariant criticals == SumMeasure(gates[..i], Criticals) && fatals == SumMeasure(gates[..i], Fatals)
      invariant hardFailures == SumMeasure(gates[..i], HardFailures)
      invariant passed <==> forall j :: 0 <= j < i ==> gates[j].passed
    {
      var gate := results[domains[i]].replicates[k].1;
      assert gate == gates[i] && gates[..i + 1][..i] == gates[..i];
      cases, wins, ties, losses := cases + gate.caseCount, wins + gate.wins, ties + gate.ties, losses + gate.losses;
      criticals, fatals := criticals + gate.criticals, fatals + gate.fatals;
      hardFailures, passed := hardFailures + gate.hardFailures, passed && gate.passed;
    }
    assert gates[..|domains|] == gates;
    facts := Facts(
      source, source.calls > 0 && source.verifiedCalls == source.calls,
      |domains|, cases, wins, ties, losses, criticals, fatals, hardFailures,
      |domains| == RELEASE_DOMAIN_COUNT && passed && Net(wins, losses, cases) >= 0.10
      && criticals == 0 && fatals == 0 && hardFailures == 0);
  }

  method BuildFacts(
    results: map<string, DomainResult>, domains: seq<string>, ids: seq<string>, source: Source,
    ghost rows: seq<CaseRow>) returns (facts: Facts)
    requires AllObserve(rows, ids) && results == DomainResultsOf(rows, ids) && Lists(domains, rows)
    requires source.replicateId in ids
    ensures RowsObserve(rows, source.replicateId) && facts == FactsFor(source, rows)
  {
    var id, k := source.replicateId, IndexOf(ids, source.replicateId);
    assert RowsObserve(rows, ids[k]);
    ghost var gates := GatesBy(rows, domains, id);
    hide DomainResultsOf, DomainsOf, AllObserve, RowsObserve, DomainGate, IndexOf, FactsFor, NoDuplicates;
    forall i | 0 <= i < |domains|
      ensures domains[i] in results && k < |results[domains[i]].replicates|
      ensures results[domains[i]].replicates[k].1 == gates[i]
    {
      assert domains[i] in domains;
      ResultKeys(rows, ids, domains[i]);
      LookedUp(rows, ids, id, domains[i]);
    }
    FactsFromSums(rows, domains, source, gates);
    facts := AddResults(results, domains, k, source, gates);
  }

  lemma ResultKeys(rows: seq<CaseRow>, ids: seq<string>, domain: string)
    requires AllObserve(rows, ids) && domain in DomainsOf(rows)
    ensures domain in DomainResultsOf(rows, ids)
  {
    hide DomainResultOf, AllObserve;
  }

  method BuildAllFacts(
    runs: seq<Run>, results: map<string, DomainResult>, domains: seq<string>, ghost rows: seq<CaseRow>)
    returns (facts: seq<Facts>)
    requires AllObserve(rows, RunIds(runs)) && results == DomainResultsOf(rows, RunIds(runs)) && Lists(domains, rows)
    ensures facts == FactsList(runs, rows)
  {
    hide DomainResultsOf, AllObserve, RowsObserve, FactsFor, Lists;
    facts := [];
    for i := 0 to |runs|
      invariant facts == FactsList(runs, rows)[..i]
    {
      assert RunIds(runs)[i] == runs[i].source.replicateId;
      var own := BuildFacts(results, domains, RunIds(runs), runs[i].source, rows);
      facts := facts + [own];
    }
  }

  // Totals.

  method CountConsensus(rows: seq<CaseRow>, outcome: Outcome) returns (n: nat)
    ensures n == ConsensusCount(rows, outcome)
  {
    n := 0;
    for i := 0 to |rows|
      invariant n == ConsensusCount(rows[..i], outcome)
    {
      assert rows[..i + 1][..i] == rows[..i];
      n := n + (if rows[i].consensus == outcome then 1 else 0);
    }
    assert rows[..|rows|] == rows;
  }

  method CountStable(rows: seq<CaseRow>) returns (n: nat)
    ensures n == StableCount(rows)
  {
    n := 0;
    for i := 0 to |rows|
      invariant n == StableCount(rows[..i])
    {
      assert rows[..i + 1][..i] == rows[..i];
      n := n + (if rows[i].stable then 1 else 0);
    }
    assert rows[..|rows|] == rows;
  }

  method SumModelCalls(facts: seq<Facts>) returns (calls: nat, verified: nat)
    ensures calls == SumCalls(facts) && verified == SumVerified(facts)
  {
    calls, verified := 0, 0;
    for i := 0 to |facts|
      invariant calls == SumCalls(facts[..i]) && verified == SumVerified(facts[..i])
    {
      assert facts[..i + 1][..i] == facts[..i];
      calls, verified := calls + facts[i].source.calls, verified + facts[i].source.verifiedCalls;
    }
    assert facts[..|facts|] == facts;
  }

  method BuildAggregate(
    rows: seq<CaseRow>, domains: seq<string>, results: map<string, DomainResult>, facts: seq<Facts>)
    returns (aggregate: Aggregate)
    ensures aggregate == AggregateOf(rows, domains, results, facts)
  {
    hide Net, ConsensusCount, SumOver, StableCount, SumCalls, SumVerified;
    var wins := CountConsensus(rows, E.Win);
    var ties := CountConsensus(rows, E.Tie);
    var losses := CountConsensus(rows, E.Loss);
    var criticals := SumFlags(rows, Regressed);
    var fatals := SumFlags(rows, Flawed);
    var hardFailures := SumFlags(rows, HardFailed);
    var stable := CountStable(rows);
    var calls, verified := SumModelCalls(facts);
    var net := Net(wins, losses, |rows|);
    var full := |domains| == RELEASE_DOMAIN_COUNT && |rows| >= RELEASE_CASE_COUNT;
    var allDomains := results != map[] && forall d :: d in results ==> results[d].passed;
    var allRelease := forall i :: 0 <= i < |facts| ==> facts[i].aggregateGate;
    var allReal := forall i :: 0 <= i < |facts| ==> facts[i].source.calls > 0;
    var allReceipts := forall i :: 0 <= i < |facts| ==> facts[i].provenance;
    aggregate := Aggregate(
      wins, ties, losses, calls, verified, net, criticals, fatals, hardFailures, stable, |rows| - stable,
      if rows == [] then 0.0 else stable as real / |rows| as real,
      full, allRelease, allReceipts, allDomains,
      |facts| >= MINIMUM_REPLICATES && full && allRelease && allReal && allReceipts && allDomains
      && net >= 0.10 && criticals == 0 && fatals == 0 && hardFailures == 0);
  }

  // The report.

  lemma DomainsListed(runs: seq<Run>)
    requires runs != [] && Compatible(runs) && PlacesKnown(runs, PlaceList(runs))
    ensures Lists(DomainList(runs), RowList(runs))
  {
    RowsDomains(runs);
    SortedKeysSorted(runs[0].evaluations.Keys);
    KeysDistinct(runs[0].evaluations.Keys);
    hide SortedKeys, DomainsOf, Compatible, RowList, PlacesKnown;
  }

  /** Refuses runs that do not fit together or whose summaries claim another gate. */
  method AggregateBenchmarkReplicates(runs: seq<Run>) returns (report: Option<Report>)
    ensures report.Some? <==>
      runs != [] && Compatible(runs) && ClaimsHold(runs, ReportFrom(runs).facts)
    ensures report.Some? ==> report.value == ReportFrom(runs)
  {
    if !FitTogether(runs) {
      return None;
    }
    var independent := CheckIndependence(runs);
    if !independent {
      return None;
    }
    hide FitTogether, AllIndependent;
    var domains := SortedKeys(runs[0].evaluations.Keys);
    SortedKeysSorted(runs[0].evaluations.Keys);
    PlacesOk(runs);
    RowsOk(runs);
    DomainsListed(runs);
    hide Compatible, SortedKeys, Rows, PlacesIn, DomainsOf, RowsValid, AllObserve, AggregateOf, Lists, DomainResultsOf;
    var rows := BuildRows(runs, domains);
    assert rows == RowList(runs);
    var results := BuildDomains(rows, domains, RunIds(runs));
    var facts := BuildAllFacts(runs, results, domains, rows);
    if !ClaimsHold(runs, facts) {
      return None;
    }
    var aggregate := BuildAggregate(rows, domains, results, facts);
    return Some(Report(facts, domains, rows, results, aggregate,
                       EvidenceFor(|rows| * |runs|, aggregate.releaseGate)));
  }
}
