/** Loaded benchmark runs that fit together, the report they lead to, and why it is valid. */
module ReplicateRuns {
  import opened Counting
  import opened Replicates
  import opened StringOrder

  datatype CaseRecord = CaseRecord(caseSha: string, outcome: Outcome, critical: bool, fatal: bool, hardFailed: bool)

  datatype Run = Run(source: Source, evaluations: map<string, map<string, CaseRecord>>, claimedGate: bool)

  /** What loading a run guarantees: real calls, identified responses, and no empty evaluation. */
  predicate Loaded(run: Run) {
    && run.source.calls > 0 && run.source.verifiedCalls == |run.source.receipts| <= run.source.calls
    && run.source.identities != {}
    && run.evaluations != map[]
    && forall d :: d in run.evaluations ==> run.evaluations[d] != map[]
  }

  function ObservationOf(run: Run, domain: string, caseId: string): Observation
    requires domain in run.evaluations && caseId in run.evaluations[domain]
  {
    var record := run.evaluations[domain][caseId];
    Observation(run.source.replicateId, record.outcome, record.critical, record.fatal, record.hardFailed)
  }

  predicate SameCases(runs: seq<Run>, domain: string) {
    forall i :: 0 <= i < |runs| ==>
      && domain in runs[i].evaluations && domain in runs[0].evaluations
      && runs[i].evaluations[domain].Keys == runs[0].evaluations[domain].Keys
      && forall id :: id in runs[i].evaluations[domain] ==>
           runs[i].evaluations[domain][id].caseSha == runs[0].evaluations[domain][id].caseSha
  }

  /** No provider response and no receipt is shared. */
  predicate Independent(a: Run, b: Run) {
    a.source.identities !! b.source.identities && a.source.receipts !! b.source.receipts
  }

  ghost predicate AllIndependent(runs: seq<Run>) {
    forall i, j :: 0 <= i < j < |runs| ==> Independent(runs[i], runs[j])
  }

  predicate SourcesDiffer(a: Source, b: Source) {
    a.replicateId != b.replicateId && a.manifestSha != b.manifestSha && a.summarySha != b.summarySha
  }

  /** The runs are of one configuration: the same domains, the same cases, different records. */
  predicate FitTogether(runs: seq<Run>) {
    && |runs| >= MINIMUM_REPLICATES
    && (forall i :: 0 <= i < |runs| ==> Loaded(runs[i]) && runs[i].evaluations.Keys == runs[0].evaluations.Keys)
    && (forall i, j :: 0 <= i < j < |runs| ==> SourcesDiffer(runs[i].source, runs[j].source))
    && (forall d :: d in runs[0].evaluations ==> SameCases(runs, d))
  }

  /** The compatibility checks, short of the claimed gates. */
  ghost predicate Compatible(runs: seq<Run>) {
    FitTogether(runs) && AllIndependent(runs)
  }

  function RunIds(runs: seq<Run>): seq<string> {
    seq(|runs|, i requires 0 <= i < |runs| => runs[i].source.replicateId)
  }

  predicate HasCase(runs: seq<Run>, domain: string, caseId: string) {
    forall i :: 0 <= i < |runs| ==> domain in runs[i].evaluations && caseId in runs[i].evaluations[domain]
  }

  function Observations(runs: seq<Run>, domain: string, caseId: string): seq<Observation>
    requires HasCase(runs, domain, caseId)
  {
    seq(|runs|, i requires 0 <= i < |runs| => ObservationOf(runs[i], domain, caseId))
  }

  function RowOf(runs: seq<Run>, domain: string, caseId: string): CaseRow
    requires runs != [] && HasCase(runs, domain, caseId)
  {
    RowFor(domain, caseId, runs[0].evaluations[domain][caseId].caseSha, Observations(runs, domain, caseId))
  }

  /** A domain and one of its cases. */
  type Place = (string, string)

  predicate PlacesKnown(runs: seq<Run>, places: seq<Place>) {
    forall i :: 0 <= i < |places| ==> HasCase(runs, places[i].0, places[i].1)
  }

  function Rows(runs: seq<Run>, places: seq<Place>): seq<CaseRow>
    requires runs != [] && PlacesKnown(runs, places)
  {
    seq(|places|, i requires 0 <= i < |places| => RowOf(runs, places[i].0, places[i].1))
  }

  lemma RowIsOk(runs: seq<Run>, domain: string, caseId: string)
    requires runs != [] && HasCase(runs, domain, caseId)
    ensures RowOk(RowOf(runs, domain, caseId), RunIds(runs))
  {
    var observations := Observations(runs, domain, caseId);
    forall k | 0 <= k < |runs| ensures HasObservation(observations, RunIds(runs)[k]) {
      assert observations[k].replicateId == RunIds(runs)[k];
    }
    hide TallyOf, Consensus, HasObservation;
  }

  /** Cases of one run, domain by domain, each in sorted order. */
  function PlacesIn(evaluations: map<string, map<string, CaseRecord>>, domains: seq<string>): seq<Place>
    requires forall d :: d in domains ==> d in evaluations
  {
    if domains == [] then []
    else
      var last := domains[|domains| - 1];
      PlacesIn(evaluations, domains[..|domains| - 1]) + Paired(last, SortedKeys(evaluations[last].Keys))
  }

  function Paired(domain: string, ids: seq<string>): seq<Place> {
    seq(|ids|, i requires 0 <= i < |ids| => (domain, ids[i]))
  }

  lemma {:induction false} PlacesHave(
    evaluations: map<string, map<string, CaseRecord>>, domains: seq<string>, domain: string, caseId: string)
    requires forall d :: d in domains ==> d in evaluations
    ensures (domain, caseId) in PlacesIn(evaluations, domains) <==>
      domain in domains && caseId in evaluations[domain]
  {
    if domains != [] {
      var init, last := domains[..|domains| - 1], domains[|domains| - 1];
      assert domains == init + [last];
      PlacesHave(evaluations, init, domain, caseId);
      SortedKeysSorted(evaluations[last].Keys);
      hide SortedKeys, KeyLeq;
      var ids := SortedKeys(evaluations[last].Keys);
      if domain == last && caseId in evaluations[last] {
        var i :| 0 <= i < |ids| && ids[i] == caseId;
        assert Paired(last, ids)[i] == (domain, caseId);
      }
    }
  }

  lemma {:induction false} PlacesDistinct(evaluations: map<string, map<string, CaseRecord>>, domains: seq<string>)
    requires (forall d :: d in domains ==> d in evaluations) && NoDuplicates(domains)
    ensures NoDuplicates(PlacesIn(evaluations, domains))
  {
    if domains != [] {
      var init, last := domains[..|domains| - 1], domains[|domains| - 1];
      assert last !in init;
      PlacesDistinct(evaluations, init);
      KeysDistinct(evaluations[last].Keys);
      var ids := SortedKeys(evaluations[last].Keys);
      hide SortedKeys;
      var before, own := PlacesIn(evaluations, init), Paired(last, ids);
      forall i, j | 0 <= i < |before| && 0 <= j < |own| ensures before[i] != own[j] {
        assert (before[i].0, before[i].1) in before;
        PlacesHave(evaluations, init, before[i].0, before[i].1);
      }
    }
  }

  function DomainList(runs: seq<Run>): seq<string>
    requires runs != []
  {
    SortedKeys(runs[0].evaluations.Keys)
  }

  function PlaceList(runs: seq<Run>): seq<Place>
    requires runs != []
  {
    SortedKeysSorted(runs[0].evaluations.Keys);
    PlacesIn(runs[0].evaluations, DomainList(runs))
  }

  lemma PlacesOk(runs: seq<Run>)
    requires runs != [] && Compatible(runs)
    ensures PlacesKnown(runs, PlaceList(runs)) && NoDuplicates(PlaceList(runs))
    ensures forall d, c :: (d, c) in PlaceList(runs) <==>
      d in runs[0].evaluations && c in runs[0].evaluations[d]
  {
    var first, domains := runs[0].evaluations, DomainList(runs);
    KeysDistinct(first.Keys);
    hide SortedKeys, Loaded;
    PlacesDistinct(first, domains);
    forall d, c ensures (d, c) in PlacesIn(first, domains) <==> d in first && c in first[d] {
      PlacesHave(first, domains, d, c);
    }
    var places := PlaceList(runs);
    hide NoDuplicates;
    forall i | 0 <= i < |places| ensures HasCase(runs, places[i].0, places[i].1) {
      assert (places[i].0, places[i].1) in places;
      assert SameCases(runs, places[i].0);
    }
  }

  function RowList(runs: seq<Run>): seq<CaseRow>
    requires runs != [] && PlacesKnown(runs, PlaceList(runs))
  {
    Rows(runs, PlaceList(runs))
  }

  lemma RowsEachOk(runs: seq<Run>)
    requires runs != [] && PlacesKnown(runs, PlaceList(runs))
    ensures forall i :: 0 <= i < |RowList(runs)| ==> RowOk(RowList(runs)[i], RunIds(runs))
  {
    var places, rows := PlaceList(runs), RowList(runs);
    RowsPlaced(runs);
    hide Rows, PlaceList, RowOk, RowOf, RowList, RunIds;
    forall i | 0 <= i < |rows| ensures RowOk(rows[i], RunIds(runs)) {
      RowIsOk(runs, places[i].0, places[i].1);
    }
  }

  lemma DomainMember(rows: seq<CaseRow>, d: string)
    ensures d in DomainsOf(rows) <==> exists i :: 0 <= i < |rows| && rows[i].domain == d
  {
    if d in DomainsOf(rows) {
      var row :| row in rows && row.domain == d;
    }
    if i :| 0 <= i < |rows| && rows[i].domain == d {
      assert rows[i] in rows;
    }
  }

  lemma SomeCase(runs: seq<Run>, d: string) returns (c: string)
    requires runs != [] && Compatible(runs) && d in runs[0].evaluations
    ensures c in runs[0].evaluations[d]
  {
    assert Loaded(runs[0]);
    c :| c in runs[0].evaluations[d];
  }

  lemma DomainHasRow(runs: seq<Run>, d: string)
    requires runs != [] && Compatible(runs) && PlacesKnown(runs, PlaceList(runs)) && d in runs[0].evaluations
    ensures exists i :: 0 <= i < |RowList(runs)| && RowList(runs)[i].domain == d
  {
    hide *;
    PlacesOk(runs);
    RowsPlaced(runs);
    var c := SomeCase(runs, d);
    assert (d, c) in PlaceList(runs);
    var i :| 0 <= i < |PlaceList(runs)| && PlaceList(runs)[i] == (d, c);
    assert RowList(runs)[i].domain == d;
  }

  lemma RowHasDomain(runs: seq<Run>, i: nat)
    requires runs != [] && Compatible(runs) && PlacesKnown(runs, PlaceList(runs)) && i < |RowList(runs)|
    ensures RowList(runs)[i].domain in runs[0].evaluations
  {
    hide *;
    PlacesOk(runs);
    RowsPlaced(runs);
    var place := PlaceList(runs)[i];
    assert (place.0, place.1) in PlaceList(runs);
  }

  lemma RowsDomains(runs: seq<Run>)
    requires runs != [] && Compatible(runs) && PlacesKnown(runs, PlaceList(runs))
    ensures DomainsOf(RowList(runs)) == runs[0].evaluations.Keys
  {
    hide *;
    forall d ensures d in DomainsOf(RowList(runs)) <==> d in runs[0].evaluations {
      DomainMember(RowList(runs), d);
      if d in runs[0].evaluations {
        DomainHasRow(runs, d);
      } else {
        forall i | 0 <= i < |RowList(runs)| ensures RowList(runs)[i].domain != d {
          RowHasDomain(runs, i);
        }
      }
    }
  }

  lemma RowsOk(runs: seq<Run>)
    requires runs != [] && Compatible(runs) && PlacesKnown(runs, PlaceList(runs))
    ensures RowsValid(RowList(runs), RunIds(runs)) && AllObserve(RowList(runs), RunIds(runs))
    ensures DomainsOf(RowList(runs)) == runs[0].evaluations.Keys
  {
    PlacesOk(runs);
    RowsPlaced(runs);
    RowsEachOk(runs);
    RowsDomains(runs);
    hide Rows, PlaceList, RowOf, Compatible, RowList, HasCase, RowOk, DomainsOf, AllObserve;
    RowsOkObserve(RowList(runs), RunIds(runs));
  }

  lemma RowsPlaced(runs: seq<Run>)
    requires runs != [] && PlacesKnown(runs, PlaceList(runs))
    ensures var places, rows := PlaceList(runs), RowList(runs);
      && |rows| == |places|
      && forall i :: 0 <= i < |rows| ==>
           && HasCase(runs, places[i].0, places[i].1)
           && rows[i] == RowOf(runs, places[i].0, places[i].1)
           && (rows[i].domain, rows[i].caseId) == places[i]
  {
    hide PlaceList, TallyOf, Consensus;
  }

  function FactsList(runs: seq<Run>, rows: seq<CaseRow>): seq<Facts>
    requires AllObserve(rows, RunIds(runs))
  {
    seq(|runs|, i requires 0 <= i < |runs| =>
      assert RowsObserve(rows, RunIds(runs)[i]);
      FactsFor(runs[i].source, rows))
  }

  function ReportOver(runs: seq<Run>, rows: seq<CaseRow>, domains: seq<string>): Report
    requires AllObserve(rows, RunIds(runs))
  {
    var facts, results := FactsList(runs, rows), DomainResultsOf(rows, RunIds(runs));
    var aggregate := AggregateOf(rows, domains, results, facts);
    Report(facts, domains, rows, results, aggregate, EvidenceFor(|rows| * |runs|, aggregate.releaseGate))
  }

  /** The aggregate report of compatible runs. */
  function ReportFrom(runs: seq<Run>): Report
    requires runs != [] && Compatible(runs)
  {
    PlacesOk(runs);
    RowsOk(runs);
    ReportOver(runs, RowList(runs), DomainList(runs))
  }

  /** Each run's own release gate, recomputed from the rows, is the one its summary claims. */
  predicate ClaimsHold(runs: seq<Run>, facts: seq<Facts>) {
    |facts| == |runs| && forall i :: 0 <= i < |runs| ==> facts[i].aggregateGate == runs[i].claimedGate
  }

  lemma FactsKnown(runs: seq<Run>, rows: seq<CaseRow>)
    requires AllObserve(rows, RunIds(runs))
    ensures Ids(FactsList(runs, rows)) == RunIds(runs)
    ensures forall i :: 0 <= i < |runs| ==> FactsList(runs, rows)[i].source == runs[i].source
    ensures forall i :: 0 <= i < |runs| ==>
      FactsList(runs, rows)[i].provenance
        == (runs[i].source.calls > 0 && runs[i].source.verifiedCalls == runs[i].source.calls)
  {
    hide GateOf, DomainGate, DomainsOf, Net;
  }

  lemma SourcesAreUnique(runs: seq<Run>, facts: seq<Facts>)
    requires runs != [] && Compatible(runs) && |facts| == |runs|
    requires forall i :: 0 <= i < |runs| ==> facts[i].source == runs[i].source
    requires forall i :: 0 <= i < |runs| ==>
      facts[i].provenance == (runs[i].source.calls > 0 && runs[i].source.verifiedCalls == runs[i].source.calls)
    ensures SourcesUnique(facts)
  {
    hide SameCases;
    forall i, j | 0 <= i < j < |facts|
      ensures facts[i].source.identities != facts[j].source.identities
      ensures facts[i].provenance && facts[j].provenance ==> facts[i].source.receipts != facts[j].source.receipts
    {
      assert Loaded(runs[i]) && Loaded(runs[j]) && SourcesDiffer(runs[i].source, runs[j].source);
      assert Independent(runs[i], runs[j]);
      var x :| x in runs[i].source.identities;
      if facts[i].provenance {
        assert |runs[i].source.receipts| > 0;
        var y :| y in runs[i].source.receipts;
      }
    }
  }

  lemma FactsOfRuns(runs: seq<Run>, rows: seq<CaseRow>)
    requires runs != [] && Compatible(runs) && AllObserve(rows, RunIds(runs))
    ensures AllObserve(rows, Ids(FactsList(runs, rows)))
    ensures FactsValid(rows, FactsList(runs, rows))
  {
    var facts := FactsList(runs, rows);
    FactsKnown(runs, rows);
    forall i | 0 <= i < |facts| ensures Loaded(runs[i]) {
    }
    hide Compatible, FactsList, FactsFor;
    forall i | 0 <= i < |facts|
      ensures RowsObserve(rows, Ids(facts)[i]) && FactsRight(rows, facts[i])
    {
      FactsAreRight(runs, rows, i);
    }
  }

  lemma EnoughRuns(runs: seq<Run>)
    requires Compatible(runs)
    ensures |runs| >= MINIMUM_REPLICATES
  {
  }

  /** Every report of the aggregator passes the recomputation. */
  lemma AggregatedAccepted(runs: seq<Run>)
    requires runs != [] && Compatible(runs)
    ensures ReportValid(ReportFrom(runs))
  {
    hide PlaceList, RowList, DomainsOf, RowsValid, AggregateOf, DomainResultsOf, FactsValid, SourcesUnique;
    hide AllObserve, Compatible, FactsList, SortedKeys, Ids, RunIds, EvidenceFor;
    PlacesOk(runs);
    RowsOk(runs);
    EnoughRuns(runs);
    var rows, domains := RowList(runs), DomainList(runs);
    FactsKnown(runs, rows);
    FactsCount(runs, rows);
    FactsOfRuns(runs, rows);
    SourcesAreUnique(runs, FactsList(runs, rows));
  }

  lemma FactsCount(runs: seq<Run>, rows: seq<CaseRow>)
    requires AllObserve(rows, RunIds(runs))
    ensures |FactsList(runs, rows)| == |runs|
  {
  }

  lemma FactsAreRight(runs: seq<Run>, rows: seq<CaseRow>, i: nat)
    requires AllObserve(rows, RunIds(runs)) && i < |runs|
    ensures RowsObserve(rows, runs[i].source.replicateId)
    ensures FactsList(runs, rows)[i]
      == FactsFor(runs[i].source, rows)
  {
    hide FactsFor, RowsObserve;
    assert RunIds(runs)[i] == runs[i].source.replicateId;
  }
}
