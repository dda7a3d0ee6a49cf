/** What the totals of a valid report count: cases, observations, calls and sources. */
module ReplicateTotals {
  import opened Counting
  import opened ReplicateLaws
  import opened Replicates
  import E = Evaluation

  /** The places, by row and position, of the observations with a mark. */
  function Marks(rows: seq<CaseRow>, marked: Observation -> bool): set<(int, int)> {
    set i, j | 0 <= i < |rows| && 0 <= j < |rows[i].observations| && marked(rows[i].observations[j]) :: (i, j)
  }

  function Marked(observations: seq<Observation>, marked: Observation -> bool): set<int> {
    set j | 0 <= j < |observations| && marked(observations[j])
  }

  lemma {:induction false} MarkedCounted(
    observations: seq<Observation>, feature: Feature, marked: Observation -> bool)
    requires forall observation :: marked(observation) <==> Shows(observation, feature)
    ensures Count(observations, feature) == |Marked(observations, marked)|
  {
    hide Shows;
    if observations != [] {
      var init, last := observations[..|observations| - 1], observations[|observations| - 1];
      MarkedCounted(init, feature, marked);
      var before, all := Marked(init, marked), Marked(observations, marked);
      forall i ensures i in all <==> i in before || (i == |init| && marked(last)) {
        assert 0 <= i < |init| ==> init[i] == observations[i];
      }
      OneMoreIndex(before, all, |init|, marked(last));
    }
  }

  lemma {:induction false} MarksCounted(rows: seq<CaseRow>, feature: Feature, marked: Observation -> bool)
    requires forall observation :: marked(observation) <==> Shows(observation, feature)
    ensures SumOver(rows, feature) == |Marks(rows, marked)|
  {
    hide Shows;
    if rows == [] {
      assert Marks(rows, marked) == {};
    } else {
      var n, init, last := |rows| - 1, rows[..|rows| - 1], rows[|rows| - 1];
      MarksCounted(init, feature, marked);
      MarkedCounted(last.observations, feature, marked);
      var places := InRow(n, Marked(last.observations, marked));
      assert init + [last] == rows;
      assert Marks(rows, marked) == Marks(init, marked) + places;
    }
  }

  lemma {:induction false} InRow<T>(n: int, some: set<T>) returns (places: set<(int, T)>)
    ensures |places| == |some| && forall place :: place in places <==> place.0 == n && place.1 in some
    decreases some
  {
    places := {};
    if j :| j in some {
      var others := InRow(n, some - {j});
      places := others + {(n, j)};
    }
  }

  /** All observations of the case agree. */
  predicate Agreed(observations: seq<Observation>) {
    forall j :: 0 <= j < |observations| ==> observations[j].outcome == observations[0].outcome
  }

  function AgreedCases(rows: seq<CaseRow>): set<int> {
    set i | 0 <= i < |rows| && Agreed(rows[i].observations)
  }

  lemma StableIsAgreed(row: CaseRow)
    requires row.observations != [] && RowTells(row)
    ensures row.stable <==> Agreed(row.observations)
  {
    if Agreed(row.observations) {
      var outcome := row.observations[0].outcome;
      assert 0 in Ending(row.observations, outcome);
      forall other: Outcome | other != outcome ensures |Ending(row.observations, other)| == 0 {
        assert Ending(row.observations, other) == {};
      }
      assert |Ending(row.observations, outcome)| > 0;
      hide Ending, AgreementTells;
      assert Leads(row.observations, outcome);
    }
  }

  ghost predicate Observed(rows: seq<CaseRow>) {
    forall i :: 0 <= i < |rows| ==> rows[i].observations != []
  }

  lemma {:induction false} AgreedCounted(rows: seq<CaseRow>)
    requires Told(rows) && Observed(rows)
    ensures StableCount(rows) == |AgreedCases(rows)|
  {
    hide RowTells, Agreed;
    if rows != [] {
      var init, last := rows[..|rows| - 1], rows[|rows| - 1];
      AgreedCounted(init);
      StableIsAgreed(last);
      var before, all := AgreedCases(init), AgreedCases(rows);
      forall i ensures i in all <==> i in before || (i == |init| && Agreed(last.observations)) {
        assert 0 <= i < |init| ==> init[i] == rows[i];
      }
      OneMoreIndex(before, all, |init|, Agreed(last.observations));
    }
  }

  // The aggregate.

  predicate Critical(observation: Observation) {
    observation.critical
  }

  predicate Fatal(observation: Observation) {
    observation.fatal
  }

  predicate FailedHard(observation: Observation) {
    observation.hardFailed
  }

  predicate FlagsTell(report: Report) {
    && report.aggregate.criticals == |Marks(report.rows, Critical)|
    && report.aggregate.fatals == |Marks(report.rows, Fatal)|
    && report.aggregate.hardFailures == |Marks(report.rows, FailedHard)|
  }

  predicate SharesTell(report: Report) {
    var aggregate, cases := report.aggregate, |report.rows|;
    && aggregate.stable == |AgreedCases(report.rows)| && aggregate.stable + aggregate.unstable == cases
    && (cases > 0 ==>
          && aggregate.agreement * cases as real == aggregate.stable as real
          && aggregate.net * cases as real == (aggregate.wins - aggregate.losses) as real)
  }

  predicate AllCallsVerified(facts: seq<Facts>) {
    forall k :: 0 <= k < |facts| ==> facts[k].source.verifiedCalls == facts[k].source.calls
  }

  /** Every replicate made a call, and no more calls are verified than were made. */
  predicate CallsTell(report: Report) {
    && |report.facts| <= report.aggregate.calls && report.aggregate.verifiedCalls <= report.aggregate.calls
    && (report.aggregate.verifiedCalls == report.aggregate.calls <==> AllCallsVerified(report.facts))
    && (report.aggregate.allReceipts <==> AllCallsVerified(report.facts))
  }

  /** No two replicates have an id, a manifest, a summary or their execution identities in common. */
  predicate SourcesTell(report: Report) {
    forall i, j :: 0 <= i < |report.facts| && 0 <= j < |report.facts| && i != j ==>
      var one, other := report.facts[i].source, report.facts[j].source;
      && one.replicateId != other.replicateId && one.manifestSha != other.manifestSha
      && one.summarySha != other.summarySha && one.identities != other.identities
      && (one.verifiedCalls == one.calls && other.verifiedCalls == other.calls ==> one.receipts != other.receipts)
  }

  lemma ValidObserved(report: Report)
    requires ReportValid(report)
    ensures Observed(report.rows)
  {
    hide RowFor, AllObserve, SourcesUnique, ResultsValid, AggregateRight, HasObservation;
    forall i | 0 <= i < |report.rows| ensures report.rows[i].observations != [] {
      assert RowOk(report.rows[i], Ids(report.facts));
    }
  }

  lemma FlagsTold(report: Report)
    requires AggregateRight(report)
    ensures FlagsTell(report)
  {
    MarksCounted(report.rows, Regressed, Critical);
    MarksCounted(report.rows, Flawed, Fatal);
    MarksCounted(report.rows, HardFailed, FailedHard);
    hide SumOver, Marks, Net, SumCalls, SumVerified, ConsensusCount, StableCount;
  }

  lemma SharesTold(report: Report)
    requires AggregateRight(report) && Told(report.rows) && Observed(report.rows)
    ensures SharesTell(report)
  {
    hide *;
    AgreedCounted(report.rows);
    ShareFields(report);
    SharesNamed(report);
  }

  lemma SharesNamed(report: Report)
    requires report.aggregate.stable == |AgreedCases(report.rows)|
    requires var aggregate, cases := report.aggregate, |report.rows|;
      && aggregate.stable + aggregate.unstable == cases
      && (cases > 0 ==>
            && aggregate.agreement * cases as real == aggregate.stable as real
            && aggregate.net * cases as real == (aggregate.wins - aggregate.losses) as real)
    ensures SharesTell(report)
  {
    hide AgreedCases;
  }

  lemma ShareFields(report: Report)
    requires AggregateRight(report)
    ensures var aggregate, cases := report.aggregate, |report.rows|;
      && aggregate.stable == StableCount(report.rows) && aggregate.stable + aggregate.unstable == cases
      && (cases > 0 ==>
            && aggregate.agreement * cases as real == aggregate.stable as real
            && aggregate.net * cases as real == (aggregate.wins - aggregate.losses) as real)
  {
    hide SumOver, SumCalls, SumVerified, ConsensusCount, StableCount;
    var aggregate, cases := report.aggregate, |report.rows|;
    if cases > 0 {
      ShareOf(aggregate.stable, cases, aggregate.agreement);
      ShareOf(aggregate.wins - aggregate.losses, cases, aggregate.net);
    }
  }

  lemma ShareOf(part: int, cases: nat, share: real)
    requires cases > 0 && share == part as real / cases as real
    ensures share * cases as real == part as real
  {
  }

  predicate CallsRight(facts: seq<Facts>) {
    forall k :: 0 <= k < |facts| ==>
      && facts[k].source.calls >= 1 && facts[k].source.verifiedCalls <= facts[k].source.calls
      && (facts[k].provenance <==> facts[k].source.verifiedCalls == facts[k].source.calls)
  }

  lemma {:induction false} CallsAdd(facts: seq<Facts>)
    requires CallsRight(facts)
    ensures |facts| <= SumCalls(facts) && SumVerified(facts) <= SumCalls(facts)
    ensures SumVerified(facts) == SumCalls(facts) <==> AllCallsVerified(facts)
  {
    if facts != [] {
      var init, last := facts[..|facts| - 1], facts[|facts| - 1];
      CallsAdd(init);
      assert facts == init + [last];
      assert AllCallsVerified(facts) <==> AllCallsVerified(init) && last.source.verifiedCalls == last.source.calls;
    }
  }

  lemma ValidCalls(report: Report)
    requires ReportValid(report)
    ensures CallsRight(report.facts)
  {
    hide RowsValid, AllObserve, SourcesUnique, AggregateRight, GateOf, DomainsOf, EveryDomainPassed;
    hide DomainResultsOf, OwnObservations;
    forall k | 0 <= k < |report.facts|
      ensures report.facts[k].source.calls >= 1 && report.facts[k].source.verifiedCalls <= report.facts[k].source.calls
      ensures report.facts[k].provenance <==> report.facts[k].source.verifiedCalls == report.facts[k].source.calls
    {
      assert RowsObserve(report.rows, Ids(report.facts)[k]) && FactsRight(report.rows, report.facts[k]);
    }
  }

  lemma CallsTold(report: Report)
    requires AggregateRight(report) && CallsRight(report.facts)
    ensures CallsTell(report)
  {
    CallsAdd(report.facts);
    hide SumOver, Net, SumCalls, SumVerified, ConsensusCount, StableCount;
  }

  lemma SourcesTold(report: Report)
    requires SourcesUnique(report.facts) && CallsRight(report.facts)
    ensures SourcesTell(report)
  {
  }

  lemma EvidenceTold(report: Report)
    requires ReportValid(report)
    ensures AllObserve(report.rows, Ids(report.facts))
    ensures report.evidence == if Releasable(report.rows, report.facts) then E3 else E1
  {
    ReleaseExactly(report);
    if Releasable(report.rows, report.facts) {
      Many(|report.rows|, |report.facts|);
    }
    hide RowsValid, AllObserve, SourcesUnique, ResultsValid, DomainHolds, TenPercentAhead, SeenBy, DomainsOf;
  }

  lemma Many(rows: nat, facts: nat)
    requires rows >= 60 && facts >= 3
    ensures rows * facts >= 5
  {
  }

  /** The totals of every valid report, counted in its observations and sources. */
  lemma TotalsTell(report: Report)
    requires ReportValid(report)
    ensures FlagsTell(report) && SharesTell(report) && CallsTell(report) && SourcesTell(report)
    ensures AllObserve(report.rows, Ids(report.facts))
    ensures report.evidence == if Releasable(report.rows, report.facts) then E3 else E1
  {
    RowsTold(report);
    ValidObserved(report);
    ValidCalls(report);
    EvidenceTold(report);
    hide RowsValid, AllObserve, SourcesUnique, ResultsValid, AggregateRight, Told, Observed, CallsRight, Releasable;
    hide FlagsTell, SharesTell, CallsTell, SourcesTell;
    FlagsTold(report);
    SharesTold(report);
    CallsTold(report);
    SourcesTold(report);
  }

  // One replicate and one domain.

  predicate SawMarked(row: CaseRow, id: string, marked: Observation -> bool) {
    HasObservation(row.observations, id) && marked(ObservationBy(row.observations, id))
  }

  /** The cases in which the replicate's own observation has the mark. */
  function SeenMarks(rows: seq<CaseRow>, id: string, marked: Observation -> bool): set<int> {
    set i | 0 <= i < |rows| && SawMarked(rows[i], id, marked)
  }

  lemma {:induction false} SeenMarksCounted(
    rows: seq<CaseRow>, id: string, feature: Feature, marked: Observation -> bool)
    requires RowsObserve(rows, id) && forall observation :: marked(observation) <==> Shows(observation, feature)
    ensures Count(OwnObservations(rows, id), feature) == |SeenMarks(rows, id, marked)|
  {
    hide Shows;
    if rows != [] {
      var init, last := rows[..|rows| - 1], rows[|rows| - 1];
      SeenMarksCounted(init, id, feature, marked);
      var own := ObservationBy(last.observations, id);
      assert OwnObservations(rows, id) == OwnObservations(init, id) + [own];
      OneMoreObservation(OwnObservations(init, id), own, feature);
      OneMoreMark(rows, id, marked);
      hide Count, OwnObservations, SeenMarks;
    } else {
      assert SeenMarks(rows, id, marked) == {};
    }
  }

  lemma OneMoreMark(rows: seq<CaseRow>, id: string, marked: Observation -> bool)
    requires rows != []
    ensures var init, last := rows[..|rows| - 1], rows[|rows| - 1];
      |SeenMarks(rows, id, marked)| == |SeenMarks(init, id, marked)| + if SawMarked(last, id, marked) then 1 else 0
  {
    hide SawMarked;
    var init, last := rows[..|rows| - 1], rows[|rows| - 1];
    var before, all := SeenMarks(init, id, marked), SeenMarks(rows, id, marked);
    forall i ensures i in all <==> i in before || (i == |init| && SawMarked(last, id, marked)) {
      assert 0 <= i < |init| ==> init[i] == rows[i];
    }
    OneMoreIndex(before, all, |init|, SawMarked(last, id, marked));
  }

  lemma FlagsOfFacts(rows: seq<CaseRow>, facts: Facts)
    requires RowsObserve(rows, facts.source.replicateId) && facts == FactsFor(facts.source, rows)
    ensures facts.criticals == |SeenMarks(rows, facts.source.replicateId, Critical)|
    ensures facts.fatals == |SeenMarks(rows, facts.source.replicateId, Fatal)|
    ensures facts.hardFailures == |SeenMarks(rows, facts.source.replicateId, FailedHard)|
  {
    var id := facts.source.replicateId;
    SeenMarksCounted(rows, id, Regressed, Critical);
    SeenMarksCounted(rows, id, Flawed, Fatal);
    SeenMarksCounted(rows, id, HardFailed, FailedHard);
    hide SeenMarks, Count, EveryDomainPassed, DomainsOf, Net, OwnObservations;
  }

  lemma ValidFacts(report: Report, k: nat)
    requires ReportValid(report) && k < |report.facts|
    ensures var facts := report.facts[k];
      && facts.source.replicateId == Ids(report.facts)[k]
      && RowsObserve(report.rows, facts.source.replicateId) && facts == FactsFor(facts.source, report.rows)
  {
    hide RowsValid, AllObserve, SourcesUnique, AggregateRight, DomainResultsOf, FactsFor, RowsObserve;
    assert RowsObserve(report.rows, Ids(report.facts)[k]) && FactsRight(report.rows, report.facts[k]);
  }

  /** The counters of flags of each replicate and its own release gate. */
  lemma ReplicateFlagsTell(report: Report, k: nat)
    requires ReportValid(report) && k < |report.facts|
    ensures var facts, id := report.facts[k], Ids(report.facts)[k];
      && facts.source.replicateId == id
      && facts.criticals == |SeenMarks(report.rows, id, Critical)|
      && facts.fatals == |SeenMarks(report.rows, id, Fatal)|
      && facts.hardFailures == |SeenMarks(report.rows, id, FailedHard)|
      && (facts.aggregateGate <==> Releases(report.rows, id))
  {
    hide *;
    ValidFacts(report, k);
    GateOfFacts(report.rows, report.facts[k]);
    FlagsOfFacts(report.rows, report.facts[k]);
  }

  predicate DomainCounts(rows: seq<CaseRow>, domain: string, result: DomainResult) {
    && result.caseCount == |DomainRows(rows, domain)|
    && result.wins == |CasesIn(rows, domain, E.Win)|
    && result.ties == |CasesIn(rows, domain, E.Tie)|
    && result.losses == |CasesIn(rows, domain, E.Loss)|
  }

  lemma DomainCounted(rows: seq<CaseRow>, domain: string, ids: seq<string>)
    requires Told(rows) && AllObserve(InDomain(rows, domain), ids)
    ensures DomainCounts(rows, domain, DomainResultOf(InDomain(rows, domain), ids))
  {
    DomainSize(rows, domain);
    ConsensusCountedIn(rows, domain, E.Win);
    ConsensusCountedIn(rows, domain, E.Tie);
    ConsensusCountedIn(rows, domain, E.Loss);
    hide InDomain, CasesIn, DomainRows, Count, ConsensusObservations, SumOver, Told;
  }

  // The release gate of one replicate.

  predicate SawFlagged(row: CaseRow, id: string) {
    HasObservation(row.observations, id) && !Unflagged(ObservationBy(row.observations, id))
  }

  /** In this domain the replicate saw five cases or more, more wins than losses, and no flag. */
  predicate WinsDomain(rows: seq<CaseRow>, domain: string, id: string) {
    var inside := DomainRows(rows, domain);
    && |inside| >= 5
    && |SeenBy(rows, id, E.Win) * inside| > |SeenBy(rows, id, E.Loss) * inside|
    && NoneInside(rows, domain, id)
  }

  /** The replicate alone would be released. */
  predicate Releases(rows: seq<CaseRow>, id: string) {
    && |DomainsOf(rows)| == 12
    && (forall domain :: domain in DomainsOf(rows) ==> WinsDomain(rows, domain, id))
    && TenPercentAhead(SeenBy(rows, id, E.Win), SeenBy(rows, id, E.Loss), |rows|)
  }

  lemma GateExactly(observations: seq<Observation>)
    ensures GateOf(observations).passed <==>
      && |observations| >= 5 && Count(observations, Ended(E.Win)) > Count(observations, Ended(E.Loss))
      && Clean(observations)
  {
    CleanCounts(observations);
    hide Count, Clean;
  }

  lemma OwnClean(rows: seq<CaseRow>, id: string)
    requires RowsObserve(rows, id)
    ensures Clean(OwnObservations(rows, id)) <==> NoneFlagged(rows, id)
  {
    var own := OwnObservations(rows, id);
    forall i | 0 <= i < |rows| ensures SawFlagged(rows[i], id) <==> !Unflagged(own[i]) {
    }
    hide SawFlagged, OwnObservations;
    assert Clean(own) <==> forall i :: 0 <= i < |own| ==> Unflagged(own[i]);
  }

  predicate NoneFlagged(rows: seq<CaseRow>, id: string) {
    forall i :: 0 <= i < |rows| ==> !SawFlagged(rows[i], id)
  }

  predicate NoneInside(rows: seq<CaseRow>, domain: string, id: string) {
    forall i :: 0 <= i < |rows| && rows[i].domain == domain ==> !SawFlagged(rows[i], id)
  }

  lemma FlaggedAppend(rows: seq<CaseRow>, last: CaseRow, id: string)
    ensures NoneFlagged(rows + [last], id) <==> NoneFlagged(rows, id) && !SawFlagged(last, id)
  {
    hide SawFlagged;
    var longer := rows + [last];
    assert longer[|rows|] == last;
    assert forall i :: 0 <= i < |rows| ==> longer[i] == rows[i];
  }

  lemma {:induction false} InsideUnflagged(rows: seq<CaseRow>, domain: string, id: string)
    ensures NoneFlagged(InDomain(rows, domain), id) <==> NoneInside(rows, domain, id)
  {
    hide SawFlagged;
    if rows != [] {
      var init, last := rows[..|rows| - 1], rows[|rows| - 1];
      InsideUnflagged(init, domain, id);
      LastInDomain(rows, domain);
      hide InDomain, DomainRows;
      var before, own := InDomain(init, domain), InDomain(rows, domain);
      assert NoneInside(rows, domain, id)
        <==> NoneInside(init, domain, id) && (last.domain == domain ==> !SawFlagged(last, id));
      if last.domain == domain {
        FlaggedAppend(before, last, id);
      }
    }
  }

  lemma InsideCounted(rows: seq<CaseRow>, domain: string, id: string, outcome: Outcome)
    requires RowsObserve(rows, id)
    ensures RowsObserve(InDomain(rows, domain), id)
    ensures Count(OwnObservations(InDomain(rows, domain), id), Ended(outcome))
      == |SeenBy(rows, id, outcome) * DomainRows(rows, domain)|
  {
    OwnCounted(rows, domain, id, Ended(outcome));
    assert OwnShowing(rows, domain, id, Ended(outcome)) == SeenBy(rows, id, outcome) * DomainRows(rows, domain);
  }

  lemma WinsExactly(rows: seq<CaseRow>, domain: string, id: string)
    requires RowsObserve(rows, id)
    ensures DomainGate(rows, domain, id).passed <==> WinsDomain(rows, domain, id)
  {
    var own := InDomain(rows, domain);
    InsideCounted(rows, domain, id, E.Win);
    InsideCounted(rows, domain, id, E.Loss);
    GateExactly(OwnObservations(own, id));
    OwnClean(own, id);
    InsideUnflagged(rows, domain, id);
    DomainSize(rows, domain);
    hide GateOf, InDomain, SeenBy, Clean, SawFlagged, Count, ObservationBy, RowsObserve;
  }

  lemma AllUnflagged(rows: seq<CaseRow>, id: string)
    requires RowsObserve(rows, id) && forall domain :: domain in DomainsOf(rows) ==> WinsDomain(rows, domain, id)
    ensures Clean(OwnObservations(rows, id))
  {
    OwnClean(rows, id);
    hide SawFlagged, SeenBy, Clean, OwnObservations;
    forall i | 0 <= i < |rows| ensures !SawFlagged(rows[i], id) {
      assert rows[i] in rows && rows[i].domain in DomainsOf(rows);
      assert NoneInside(rows, rows[i].domain, id);
    }
  }

  lemma GateParts(rows: seq<CaseRow>, facts: Facts)
    requires RowsObserve(rows, facts.source.replicateId) && facts == FactsFor(facts.source, rows)
    ensures var id := facts.source.replicateId;
      facts.aggregateGate <==>
        && |DomainsOf(rows)| == 12 && EveryDomainPassed(rows, id) && Clean(OwnObservations(rows, id))
        && TenPercentAhead(SeenBy(rows, id, E.Win), SeenBy(rows, id, E.Loss), |rows|)
  {
    var id := facts.source.replicateId;
    SeenCounted(rows, id, E.Win);
    SeenCounted(rows, id, E.Loss);
    NetAhead(SeenBy(rows, id, E.Win), SeenBy(rows, id, E.Loss), |rows|);
    CleanCounts(OwnObservations(rows, id));
    hide DomainsOf, EveryDomainPassed, SeenBy, Clean, Count, TenPercentAhead, Net, RowsObserve;
  }

  lemma GateOfFacts(rows: seq<CaseRow>, facts: Facts)
    requires RowsObserve(rows, facts.source.replicateId) && facts == FactsFor(facts.source, rows)
    ensures facts.aggregateGate <==> Releases(rows, facts.source.replicateId)
  {
    var id := facts.source.replicateId;
    GateParts(rows, facts);
    hide FactsFor, DomainGate, WinsDomain, DomainsOf, Clean, SeenBy, TenPercentAhead, RowsObserve, OwnObservations;
    forall domain: string ensures DomainGate(rows, domain, id).passed <==> WinsDomain(rows, domain, id) {
      WinsExactly(rows, domain, id);
    }
    if forall domain :: domain in DomainsOf(rows) ==> WinsDomain(rows, domain, id) {
      AllUnflagged(rows, id);
    }
  }

  // The results of the domains.

  predicate Occurs(rows: seq<CaseRow>, domain: string) {
    exists i :: 0 <= i < |rows| && rows[i].domain == domain
  }

  lemma ResultsCounted(rows: seq<CaseRow>, ids: seq<string>)
    requires Told(rows) && AllObserve(rows, ids)
    ensures forall domain :: domain in DomainResultsOf(rows, ids) <==> Occurs(rows, domain)
    ensures forall domain :: domain in DomainResultsOf(rows, ids) ==>
      DomainCounts(rows, domain, DomainResultsOf(rows, ids)[domain])
  {
    hide Told, AllObserve, DomainResultOf, InDomain, DomainCounts;
    forall domain | domain in DomainResultsOf(rows, ids)
      ensures DomainCounts(rows, domain, DomainResultsOf(rows, ids)[domain])
    {
      DomainObserves(rows, domain, ids);
      DomainCounted(rows, domain, ids);
    }
  }

  /** A valid report has a result for each domain that occurs in its rows, which counts the cases of that domain. */
  lemma DomainsTell(report: Report)
    requires ReportValid(report)
    ensures forall domain :: domain in report.domainResults <==> Occurs(report.rows, domain)
    ensures forall domain :: domain in report.domainResults ==>
      DomainCounts(report.rows, domain, report.domainResults[domain])
  {
    hide *;
    RowsTold(report);
    ValidResults(report);
    ResultsCounted(report.rows, Ids(report.facts));
  }

  lemma ValidResults(report: Report)
    requires ReportValid(report)
    ensures AllObserve(report.rows, Ids(report.facts))
    ensures report.domainResults == DomainResultsOf(report.rows, Ids(report.facts))
  {
    hide RowsValid, AllObserve, SourcesUnique, AggregateRight, DomainResultsOf, FactsValid;
  }
}
