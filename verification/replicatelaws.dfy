/** What a valid report says, counted directly in the observations of its rows. */
module ReplicateLaws {
  import opened Counting
  import opened ReplicateRuns
  import opened Replicates
  import opened StringOrder
  import opened Wilson
  import E = Evaluation

  // One row.

  function Ending(observations: seq<Observation>, outcome: Outcome): set<int> {
    set i | 0 <= i < |observations| && observations[i].outcome == outcome
  }

  /** The outcome is seen more often than each of the others. */
  predicate Leads(observations: seq<Observation>, outcome: Outcome) {
    forall other: Outcome :: other != outcome ==> |Ending(observations, other)| < |Ending(observations, outcome)|
  }

  /** A win or a loss needs a strict lead; everything else is a tie. */
  predicate CaseEnds(observations: seq<Observation>, outcome: Outcome) {
    match outcome
    case Win => Leads(observations, E.Win)
    case Loss => Leads(observations, E.Loss)
    case Tie => !Leads(observations, E.Win) && !Leads(observations, E.Loss)
  }

  predicate AllEnd(observations: seq<Observation>, outcome: Outcome) {
    forall i :: 0 <= i < |observations| ==> observations[i].outcome == outcome
  }

  predicate Clean(observations: seq<Observation>) {
    forall i :: 0 <= i < |observations| ==>
      !observations[i].critical && !observations[i].fatal && !observations[i].hardFailed
  }

  predicate RowTells(row: CaseRow) {
    ConsensusTells(row) && UnanimityTells(row) && AgreementTells(row)
  }

  predicate ConsensusTells(row: CaseRow) {
    && row.tally.wins == |Ending(row.observations, E.Win)|
    && row.tally.ties == |Ending(row.observations, E.Tie)|
    && row.tally.losses == |Ending(row.observations, E.Loss)|
    && CaseEnds(row.observations, row.consensus)
    && (row.basis == TiedPlurality <==> forall outcome: Outcome :: !Leads(row.observations, outcome))
  }

  predicate UnanimityTells(row: CaseRow) {
    && (row.basis == Unanimous <==> AllEnd(row.observations, row.consensus))
    && (row.stable <==> AllEnd(row.observations, row.consensus))
  }

  predicate IsMost(observations: seq<Observation>, most: int) {
    && |Ending(observations, E.Win)| <= most && |Ending(observations, E.Tie)| <= most
    && |Ending(observations, E.Loss)| <= most
    && (|Ending(observations, E.Win)| == most || |Ending(observations, E.Tie)| == most
        || |Ending(observations, E.Loss)| == most)
  }

  /** The agreement is the share of the most frequent outcome. */
  predicate AgreementTells(row: CaseRow) {
    && IsMost(row.observations, row.tally.Largest())
    && row.agreement * |row.observations| as real == row.tally.Largest() as real
  }

  lemma {:induction false} CountIsEnding(observations: seq<Observation>, outcome: Outcome)
    ensures Count(observations, Ended(outcome)) == |Ending(observations, outcome)|
  {
    if observations != [] {
      var init, last := observations[..|observations| - 1], observations[|observations| - 1];
      CountIsEnding(init, outcome);
      var before, all := Ending(init, outcome), Ending(observations, outcome);
      forall i ensures i in all <==> i in before || (i == |init| && last.outcome == outcome) {
        assert 0 <= i < |init| ==> init[i] == observations[i];
      }
      OneMoreIndex(before, all, |init|, last.outcome == outcome);
    }
  }

  /** The tallies decide the consensus: a win or a loss needs a strict lead over both other outcomes. */
  lemma ConsensusTold(tally: Tally)
    ensures var (consensus, basis) := Consensus(tally);
      && (consensus == E.Win <==> tally.wins > tally.ties && tally.wins > tally.losses)
      && (consensus == E.Loss <==> tally.losses > tally.ties && tally.losses > tally.wins)
      && (basis == TiedPlurality <==>
            && !(tally.wins > tally.ties && tally.wins > tally.losses)
            && !(tally.ties > tally.wins && tally.ties > tally.losses)
            && !(tally.losses > tally.ties && tally.losses > tally.wins))
      && (basis == Unanimous <==>
            && tally.wins + tally.ties + tally.losses > 0
            && (consensus == E.Win ==> tally.ties + tally.losses == 0)
            && (consensus == E.Tie ==> tally.wins + tally.losses == 0)
            && (consensus == E.Loss ==> tally.wins + tally.ties == 0))
  {
  }

  lemma LeadsInTally(observations: seq<Observation>, tally: Tally)
    requires tally == TallyOf(observations)
    ensures tally.wins == |Ending(observations, E.Win)| && tally.ties == |Ending(observations, E.Tie)|
    ensures tally.losses == |Ending(observations, E.Loss)|
    ensures Leads(observations, E.Win) <==> tally.wins > tally.ties && tally.wins > tally.losses
    ensures Leads(observations, E.Tie) <==> tally.ties > tally.wins && tally.ties > tally.losses
    ensures Leads(observations, E.Loss) <==> tally.losses > tally.ties && tally.losses > tally.wins
  {
    CountIsEnding(observations, E.Win);
    CountIsEnding(observations, E.Tie);
    CountIsEnding(observations, E.Loss);
    hide Count, Ending;
  }

  lemma {:induction false} TallySum(observations: seq<Observation>)
    ensures var tally := TallyOf(observations); tally.wins + tally.ties + tally.losses == |observations|
    ensures forall outcome: Outcome :: TallyOf(observations).Of(outcome) == |observations| <==> AllEnd(observations, outcome)
  {
    if observations != [] {
      var init, last := observations[..|observations| - 1], observations[|observations| - 1];
      TallySum(init);
      assert observations == init + [last];
      forall outcome: Outcome
        ensures TallyOf(observations).Of(outcome) == |observations| <==> AllEnd(observations, outcome)
      {
        assert AllEnd(observations, outcome) <==> AllEnd(init, outcome) && last.outcome == outcome;
      }
    }
  }

  lemma ConsensusRow(row: CaseRow)
    requires row.observations != [] && row == RowFor(row.domain, row.caseId, row.caseSha, row.observations)
    ensures ConsensusTells(row)
  {
    LeadsInTally(row.observations, TallyOf(row.observations));
    ConsensusTold(TallyOf(row.observations));
    hide Consensus, Ending, TallyOf, Leads;
  }

  lemma UnanimousRow(row: CaseRow)
    requires row.observations != [] && row == RowFor(row.domain, row.caseId, row.caseSha, row.observations)
    ensures UnanimityTells(row)
  {
    var tally := TallyOf(row.observations);
    ConsensusTold(tally);
    TallySum(row.observations);
    assert tally.Of(E.Win) == tally.wins && tally.Of(E.Tie) == tally.ties && tally.Of(E.Loss) == tally.losses;
    hide Consensus, TallyOf, AllEnd;
  }

  lemma MostRow(row: CaseRow)
    requires row.tally == TallyOf(row.observations)
    ensures IsMost(row.observations, row.tally.Largest())
  {
    LeadsInTally(row.observations, row.tally);
    LargestOne(row.tally);
    hide Ending, TallyOf, Leads, Tally.Largest;
  }

  lemma AgreementRow(row: CaseRow)
    requires row.observations != [] && row == RowFor(row.domain, row.caseId, row.caseSha, row.observations)
    ensures AgreementTells(row)
  {
    hide *;
    AgreementOf(row);
    MostRow(row);
    Share(row.tally.Largest(), |row.observations|, row.agreement);
    Combined(row);
  }

  lemma Combined(row: CaseRow)
    requires IsMost(row.observations, row.tally.Largest())
    requires row.agreement * |row.observations| as real == row.tally.Largest() as real
    ensures AgreementTells(row)
  {
    hide IsMost;
  }

  lemma AgreementOf(row: CaseRow)
    requires row.observations != [] && row == RowFor(row.domain, row.caseId, row.caseSha, row.observations)
    ensures row.tally == TallyOf(row.observations)
    ensures row.agreement == row.tally.Largest() as real / |row.observations| as real
  {
    hide Consensus, TallyOf, Tally.Largest, Present;
  }

  lemma Share(most: nat, n: nat, share: real)
    requires n > 0 && share == most as real / n as real
    ensures share * n as real == most as real
  {
  }

  lemma LargestOne(tally: Tally)
    ensures tally.wins <= tally.Largest() && tally.ties <= tally.Largest() && tally.losses <= tally.Largest()
    ensures tally.Largest() == tally.wins || tally.Largest() == tally.ties || tally.Largest() == tally.losses
  {
  }

  lemma RowTold(row: CaseRow)
    requires row.observations != [] && row == RowFor(row.domain, row.caseId, row.caseSha, row.observations)
    ensures RowTells(row)
  {
    ConsensusRow(row);
    UnanimousRow(row);
    AgreementRow(row);
    hide ConsensusTells, UnanimityTells, AgreementTells;
  }

  // The whole report, counted in its rows.

  function DomainRows(rows: seq<CaseRow>, domain: string): set<int> {
    set i | 0 <= i < |rows| && rows[i].domain == domain
  }

  /** The cases that end so, in one domain and in all. */
  function CasesEnding(rows: seq<CaseRow>, outcome: Outcome): set<int> {
    set i | 0 <= i < |rows| && CaseEnds(rows[i].observations, outcome)
  }

  predicate Saw(row: CaseRow, id: string, outcome: Outcome) {
    HasObservation(row.observations, id) && ObservationBy(row.observations, id).outcome == outcome
  }

  /** The cases in which the replicate saw that outcome. */
  function SeenBy(rows: seq<CaseRow>, id: string, outcome: Outcome): set<int> {
    set i | 0 <= i < |rows| && Saw(rows[i], id, outcome)
  }

  predicate AllClean(rows: seq<CaseRow>) {
    forall i :: 0 <= i < |rows| ==> Clean(rows[i].observations)
  }

  /** At least a tenth of the cases more are won than lost. */
  predicate TenPercentAhead(won: set<int>, lost: set<int>, cases: int) {
    10 * (|won| - |lost|) >= cases > 0
  }

  /** The domain has five cases, more of them end in a win than in a loss, and so does every replicate see it. */
  predicate DomainHolds(rows: seq<CaseRow>, domain: string, ids: seq<string>)
    requires AllObserve(rows, ids)
  {
    var inside := DomainRows(rows, domain);
    && |inside| >= 5
    && |CasesEnding(rows, E.Win) * inside| > |CasesEnding(rows, E.Loss) * inside|
    && forall k :: 0 <= k < |ids| ==>
         |SeenBy(rows, ids[k], E.Win) * inside| > |SeenBy(rows, ids[k], E.Loss) * inside|
  }

  /** What a release needs, in terms of the observations and the sources alone. */
  predicate Releasable(rows: seq<CaseRow>, facts: seq<Facts>)
    requires AllObserve(rows, Ids(facts))
  {
    && |facts| >= 3 && |DomainsOf(rows)| == 12 && |rows| >= 60
    && (forall k :: 0 <= k < |facts| ==> facts[k].source.calls > 0 && facts[k].source.verifiedCalls == facts[k].source.calls)
    && AllClean(rows)
    && (forall d :: d in DomainsOf(rows) ==> DomainHolds(rows, d, Ids(facts)))
    && TenPercentAhead(CasesEnding(rows, E.Win), CasesEnding(rows, E.Loss), |rows|)
    && forall k :: 0 <= k < |facts| ==>
         TenPercentAhead(SeenBy(rows, Ids(facts)[k], E.Win), SeenBy(rows, Ids(facts)[k], E.Loss), |rows|)
  }

  // From the definitions to the counts.

  ghost predicate Told(rows: seq<CaseRow>) {
    forall i :: 0 <= i < |rows| ==> RowTells(rows[i])
  }

  lemma CaseEndsOnce(row: CaseRow, outcome: Outcome)
    requires RowTells(row)
    ensures row.consensus == outcome <==> CaseEnds(row.observations, outcome)
  {
    hide Ending;
  }

  lemma {:induction false} ConsensusCounted(rows: seq<CaseRow>, outcome: Outcome)
    requires Told(rows)
    ensures ConsensusCount(rows, outcome) == |CasesEnding(rows, outcome)|
  {
    hide RowTells, CaseEnds;
    if rows != [] {
      var init, last := rows[..|rows| - 1], rows[|rows| - 1];
      ConsensusCounted(init, outcome);
      CaseEndsOnce(last, outcome);
      var before, all := CasesEnding(init, outcome), CasesEnding(rows, outcome);
      forall i ensures i in all <==> i in before || (i == |init| && CaseEnds(last.observations, outcome)) {
        assert 0 <= i < |init| ==> init[i] == rows[i];
      }
      OneMoreIndex(before, all, |init|, CaseEnds(last.observations, outcome));
    }
  }

  predicate OwnShows(row: CaseRow, domain: string, id: string, feature: Feature) {
    row.domain == domain && HasObservation(row.observations, id) && Shows(ObservationBy(row.observations, id), feature)
  }

  function OwnShowing(rows: seq<CaseRow>, domain: string, id: string, feature: Feature): set<int> {
    set i | 0 <= i < |rows| && OwnShows(rows[i], domain, id, feature)
  }

  lemma LastInDomain(rows: seq<CaseRow>, domain: string)
    requires rows != []
    ensures var init, last := rows[..|rows| - 1], rows[|rows| - 1];
      && InDomain(rows, domain) == (if last.domain == domain then InDomain(init, domain) + [last] else InDomain(init, domain))
      && |DomainRows(rows, domain)| == |DomainRows(init, domain)| + if last.domain == domain then 1 else 0
  {
    var init, last := rows[..|rows| - 1], rows[|rows| - 1];
    var before, all := DomainRows(init, domain), DomainRows(rows, domain);
    forall i ensures i in all <==> i in before || (i == |init| && last.domain == domain) {
      assert 0 <= i < |init| ==> init[i] == rows[i];
    }
    OneMoreIndex(before, all, |init|, last.domain == domain);
  }

  lemma {:induction false} DomainSize(rows: seq<CaseRow>, domain: string)
    ensures |InDomain(rows, domain)| == |DomainRows(rows, domain)|
  {
    if rows != [] {
      DomainSize(rows[..|rows| - 1], domain);
      LastInDomain(rows, domain);
      hide InDomain, DomainRows;
    }
  }

  lemma {:induction false} OwnCounted(rows: seq<CaseRow>, domain: string, id: string, feature: Feature)
    requires RowsObserve(rows, id)
    ensures RowsObserve(InDomain(rows, domain), id)
    ensures Count(OwnObservations(InDomain(rows, domain), id), feature) == |OwnShowing(rows, domain, id, feature)|
  {
    RowsOfDomain(rows, domain, id);
    if rows != [] {
      var init, last := rows[..|rows| - 1], rows[|rows| - 1];
      OwnCounted(init, domain, id, feature);
      LastInDomain(rows, domain);
      OneMoreOwn(rows, domain, id, feature);
      var own := InDomain(init, domain);
      if last.domain == domain {
        assert OwnObservations(own + [last], id) == OwnObservations(own, id) + [ObservationBy(last.observations, id)];
        OneMoreObservation(OwnObservations(own, id), ObservationBy(last.observations, id), feature);
      }
      hide Count, Shows, InDomain, OwnShowing, DomainRows, OwnObservations;
    } else {
      assert OwnShowing(rows, domain, id, feature) == {};
    }
  }

  lemma OneMoreOwn(rows: seq<CaseRow>, domain: string, id: string, feature: Feature)
    requires rows != []
    ensures var init, last := rows[..|rows| - 1], rows[|rows| - 1];
      |OwnShowing(rows, domain, id, feature)| == |OwnShowing(init, domain, id, feature)|
        + if OwnShows(last, domain, id, feature) then 1 else 0
  {
    var init, last := rows[..|rows| - 1], rows[|rows| - 1];
    var before, all := OwnShowing(init, domain, id, feature), OwnShowing(rows, domain, id, feature);
    hide OwnShows;
    forall i ensures i in all <==> i in before || (i == |init| && OwnShows(last, domain, id, feature)) {
      assert 0 <= i < |init| ==> init[i] == rows[i];
    }
    OneMoreIndex(before, all, |init|, OwnShows(last, domain, id, feature));
  }

  lemma {:induction false} SeenCounted(rows: seq<CaseRow>, id: string, outcome: Outcome)
    requires RowsObserve(rows, id)
    ensures Count(OwnObservations(rows, id), Ended(outcome)) == |SeenBy(rows, id, outcome)|
  {
    if rows != [] {
      var init, last := rows[..|rows| - 1], rows[|rows| - 1];
      SeenCounted(init, id, outcome);
      var own := ObservationBy(last.observations, id);
      assert OwnObservations(rows, id) == OwnObservations(init, id) + [own];
      OneMoreObservation(OwnObservations(init, id), own, Ended(outcome));
      OneMoreSeen(rows, id, outcome);
      hide Count, OwnObservations, SeenBy;
    } else {
      assert SeenBy(rows, id, outcome) == {};
    }
  }

  lemma OneMoreSeen(rows: seq<CaseRow>, id: string, outcome: Outcome)
    requires rows != []
    ensures var init, last := rows[..|rows| - 1], rows[|rows| - 1];
      |SeenBy(rows, id, outcome)| == |SeenBy(init, id, outcome)| + if Saw(last, id, outcome) then 1 else 0
  {
    hide Saw;
    var init, last := rows[..|rows| - 1], rows[|rows| - 1];
    var before, all := SeenBy(init, id, outcome), SeenBy(rows, id, outcome);
    forall i ensures i in all <==> i in before || (i == |init| && Saw(last, id, outcome)) {
      assert 0 <= i < |init| ==> init[i] == rows[i];
    }
    OneMoreIndex(before, all, |init|, Saw(last, id, outcome));
  }

  function CasesIn(rows: seq<CaseRow>, domain: string, outcome: Outcome): set<int> {
    set i | 0 <= i < |rows| && rows[i].domain == domain && CaseEnds(rows[i].observations, outcome)
  }

  lemma {:induction false} ConsensusCountedIn(rows: seq<CaseRow>, domain: string, outcome: Outcome)
    requires Told(rows)
    ensures Count(ConsensusObservations(InDomain(rows, domain)), Ended(outcome)) == |CasesIn(rows, domain, outcome)|
  {
    hide RowTells, CaseEnds;
    if rows != [] {
      var init, last := rows[..|rows| - 1], rows[|rows| - 1];
      ConsensusCountedIn(init, domain, outcome);
      LastInDomain(rows, domain);
      CaseEndsOnce(last, outcome);
      OneMoreCase(rows, domain, outcome);
      if last.domain == domain {
        OneMoreConsensus(InDomain(init, domain), last, outcome);
      }
      hide Count, ConsensusObservations, InDomain, DomainRows, CasesIn;
    }
  }

  lemma OneMoreCase(rows: seq<CaseRow>, domain: string, outcome: Outcome)
    requires rows != []
    ensures var init, last := rows[..|rows| - 1], rows[|rows| - 1];
      |CasesIn(rows, domain, outcome)| == |CasesIn(init, domain, outcome)|
        + if last.domain == domain && CaseEnds(last.observations, outcome) then 1 else 0
  {
    hide CaseEnds;
    var init, last := rows[..|rows| - 1], rows[|rows| - 1];
    var before, all := CasesIn(init, domain, outcome), CasesIn(rows, domain, outcome);
    var holds := last.domain == domain && CaseEnds(last.observations, outcome);
    forall i ensures i in all <==> i in before || (i == |init| && holds) {
      assert 0 <= i < |init| ==> init[i] == rows[i];
    }
    OneMoreIndex(before, all, |init|, holds);
  }

  lemma OneMoreConsensus(rows: seq<CaseRow>, last: CaseRow, outcome: Outcome)
    ensures Count(ConsensusObservations(rows + [last]), Ended(outcome))
      == Count(ConsensusObservations(rows), Ended(outcome)) + if last.consensus == outcome then 1 else 0
  {
    var more := ConsensusObservations(rows + [last]);
    assert more == ConsensusObservations(rows) + [more[|rows|]];
    OneMoreObservation(ConsensusObservations(rows), more[|rows|], Ended(outcome));
    hide Count;
  }

  // Flags.

  predicate Unflagged(observation: Observation) {
    !observation.critical && !observation.fatal && !observation.hardFailed
  }

  lemma {:induction false} CountNone(observations: seq<Observation>, feature: Feature)
    ensures Count(observations, feature) == 0 <==>
      forall i :: 0 <= i < |observations| ==> !Shows(observations[i], feature)
  {
    hide Shows;
    if observations != [] {
      CountNone(observations[..|observations| - 1], feature);
    }
  }

  lemma CleanCounts(observations: seq<Observation>)
    ensures Clean(observations) <==>
      && Count(observations, Regressed) == 0 && Count(observations, Flawed) == 0 && Count(observations, HardFailed) == 0
  {
    CountNone(observations, Regressed);
    CountNone(observations, Flawed);
    CountNone(observations, HardFailed);
    hide Count;
  }

  lemma {:induction false} SumsClean(rows: seq<CaseRow>)
    ensures AllClean(rows) <==>
      SumOver(rows, Regressed) == 0 && SumOver(rows, Flawed) == 0 && SumOver(rows, HardFailed) == 0
  {
    if rows != [] {
      var init, last := rows[..|rows| - 1], rows[|rows| - 1];
      SumsClean(init);
      CleanCounts(last.observations);
      hide Clean, Count;
      assert AllClean(rows) <==> AllClean(init) && Clean(last.observations);
    }
  }

  lemma CleanGate(observations: seq<Observation>)
    requires Clean(observations)
    ensures GateOf(observations).passed <==>
      |observations| >= 5 && Count(observations, Ended(E.Win)) > Count(observations, Ended(E.Loss))
    ensures GateOf(observations).criticals == 0 && GateOf(observations).fatals == 0
    ensures GateOf(observations).hardFailures == 0
  {
    CleanCounts(observations);
    hide Count, Clean;
  }

  lemma OwnClean(rows: seq<CaseRow>, id: string)
    requires RowsObserve(rows, id) && AllClean(rows)
    ensures Clean(OwnObservations(rows, id))
  {
  }

  lemma ConsensusClean(rows: seq<CaseRow>)
    requires AllClean(rows)
    ensures Clean(ConsensusObservations(rows))
  {
  }

  lemma DomainClean(rows: seq<CaseRow>, domain: string)
    requires AllClean(rows)
    ensures AllClean(InDomain(rows, domain))
  {
    var own := InDomain(rows, domain);
    hide InDomain, Clean;
    forall i | 0 <= i < |own| ensures Clean(own[i].observations) {
      InDomainMembers(rows, domain, own[i]);
    }
  }

  // The release gate.

  lemma NetAhead(won: set<int>, lost: set<int>, cases: nat)
    ensures Net(|won|, |lost|, cases) >= 0.10 <==> TenPercentAhead(won, lost, cases)
  {
    if cases > 0 {
      TenthOf(|won| - |lost|, cases);
    }
  }

  lemma TenthOf(ahead: int, cases: nat)
    requires cases > 0
    ensures ahead as real / cases as real >= 0.10 <==> 10 * ahead >= cases
  {
    var q, n := ahead as real / cases as real, cases as real;
    Ratio(ahead as real, n);
    FactorOrder(n, 0.10 - q);
    assert n * (0.10 - q) == 0.10 * n - ahead as real;
  }

  /** Among unflagged rows, one replicate's gate in a domain. */
  lemma OwnGateTold(rows: seq<CaseRow>, domain: string, id: string)
    requires RowsObserve(rows, id) && AllClean(rows)
    ensures DomainGate(rows, domain, id).passed <==>
      && |DomainRows(rows, domain)| >= 5
      && |SeenBy(rows, id, E.Win) * DomainRows(rows, domain)| > |SeenBy(rows, id, E.Loss) * DomainRows(rows, domain)|
  {
    var own := InDomain(rows, domain);
    RowsOfDomain(rows, domain, id);
    DomainClean(rows, domain);
    OwnClean(own, id);
    CleanGate(OwnObservations(own, id));
    DomainSize(rows, domain);
    OwnCounted(rows, domain, id, Ended(E.Win));
    OwnCounted(rows, domain, id, Ended(E.Loss));
    assert OwnShowing(rows, domain, id, Ended(E.Win)) == SeenBy(rows, id, E.Win) * DomainRows(rows, domain);
    assert OwnShowing(rows, domain, id, Ended(E.Loss)) == SeenBy(rows, id, E.Loss) * DomainRows(rows, domain);
    hide GateOf, InDomain, OwnShowing, SeenBy, DomainRows, AllClean, Clean, ObservationBy;
  }

  lemma ConsensusGateTold(rows: seq<CaseRow>, domain: string)
    requires Told(rows) && AllClean(rows)
    ensures GateOf(ConsensusObservations(InDomain(rows, domain))).passed <==>
      && |DomainRows(rows, domain)| >= 5
      && |CasesEnding(rows, E.Win) * DomainRows(rows, domain)| > |CasesEnding(rows, E.Loss) * DomainRows(rows, domain)|
  {
    var own := InDomain(rows, domain);
    DomainClean(rows, domain);
    ConsensusClean(own);
    CleanGate(ConsensusObservations(own));
    DomainSize(rows, domain);
    ConsensusCountedIn(rows, domain, E.Win);
    ConsensusCountedIn(rows, domain, E.Loss);
    assert CasesIn(rows, domain, E.Win) == CasesEnding(rows, E.Win) * DomainRows(rows, domain);
    assert CasesIn(rows, domain, E.Loss) == CasesEnding(rows, E.Loss) * DomainRows(rows, domain);
    hide GateOf, InDomain, CasesIn, CasesEnding, DomainRows, AllClean, Clean, Told;
  }

  lemma DomainTold(rows: seq<CaseRow>, domain: string, ids: seq<string>)
    requires AllObserve(rows, ids) && Told(rows) && AllClean(rows)
    ensures AllObserve(InDomain(rows, domain), ids)
    ensures DomainResultOf(InDomain(rows, domain), ids).passed <==> DomainHolds(rows, domain, ids)
  {
    DomainObserves(rows, domain, ids);
    ConsensusGateTold(rows, domain);
    forall k | 0 <= k < |ids| {
      OwnGateTold(rows, domain, ids[k]);
    }
    var gates := ReplicateGates(InDomain(rows, domain), ids);
    assert forall k :: 0 <= k < |ids| ==> gates[k].1 == DomainGate(rows, domain, ids[k]);
    hide GateOf, InDomain, OwnObservations, ConsensusObservations, SumOver, SeenBy, CasesEnding, DomainRows;
    hide AllClean, Told, RowsObserve;
  }

  lemma FactsTold(rows: seq<CaseRow>, facts: Facts, ids: seq<string>, k: nat)
    requires k < |ids| && facts.source.replicateId == ids[k] && AllObserve(rows, ids)
    requires Told(rows) && AllClean(rows) && facts == FactsFor(facts.source, rows)
    ensures facts.provenance <==> facts.source.calls > 0 && facts.source.verifiedCalls == facts.source.calls
    ensures (forall d :: d in DomainsOf(rows) ==> DomainHolds(rows, d, ids)) ==>
      (facts.aggregateGate <==>
        && |DomainsOf(rows)| == 12
        && TenPercentAhead(SeenBy(rows, ids[k], E.Win), SeenBy(rows, ids[k], E.Loss), |rows|))
    ensures facts.aggregateGate ==>
      && |DomainsOf(rows)| == 12
      && TenPercentAhead(SeenBy(rows, ids[k], E.Win), SeenBy(rows, ids[k], E.Loss), |rows|)
  {
    var id := ids[k];
    var own := OwnObservations(rows, id);
    OwnClean(rows, id);
    CleanGate(own);
    SeenCounted(rows, id, E.Win);
    SeenCounted(rows, id, E.Loss);
    NetAhead(SeenBy(rows, id, E.Win), SeenBy(rows, id, E.Loss), |rows|);
    if forall d :: d in DomainsOf(rows) ==> DomainHolds(rows, d, ids) {
      forall d | d in DomainsOf(rows) ensures DomainGate(rows, d, id).passed {
        OwnGateTold(rows, d, id);
      }
    }
    hide DomainGate, SeenBy, DomainRows, AllClean, Told, Net, DomainHolds, TenPercentAhead, Count, DomainsOf;
  }

  lemma RowsTold(report: Report)
    requires ReportValid(report)
    ensures Told(report.rows) && AllObserve(report.rows, Ids(report.facts))
  {
    hide RowTells, RowFor, SourcesUnique, ResultsValid, AggregateRight;
    forall i | 0 <= i < |report.rows| ensures RowTells(report.rows[i]) {
      assert RowOk(report.rows[i], Ids(report.facts));
      RowTold(report.rows[i]);
    }
  }

  /** In every valid report each row's consensus is the outcome with a strict lead among its observations, or
      a tie, and the aggregate counts the rows by it. */
  lemma ValidReportTells(report: Report)
    requires ReportValid(report)
    ensures Told(report.rows)
    ensures report.aggregate.wins == |CasesEnding(report.rows, E.Win)|
    ensures report.aggregate.ties == |CasesEnding(report.rows, E.Tie)|
    ensures report.aggregate.losses == |CasesEnding(report.rows, E.Loss)|
  {
    RowsTold(report);
    hide RowsValid, AllObserve, SourcesUnique, ResultsValid, CasesEnding, Told, SumOver, SumCalls, SumVerified, Net;
    ConsensusCounted(report.rows, E.Win);
    ConsensusCounted(report.rows, E.Tie);
    ConsensusCounted(report.rows, E.Loss);
    hide ConsensusCount;
  }

  // The release gate of a valid report, both ways.

  predicate DomainPasses(rows: seq<CaseRow>, domain: string, ids: seq<string>) {
    AllObserve(InDomain(rows, domain), ids) && DomainResultOf(InDomain(rows, domain), ids).passed
  }

  lemma ResultsPass(rows: seq<CaseRow>, ids: seq<string>)
    requires AllObserve(rows, ids)
    ensures DomainResultsOf(rows, ids).Keys == DomainsOf(rows)
    ensures forall d :: d in DomainsOf(rows) ==>
      (DomainResultsOf(rows, ids)[d].passed <==> DomainPasses(rows, d, ids))
  {
    hide DomainResultOf, InDomain, DomainsOf;
    forall d | d in DomainsOf(rows) {
      DomainObserves(rows, d, ids);
    }
    hide AllObserve;
  }

  lemma DomainFlag(report: Report)
    requires AggregateRight(report)
    ensures var results := report.domainResults;
      report.aggregate.allDomainGates <==> results != map[] && forall d :: d in results ==> results[d].passed
  {
    hide SumOver, Net, ConsensusCount, SumCalls, SumVerified, StableCount;
  }

  lemma AllDomainsPass(report: Report)
    requires ReportValid(report) && AllObserve(report.rows, Ids(report.facts)) && report.rows != []
    ensures report.aggregate.allDomainGates <==>
      forall d :: d in DomainsOf(report.rows) ==> DomainPasses(report.rows, d, Ids(report.facts))
  {
    var rows, ids := report.rows, Ids(report.facts);
    hide RowsValid, AllObserve, SourcesUnique, FactsValid, DomainPasses, DomainResultsOf, AggregateRight;
    ResultsPass(rows, ids);
    DomainFlag(report);
    assert rows[0].domain in DomainsOf(rows);
    hide DomainsOf, SortedKeys, Ids;
  }

  lemma DomainsTold(report: Report)
    requires ReportValid(report) && Told(report.rows) && AllClean(report.rows)
    requires AllObserve(report.rows, Ids(report.facts)) && report.rows != []
    ensures report.aggregate.allDomainGates <==>
      forall d :: d in DomainsOf(report.rows) ==> DomainHolds(report.rows, d, Ids(report.facts))
  {
    hide ReportValid, AllObserve, DomainHolds, Told, AllClean, InDomain, DomainResultOf, DomainsOf;
    AllDomainsPass(report);
    forall d | d in DomainsOf(report.rows) {
      DomainTold(report.rows, d, Ids(report.facts));
    }
  }

  lemma DomainCount(report: Report)
    requires ReportValid(report)
    ensures |report.domains| == |DomainsOf(report.rows)|
  {
    KeysDistinct(DomainsOf(report.rows));
    SetSizeTellsDuplicates(report.domains);
    hide RowsValid, AllObserve, SourcesUnique, FactsValid, SortedKeys, AggregateRight, DomainsOf;
    assert (set d | d in report.domains) == DomainsOf(report.rows);
  }

  /** The gate as it is computed, with the counters of flags replaced by the observations they count. */
  lemma GateParts(report: Report)
    requires ReportValid(report) && Told(report.rows)
    ensures var aggregate, facts := report.aggregate, report.facts;
      aggregate.releaseGate <==>
        && |facts| >= 3 && |report.domains| == 12 && |report.rows| >= 60
        && (forall k :: 0 <= k < |facts| ==>
              facts[k].aggregateGate && facts[k].source.calls > 0 && facts[k].provenance)
        && aggregate.allDomainGates && AllClean(report.rows)
        && TenPercentAhead(CasesEnding(report.rows, E.Win), CasesEnding(report.rows, E.Loss), |report.rows|)
  {
    var rows := report.rows;
    SumsClean(rows);
    ConsensusCounted(rows, E.Win);
    ConsensusCounted(rows, E.Loss);
    NetAhead(CasesEnding(rows, E.Win), CasesEnding(rows, E.Loss), |rows|);
    hide RowsValid, AllObserve, SourcesUnique, ResultsValid, Told, AllClean, SumOver, Net, SumCalls, SumVerified;
    hide ConsensusCount, CasesEnding, TenPercentAhead, StableCount;
  }

  predicate EveryDomainHolds(rows: seq<CaseRow>, ids: seq<string>)
    requires AllObserve(rows, ids)
  {
    forall d :: d in DomainsOf(rows) ==> DomainHolds(rows, d, ids)
  }

  predicate ReplicateHolds(rows: seq<CaseRow>, id: string)
    requires RowsObserve(rows, id)
  {
    && |DomainsOf(rows)| == 12
    && TenPercentAhead(SeenBy(rows, id, E.Win), SeenBy(rows, id, E.Loss), |rows|)
  }

  lemma FactsPart(report: Report, k: nat)
    requires ReportValid(report) && Told(report.rows) && AllClean(report.rows) && k < |report.facts|
    requires AllObserve(report.rows, Ids(report.facts))
    ensures var facts := report.facts[k];
      && (facts.provenance <==> facts.source.calls > 0 && facts.source.verifiedCalls == facts.source.calls)
      && (facts.aggregateGate ==> ReplicateHolds(report.rows, Ids(report.facts)[k]))
      && (EveryDomainHolds(report.rows, Ids(report.facts)) ==>
            (facts.aggregateGate <==> ReplicateHolds(report.rows, Ids(report.facts)[k])))
  {
    assert RowsObserve(report.rows, Ids(report.facts)[k]) && FactsRight(report.rows, report.facts[k]);
    hide ReportValid, Told, AllClean, DomainHolds, TenPercentAhead, SeenBy, DomainsOf, FactsFor;
    FactsTold(report.rows, report.facts[k], Ids(report.facts), k);
  }

  /** In every valid report the release gate holds exactly when the observations and the sources themselves
      are releasable. */
  lemma ReleaseExactly(report: Report)
    requires ReportValid(report)
    ensures AllObserve(report.rows, Ids(report.facts))
    ensures report.aggregate.releaseGate <==> Releasable(report.rows, report.facts)
  {
    hide ReportValid, Told, AllClean, DomainHolds, TenPercentAhead, SeenBy, CasesEnding, DomainsOf, AllObserve;
    RowsTold(report);
    GateParts(report);
    DomainCount(report);
    if |report.rows| >= 60 && AllClean(report.rows) {
      DomainsTold(report);
      forall k | 0 <= k < |report.facts| {
        FactsPart(report, k);
      }
    }
  }

  /** Each replicate's counters are what it saw. */
  lemma ReplicateTells(report: Report, k: nat)
    requires ReportValid(report) && k < |report.facts|
    ensures var facts, id := report.facts[k], Ids(report.facts)[k];
      && facts.caseCount == |report.rows|
      && facts.wins == |SeenBy(report.rows, id, E.Win)|
      && facts.ties == |SeenBy(report.rows, id, E.Tie)|
      && facts.losses == |SeenBy(report.rows, id, E.Loss)|
  {
    RowsTold(report);
    var rows, id := report.rows, Ids(report.facts)[k];
    assert RowsObserve(rows, id) && FactsRight(rows, report.facts[k]);
    hide ReportValid, AllObserve, SeenBy, Told, Count, EveryDomainPassed, DomainsOf;
    SeenCounted(rows, id, E.Win);
    SeenCounted(rows, id, E.Tie);
    SeenCounted(rows, id, E.Loss);
  }

  /** All of this holds of every report that is aggregated from runs that fit together. */
  lemma AggregatedTells(runs: seq<Run>)
    requires runs != [] && Compatible(runs)
    ensures var report := ReportFrom(runs);
      && Told(report.rows)
      && report.aggregate.wins == |CasesEnding(report.rows, E.Win)|
      && report.aggregate.losses == |CasesEnding(report.rows, E.Loss)|
      && AllObserve(report.rows, Ids(report.facts))
      && (report.aggregate.releaseGate <==> Releasable(report.rows, report.facts))
  {
    hide *;
    AggregatedAccepted(runs);
    ValidReportTells(ReportFrom(runs));
    ReleaseExactly(ReportFrom(runs));
  }
}
