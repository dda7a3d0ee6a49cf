/** Reports on repeated benchmark runs, and what their rows and sources lead to. */
module Replicates {
  import opened Counting
  import opened StringOrder
  import E = Evaluation

  const MINIMUM_REPLICATES := 3
  const RELEASE_DOMAIN_COUNT := 12
  const RELEASE_CASE_COUNT := 60

  type Outcome = E.Outcome

  datatype Observation = Observation(
    replicateId: string, outcome: Outcome, critical: bool, fatal: bool, hardFailed: bool)

  datatype Feature = Ended(outcome: Outcome) | Regressed | Flawed | HardFailed

  predicate Shows(observation: Observation, feature: Feature) {
    match feature
    case Ended(outcome) => observation.outcome == outcome
    case Regressed => observation.critical
    case Flawed => observation.fatal
    case HardFailed => observation.hardFailed
  }

  function Count(observations: seq<Observation>, feature: Feature): nat {
    if observations == [] then 0
    else
      Count(observations[..|observations| - 1], feature)
      + if Shows(observations[|observations| - 1], feature) then 1 else 0
  }

  lemma OneMoreObservation(observations: seq<Observation>, last: Observation, feature: Feature)
    ensures Count(observations + [last], feature) == Count(observations, feature) + if Shows(last, feature) then 1 else 0
  {
    assert (observations + [last])[..|observations|] == observations;
  }

  // One case across the replicates.

  datatype Basis = TiedPlurality | Unanimous | Plurality

  datatype Tally = Tally(wins: nat, ties: nat, losses: nat)
  {
    function Of(outcome: Outcome): nat {
      match outcome case Win => wins case Tie => ties case Loss => losses
    }

    function Largest(): nat {
      var most := if wins >= ties then wins else ties;
      if most >= losses then most else losses
    }
  }

  function TallyOf(observations: seq<Observation>): Tally {
    Tally(Count(observations, Ended(E.Win)), Count(observations, Ended(E.Tie)), Count(observations, Ended(E.Loss)))
  }

  function Leaders(tally: Tally): seq<Outcome> {
    (if tally.wins == tally.Largest() then [E.Win] else [])
    + (if tally.ties == tally.Largest() then [E.Tie] else [])
    + (if tally.losses == tally.Largest() then [E.Loss] else [])
  }

  function Consensus(tally: Tally): (Outcome, Basis) {
    var leaders := Leaders(tally);
    if |leaders| > 1 then (E.Tie, TiedPlurality)
    else if tally.Largest() == tally.wins + tally.ties + tally.losses then (leaders[0], Unanimous)
    else (leaders[0], Plurality)
  }

  /** A consensus with a basis other than a tie is the one outcome seen more often than any other. */
  lemma ConsensusIsPlurality(tally: Tally, outcome: Outcome)
    ensures Consensus(tally).1 != TiedPlurality && Consensus(tally).0 == outcome <==>
      forall other: Outcome :: other != outcome ==> tally.Of(other) < tally.Of(outcome)
    ensures Consensus(tally).1 == Unanimous <==>
      exists only: Outcome :: tally.Of(only) > 0 && forall other: Outcome :: other != only ==> tally.Of(other) == 0
  {
    assert tally.Of(E.Win) == tally.wins && tally.Of(E.Tie) == tally.ties && tally.Of(E.Loss) == tally.losses;
  }

  datatype CaseRow = CaseRow(
    domain: string, caseId: string, caseSha: string, tally: Tally, observations: seq<Observation>,
    consensus: Outcome, basis: Basis, agreement: real, stable: bool)

  function Present(n: nat): nat {
    if n > 0 then 1 else 0
  }

  function RowFor(domain: string, caseId: string, caseSha: string, observations: seq<Observation>): CaseRow
    requires observations != []
  {
    var tally := TallyOf(observations);
    var (consensus, basis) := Consensus(tally);
    CaseRow(domain, caseId, caseSha, tally, observations, consensus, basis,
            tally.Largest() as real / |observations| as real,
            Present(tally.wins) + Present(tally.ties) + Present(tally.losses) == 1)
  }

  // Gates.

  datatype Gate = Gate(
    caseCount: nat, wins: nat, ties: nat, losses: nat, criticals: nat, fatals: nat, hardFailures: nat, passed: bool)

  function GateOf(observations: seq<Observation>): Gate {
    var wins, losses := Count(observations, Ended(E.Win)), Count(observations, Ended(E.Loss));
    var criticals, fatals := Count(observations, Regressed), Count(observations, Flawed);
    var hardFailures := Count(observations, HardFailed);
    Gate(
      |observations|, wins, Count(observations, Ended(E.Tie)), losses, criticals, fatals, hardFailures,
      |observations| >= 5 && wins > losses && criticals == 0 && fatals == 0 && hardFailures == 0)
  }

  method DomainGateFromObservations(observations: seq<Observation>) returns (gate: Gate)
    ensures gate == GateOf(observations)
  {
    var wins, ties, losses, criticals, fatals, hardFailures := 0, 0, 0, 0, 0, 0;
    for i := 0 to |observations|
      invariant wins == Count(observations[..i], Ended(E.Win)) && ties == Count(observations[..i], Ended(E.Tie))
      invariant losses == Count(observations[..i], Ended(E.Loss)) && criticals == Count(observations[..i], Regressed)
      invariant fatals == Count(observations[..i], Flawed) && hardFailures == Count(observations[..i], HardFailed)
    {
      assert observations[..i + 1][..i] == observations[..i];
      var observation := observations[i];
      match observation.outcome {
        case Win => wins := wins + 1;
        case Tie => ties := ties + 1;
        case Loss => losses := losses + 1;
      }
      criticals := criticals + (if observation.critical then 1 else 0);
      fatals := fatals + (if observation.fatal then 1 else 0);
      hardFailures := hardFailures + (if observation.hardFailed then 1 else 0);
    }
    assert observations[..|observations|] == observations;
    gate := Gate(
      |observations|, wins, ties, losses, criticals, fatals, hardFailures,
      |observations| >= 5 && wins > losses && criticals == 0 && fatals == 0 && hardFailures == 0);
  }

  // One domain.

  predicate HasObservation(observations: seq<Observation>, id: string) {
    exists i :: 0 <= i < |observations| && observations[i].replicateId == id
  }

  /** The first observation of a replicate. */
  function ObservationBy(observations: seq<Observation>, id: string): (found: Observation)
    requires HasObservation(observations, id)
    ensures found in observations && found.replicateId == id
  {
    if observations[0].replicateId == id then observations[0] else ObservationBy(observations[1..], id)
  }

  predicate RowsObserve(rows: seq<CaseRow>, id: string) {
    forall i :: 0 <= i < |rows| ==> HasObservation(rows[i].observations, id)
  }

  function OwnObservations(rows: seq<CaseRow>, id: string): seq<Observation>
    requires RowsObserve(rows, id)
  {
    seq(|rows|, i requires 0 <= i < |rows| => ObservationBy(rows[i].observations, id))
  }

  function AnyShows(observations: seq<Observation>, feature: Feature): bool {
    exists i :: 0 <= i < |observations| && Shows(observations[i], feature)
  }

  function ConsensusObservations(rows: seq<CaseRow>): seq<Observation> {
    seq(|rows|, i requires 0 <= i < |rows| =>
      Observation("", rows[i].consensus, AnyShows(rows[i].observations, Regressed),
                  AnyShows(rows[i].observations, Flawed), AnyShows(rows[i].observations, HardFailed)))
  }

  function SumOver(rows: seq<CaseRow>, feature: Feature): nat {
    if rows == [] then 0
    else SumOver(rows[..|rows| - 1], feature) + Count(rows[|rows| - 1].observations, feature)
  }

  datatype DomainResult = DomainResult(
    caseCount: nat, wins: nat, ties: nat, losses: nat, criticals: nat, fatals: nat, hardFailures: nat,
    individual: bool, consensus: bool, passed: bool, replicates: seq<(string, Gate)>)

  predicate AllObserve(rows: seq<CaseRow>, ids: seq<string>) {
    forall k :: 0 <= k < |ids| ==> RowsObserve(rows, ids[k])
  }

  function ReplicateGates(rows: seq<CaseRow>, ids: seq<string>): seq<(string, Gate)>
    requires AllObserve(rows, ids)
  {
    seq(|ids|, k requires 0 <= k < |ids| => (ids[k], GateOf(OwnObservations(rows, ids[k]))))
  }

  function DomainResultOf(rows: seq<CaseRow>, ids: seq<string>): DomainResult
    requires AllObserve(rows, ids)
  {
    var gates, consensus := ReplicateGates(rows, ids), GateOf(ConsensusObservations(rows));
    var individual := forall k :: 0 <= k < |gates| ==> gates[k].1.passed;
    DomainResult(
      |rows|, consensus.wins, consensus.ties, consensus.losses,
      SumOver(rows, Regressed), SumOver(rows, Flawed), SumOver(rows, HardFailed),
      individual, consensus.passed, individual && consensus.passed, gates)
  }

  function InDomain(rows: seq<CaseRow>, domain: string): seq<CaseRow> {
    if rows == [] then []
    else
      var before, last := InDomain(rows[..|rows| - 1], domain), rows[|rows| - 1];
      if last.domain == domain then before + [last] else before
  }

  function DomainsOf(rows: seq<CaseRow>): set<string> {
    set row | row in rows :: row.domain
  }

  lemma {:induction false} InDomainMembers(rows: seq<CaseRow>, domain: string, row: CaseRow)
    ensures row in InDomain(rows, domain) <==> row in rows && row.domain == domain
  {
    if rows != [] {
      assert rows == rows[..|rows| - 1] + [rows[|rows| - 1]];
      InDomainMembers(rows[..|rows| - 1], domain, row);
    }
  }

  lemma DomainObserves(rows: seq<CaseRow>, domain: string, ids: seq<string>)
    requires AllObserve(rows, ids)
    ensures AllObserve(InDomain(rows, domain), ids)
  {
    var own := InDomain(rows, domain);
    hide InDomain, HasObservation;
    forall k, i | 0 <= k < |ids| && 0 <= i < |own| ensures HasObservation(own[i].observations, ids[k]) {
      InDomainMembers(rows, domain, own[i]);
      var j :| 0 <= j < |rows| && rows[j] == own[i];
      assert RowsObserve(rows, ids[k]);
    }
  }

  function DomainResultsOf(rows: seq<CaseRow>, ids: seq<string>): map<string, DomainResult>
    requires AllObserve(rows, ids)
  {
    map d | d in DomainsOf(rows) ::
      DomainObserves(rows, d, ids);
      DomainResultOf(InDomain(rows, d), ids)
  }

  // One replicate.

  datatype Source = Source(
    replicateId: string, manifestSha: string, summarySha: string, payloadSha: string,
    identities: set<string>, receipts: set<string>, calls: nat, verifiedCalls: nat)

  datatype Facts = Facts(
    source: Source, provenance: bool, domainCount: nat, caseCount: nat, wins: nat, ties: nat, losses: nat,
    criticals: nat, fatals: nat, hardFailures: nat, aggregateGate: bool)

  datatype Measure = Cases | Wins | Ties | Losses | Criticals | Fatals | HardFailures

  function MeasureOf(gate: Gate, measure: Measure): nat {
    match measure
    case Cases => gate.caseCount
    case Wins => gate.wins
    case Ties => gate.ties
    case Losses => gate.losses
    case Criticals => gate.criticals
    case Fatals => gate.fatals
    case HardFailures => gate.hardFailures
  }

  function SumMeasure(gates: seq<Gate>, measure: Measure): nat {
    if gates == [] then 0
    else SumMeasure(gates[..|gates| - 1], measure) + MeasureOf(gates[|gates| - 1], measure)
  }

  function Net(wins: nat, losses: nat, cases: nat): real {
    if cases == 0 then 0.0 else (wins - losses) as real / cases as real
  }

  /** One replicate's gate in one domain. */
  function DomainGate(rows: seq<CaseRow>, domain: string, id: string): Gate
    requires RowsObserve(rows, id)
  {
    RowsOfDomain(rows, domain, id);
    GateOf(OwnObservations(InDomain(rows, domain), id))
  }

  lemma RowsOfDomain(rows: seq<CaseRow>, domain: string, id: string)
    requires RowsObserve(rows, id)
    ensures RowsObserve(InDomain(rows, domain), id)
  {
    DomainObserves(rows, domain, [id]);
    hide InDomain;
    assert RowsObserve(InDomain(rows, domain), [id][0]);
  }

  function GatesBy(rows: seq<CaseRow>, domains: seq<string>, id: string): seq<Gate>
    requires RowsObserve(rows, id)
  {
    seq(|domains|, i requires 0 <= i < |domains| => DomainGate(rows, domains[i], id))
  }

  /** A replicate's facts from its counts over `domains` domains, all of which `passed` or not. */
  function FactsWith(
    source: Source, domains: nat, cases: nat, wins: nat, ties: nat, losses: nat,
    criticals: nat, fatals: nat, hardFailures: nat, passed: bool): Facts
  {
    Facts(
      source, source.calls > 0 && source.verifiedCalls == source.calls,
      domains, cases, wins, ties, losses, criticals, fatals, hardFailures,
      domains == RELEASE_DOMAIN_COUNT && passed && Net(wins, losses, cases) >= 0.10
      && criticals == 0 && fatals == 0 && hardFailures == 0)
  }

  predicate EveryDomainPassed(rows: seq<CaseRow>, id: string)
    requires RowsObserve(rows, id)
  {
    forall d :: d in DomainsOf(rows) ==> DomainGate(rows, d, id).passed
  }

  predicate AllPassed(gates: seq<Gate>) {
    forall i :: 0 <= i < |gates| ==> gates[i].passed
  }

  /** What the rows say of one replicate: its counts over all cases in whatever domain, and whether
      every domain passed. */
  function FactsFor(source: Source, rows: seq<CaseRow>): Facts
    requires RowsObserve(rows, source.replicateId)
  {
    var whole, domains := GateOf(OwnObservations(rows, source.replicateId)), DomainsOf(rows);
    FactsWith(
      source, |domains|, whole.caseCount, whole.wins, whole.ties, whole.losses,
      whole.criticals, whole.fatals, whole.hardFailures,
      EveryDomainPassed(rows, source.replicateId))
  }

  // Sums over the domains do not depend on the order in which they are listed.

  ghost predicate Lists(domains: seq<string>, rows: seq<CaseRow>) {
    NoDuplicates(domains) && forall d :: d in domains <==> d in DomainsOf(rows)
  }

  lemma {:induction false} CountConcat(a: seq<Observation>, b: seq<Observation>, feature: Feature)
    ensures Count(a + b, feature) == Count(a, feature) + Count(b, feature)
    decreases |b|
  {
    if b == [] {
      assert a + b == a;
    } else {
      assert (a + b)[..|a + b| - 1] == a + b[..|b| - 1];
      CountConcat(a, b[..|b| - 1], feature);
    }
  }

  lemma GateAppend(own: seq<Observation>, last: Observation, measure: Measure)
    ensures MeasureOf(GateOf(own + [last]), measure) == MeasureOf(GateOf(own), measure) + MeasureOf(GateOf([last]), measure)
  {
    CountConcat(own, [last], Ended(E.Win));
    CountConcat(own, [last], Ended(E.Tie));
    CountConcat(own, [last], Ended(E.Loss));
    CountConcat(own, [last], Regressed);
    CountConcat(own, [last], Flawed);
    CountConcat(own, [last], HardFailed);
    hide Count;
  }

  /** One more row counts in its own domain and in no other. */
  lemma DomainAppend(rows: seq<CaseRow>, row: CaseRow, domain: string, id: string, measure: Measure)
    requires RowsObserve(rows + [row], id) && RowsObserve(rows, id) && HasObservation(row.observations, id)
    ensures MeasureOf(DomainGate(rows + [row], domain, id), measure)
      == MeasureOf(DomainGate(rows, domain, id), measure)
         + if domain == row.domain then MeasureOf(GateOf([ObservationBy(row.observations, id)]), measure) else 0
  {
    assert (rows + [row])[..|rows|] == rows;
    RowsOfDomain(rows, domain, id);
    RowsOfDomain(rows + [row], domain, id);
    if domain == row.domain {
      var own := InDomain(rows, domain);
      assert InDomain(rows + [row], domain) == own + [row];
      assert OwnObservations(own + [row], id) == OwnObservations(own, id) + [ObservationBy(row.observations, id)];
      GateAppend(OwnObservations(own, id), ObservationBy(row.observations, id), measure);
    }
    hide GateOf, OwnObservations;
  }

  lemma {:induction false} SumsAppend(
    rows: seq<CaseRow>, row: CaseRow, domains: seq<string>, id: string, measure: Measure)
    requires RowsObserve(rows + [row], id) && RowsObserve(rows, id) && HasObservation(row.observations, id)
    requires NoDuplicates(domains)
    ensures SumMeasure(GatesBy(rows + [row], domains, id), measure)
      == SumMeasure(GatesBy(rows, domains, id), measure)
         + if row.domain in domains then MeasureOf(GateOf([ObservationBy(row.observations, id)]), measure) else 0
    decreases |domains|
  {
    hide DomainGate, MeasureOf, GateOf, RowsObserve, HasObservation;
    if domains != [] {
      var init, last := domains[..|domains| - 1], domains[|domains| - 1];
      assert domains == init + [last] && last !in init;
      SumsAppend(rows, row, init, id, measure);
      DomainAppend(rows, row, last, id, measure);
      assert GatesBy(rows, domains, id)[..|init|] == GatesBy(rows, init, id);
      assert GatesBy(rows + [row], domains, id)[..|init|] == GatesBy(rows + [row], init, id);
    }
  }

  lemma {:induction false} NoRowsNoSum(domains: seq<string>, id: string, measure: Measure)
    ensures SumMeasure(GatesBy([], domains, id), measure) == 0
    decreases |domains|
  {
    if domains != [] {
      var init := domains[..|domains| - 1];
      NoRowsNoSum(init, id, measure);
      assert GatesBy([], domains, id)[..|init|] == GatesBy([], init, id);
      assert OwnObservations([], id) == [];
    }
  }

  /** Whatever duplicate-free list the domains are added up in, the sums are the counts over all cases. */
  lemma {:induction false} SumsAreCounts(rows: seq<CaseRow>, domains: seq<string>, id: string, measure: Measure)
    requires RowsObserve(rows, id) && NoDuplicates(domains)
    requires forall i :: 0 <= i < |rows| ==> rows[i].domain in domains
    ensures SumMeasure(GatesBy(rows, domains, id), measure) == MeasureOf(GateOf(OwnObservations(rows, id)), measure)
  {
    if rows == [] {
      NoRowsNoSum(domains, id, measure);
    } else {
      var init, last := rows[..|rows| - 1], rows[|rows| - 1];
      assert rows == init + [last];
      SumsAreCounts(init, domains, id, measure);
      SumsAppend(init, last, domains, id, measure);
      assert OwnObservations(rows, id) == OwnObservations(init, id) + [ObservationBy(last.observations, id)];
      hide GatesBy, SumMeasure, GateOf, MeasureOf, NoDuplicates;
      GateAppend(OwnObservations(init, id), ObservationBy(last.observations, id), measure);
    }
  }

  lemma PassedEverywhere(rows: seq<CaseRow>, domains: seq<string>, id: string)
    requires RowsObserve(rows, id) && Lists(domains, rows)
    ensures |domains| == |DomainsOf(rows)|
    ensures AllPassed(GatesBy(rows, domains, id)) <==> EveryDomainPassed(rows, id)
  {
    SetSizeTellsDuplicates(domains);
    hide DomainsOf, RowsObserve, DomainGate, NoDuplicates;
    assert (set d | d in domains) == DomainsOf(rows);
    var gates := GatesBy(rows, domains, id);
    if AllPassed(gates) {
      forall d | d in DomainsOf(rows) ensures DomainGate(rows, d, id).passed {
        var i :| 0 <= i < |domains| && domains[i] == d;
        assert gates[i] == DomainGate(rows, d, id);
      }
    } else {
      var i :| 0 <= i < |domains| && !gates[i].passed;
      assert domains[i] in domains;
    }
  }

  /** The facts that a list of domain gates adds up to. */
  ghost function FactsFrom(source: Source, gates: seq<Gate>): Facts {
    FactsWith(
      source, |gates|, SumMeasure(gates, Cases), SumMeasure(gates, Wins), SumMeasure(gates, Ties),
      SumMeasure(gates, Losses), SumMeasure(gates, Criticals), SumMeasure(gates, Fatals),
      SumMeasure(gates, HardFailures), AllPassed(gates))
  }

  lemma AddedUp(rows: seq<CaseRow>, domains: seq<string>, id: string, whole: Gate, gates: seq<Gate>)
    requires RowsObserve(rows, id) && Lists(domains, rows)
    requires whole == GateOf(OwnObservations(rows, id)) && gates == GatesBy(rows, domains, id)
    ensures forall measure: Measure :: SumMeasure(gates, measure) == MeasureOf(whole, measure)
  {
    forall i | 0 <= i < |rows| ensures rows[i].domain in domains {
      assert rows[i] in rows && rows[i].domain in DomainsOf(rows);
    }
    hide SumMeasure, GateOf, OwnObservations, DomainsOf, RowsObserve, GatesBy;
    forall measure: Measure ensures SumMeasure(gates, measure) == MeasureOf(whole, measure) {
      SumsAreCounts(rows, domains, id, measure);
    }
  }

  lemma SameFacts(source: Source, n: nat, whole: Gate, gates: seq<Gate>, passed: bool)
    requires |gates| == n && (AllPassed(gates) <==> passed)
    requires forall measure: Measure :: SumMeasure(gates, measure) == MeasureOf(whole, measure)
    ensures FactsFrom(source, gates) == FactsWith(
      source, n, whole.caseCount, whole.wins, whole.ties, whole.losses,
      whole.criticals, whole.fatals, whole.hardFailures, passed)
  {
    hide SumMeasure, FactsWith, AllPassed;
    assert SumMeasure(gates, Cases) == whole.caseCount && SumMeasure(gates, Wins) == whole.wins;
    assert SumMeasure(gates, Ties) == whole.ties && SumMeasure(gates, Losses) == whole.losses;
    assert SumMeasure(gates, Criticals) == whole.criticals && SumMeasure(gates, Fatals) == whole.fatals;
    assert SumMeasure(gates, HardFailures) == whole.hardFailures;
  }

  /** Sums over any duplicate-free list of the domains lead to the facts of the rows. */
  lemma FactsFromSums(rows: seq<CaseRow>, domains: seq<string>, source: Source, gates: seq<Gate>)
    requires RowsObserve(rows, source.replicateId) && Lists(domains, rows)
    requires gates == GatesBy(rows, domains, source.replicateId)
    ensures FactsFor(source, rows) == FactsFrom(source, gates)
  {
    hide GateOf, OwnObservations, DomainsOf, RowsObserve, FactsWith, FactsFrom, Lists, DomainGate, SumMeasure;
    hide EveryDomainPassed, AllPassed, MeasureOf;
    var id := source.replicateId;
    var whole := GateOf(OwnObservations(rows, id));
    PassedEverywhere(rows, domains, id);
    AddedUp(rows, domains, id, whole, gates);
    assert |gates| == |domains|;
    hide GatesBy;
    SameFacts(source, |domains|, whole, gates, EveryDomainPassed(rows, id));
  }

  // The report.

  datatype Aggregate = Aggregate(
    wins: nat, ties: nat, losses: nat, calls: nat, verifiedCalls: nat, net: real,
    criticals: nat, fatals: nat, hardFailures: nat, stable: nat, unstable: nat, agreement: real,
    fullCoverage: bool, allReleaseGates: bool, allReceipts: bool, allDomainGates: bool, releaseGate: bool)

  datatype Evidence = E1 | E2 | E3

  datatype Report = Report(
    facts: seq<Facts>, domains: seq<string>, rows: seq<CaseRow>, domainResults: map<string, DomainResult>,
    aggregate: Aggregate, evidence: Evidence)

  function ConsensusCount(rows: seq<CaseRow>, outcome: Outcome): nat {
    if rows == [] then 0
    else ConsensusCount(rows[..|rows| - 1], outcome) + (if rows[|rows| - 1].consensus == outcome then 1 else 0)
  }

  function StableCount(rows: seq<CaseRow>): (n: nat)
    ensures n <= |rows|
  {
    if rows == [] then 0
    else StableCount(rows[..|rows| - 1]) + (if rows[|rows| - 1].stable then 1 else 0)
  }

  function SumCalls(facts: seq<Facts>): nat {
    if facts == [] then 0 else SumCalls(facts[..|facts| - 1]) + facts[|facts| - 1].source.calls
  }

  function SumVerified(facts: seq<Facts>): nat {
    if facts == [] then 0 else SumVerified(facts[..|facts| - 1]) + facts[|facts| - 1].source.verifiedCalls
  }

  function AggregateOf(
    rows: seq<CaseRow>, domains: seq<string>, results: map<string, DomainResult>, facts: seq<Facts>): Aggregate
  {
    var wins, losses := ConsensusCount(rows, E.Win), ConsensusCount(rows, E.Loss);
    var criticals, fatals, hardFailures := SumOver(rows, Regressed), SumOver(rows, Flawed), SumOver(rows, HardFailed);
    var net, stable := Net(wins, losses, |rows|), StableCount(rows);
    var full := |domains| == RELEASE_DOMAIN_COUNT && |rows| >= RELEASE_CASE_COUNT;
    var allDomains := results != map[] && forall d :: d in results ==> results[d].passed;
    var allRelease := forall i :: 0 <= i < |facts| ==> facts[i].aggregateGate;
    var allReceipts := forall i :: 0 <= i < |facts| ==> facts[i].provenance;
    Aggregate(
      wins, ConsensusCount(rows, E.Tie), losses, SumCalls(facts), SumVerified(facts), net,
      criticals, fatals, hardFailures, stable, |rows| - stable,
      if rows == [] then 0.0 else stable as real / |rows| as real,
      full, allRelease, allReceipts, allDomains,
      && |facts| >= MINIMUM_REPLICATES && full && allRelease
      && (forall i :: 0 <= i < |facts| ==> facts[i].source.calls > 0)
      && allReceipts && allDomains && net >= 0.10 && criticals == 0 && fatals == 0 && hardFailures == 0)
  }

  function EvidenceFor(observations: int, release: bool): Evidence {
    if release && observations >= 5 then E3 else E1
  }

  function Ids(facts: seq<Facts>): seq<string> {
    seq(|facts|, i requires 0 <= i < |facts| => facts[i].source.replicateId)
  }

  predicate RowOk(row: CaseRow, ids: seq<string>) {
    && row.observations != []
    && |row.observations| == |ids|
    && (forall k :: 0 <= k < |ids| ==> HasObservation(row.observations, ids[k]))
    && row == RowFor(row.domain, row.caseId, row.caseSha, row.observations)
  }

  lemma RowsOkObserve(rows: seq<CaseRow>, ids: seq<string>)
    requires forall i :: 0 <= i < |rows| ==> RowOk(rows[i], ids)
    ensures AllObserve(rows, ids)
  {
    hide RowFor, HasObservation;
    forall k, i | 0 <= k < |ids| && 0 <= i < |rows| ensures HasObservation(rows[i].observations, ids[k]) {
      assert RowOk(rows[i], ids);
    }
  }

  ghost predicate RowsValid(rows: seq<CaseRow>, ids: seq<string>) {
    && (forall i :: 0 <= i < |rows| ==> RowOk(rows[i], ids))
    && (forall i, j :: 0 <= i < j < |rows| ==> (rows[i].domain, rows[i].caseId) != (rows[j].domain, rows[j].caseId))
  }

  predicate SourcesUnique(facts: seq<Facts>) {
    forall i, j :: 0 <= i < j < |facts| ==>
      && facts[i].source.replicateId != facts[j].source.replicateId
      && facts[i].source.manifestSha != facts[j].source.manifestSha
      && facts[i].source.summarySha != facts[j].source.summarySha
      && facts[i].source.identities != facts[j].source.identities
      && (facts[i].provenance && facts[j].provenance ==> facts[i].source.receipts != facts[j].source.receipts)
  }

  predicate FactsValid(rows: seq<CaseRow>, facts: seq<Facts>)
    requires AllObserve(rows, Ids(facts))
  {
    forall i :: 0 <= i < |facts| ==> RowsObserve(rows, Ids(facts)[i]) && FactsRight(rows, facts[i])
  }

  predicate FactsRight(rows: seq<CaseRow>, facts: Facts)
    requires RowsObserve(rows, facts.source.replicateId)
  {
    && facts == FactsFor(facts.source, rows)
    && facts.source.calls >= 1 && facts.source.verifiedCalls <= facts.source.calls
  }

  predicate ResultsValid(report: Report)
    requires AllObserve(report.rows, Ids(report.facts))
  {
    && report.domains == SortedKeys(DomainsOf(report.rows))
    && report.domainResults == DomainResultsOf(report.rows, Ids(report.facts))
    && FactsValid(report.rows, report.facts)
  }

  predicate AggregateRight(report: Report) {
    && report.aggregate == AggregateOf(report.rows, report.domains, report.domainResults, report.facts)
    && report.evidence == EvidenceFor(|report.rows| * |report.facts|, report.aggregate.releaseGate)
  }

  /** Every derived fact of the report is what its rows and sources lead to. */
  ghost predicate ReportValid(report: Report) {
    && |report.facts| >= MINIMUM_REPLICATES
    && RowsValid(report.rows, Ids(report.facts))
    && AllObserve(report.rows, Ids(report.facts))
    && SourcesUnique(report.facts)
    && ResultsValid(report)
    && AggregateRight(report)
  }

  lemma RowsValidObserve(rows: seq<CaseRow>, ids: seq<string>)
    requires RowsValid(rows, ids)
    ensures AllObserve(rows, ids)
  {
    hide RowOk, AllObserve;
    RowsOkObserve(rows, ids);
  }

  lemma GatePassed(own: seq<Observation>)
    requires GateOf(own).passed
    ensures |own| >= 5 && Count(own, Ended(E.Win)) > Count(own, Ended(E.Loss))
    ensures forall i :: 0 <= i < |own| ==> !own[i].critical && !own[i].fatal && !own[i].hardFailed
  {
    hide Count;
    forall i | 0 <= i < |own| ensures !own[i].critical && !own[i].fatal && !own[i].hardFailed {
      CountZero(own, Regressed, i);
      CountZero(own, Flawed, i);
      CountZero(own, HardFailed, i);
    }
  }

  lemma DomainPassed(rows: seq<CaseRow>, ids: seq<string>, k: nat)
    requires AllObserve(rows, ids) && k < |ids| && DomainResultOf(rows, ids).passed
    ensures GateOf(OwnObservations(rows, ids[k])).passed
  {
    hide GateOf, SumOver, OwnObservations;
    assert ReplicateGates(rows, ids)[k].1.passed;
  }

  lemma ReleaseParts(report: Report)
    requires ReportValid(report) && report.aggregate.releaseGate
    ensures |report.facts| >= MINIMUM_REPLICATES
    ensures |report.domains| == RELEASE_DOMAIN_COUNT && |report.rows| >= RELEASE_CASE_COUNT
    ensures AllObserve(report.rows, Ids(report.facts))
    ensures report.domainResults == DomainResultsOf(report.rows, Ids(report.facts))
    ensures forall d :: d in report.domainResults ==> report.domainResults[d].passed
  {
    hide RowsValid, AllObserve, SourcesUnique, FactsValid, DomainResultsOf, SumOver, SumCalls, SumVerified;
    hide ConsensusCount, Net;
  }

  /** What an accepted release gate means in every domain and for every replicate. */
  lemma ReleaseMeans(report: Report, domain: string, k: nat)
    requires ReportValid(report) && report.aggregate.releaseGate
    requires domain in DomainsOf(report.rows) && k < |report.facts|
    ensures |report.facts| >= MINIMUM_REPLICATES
    ensures |report.domains| == RELEASE_DOMAIN_COUNT && |report.rows| >= RELEASE_CASE_COUNT
    ensures AllObserve(InDomain(report.rows, domain), Ids(report.facts))
    ensures var own := OwnObservations(InDomain(report.rows, domain), Ids(report.facts)[k]);
      && |own| >= 5
      && Count(own, Ended(E.Win)) > Count(own, Ended(E.Loss))
      && forall i :: 0 <= i < |own| ==> !own[i].critical && !own[i].fatal && !own[i].hardFailed
  {
    ReleaseParts(report);
    var ids, rows := Ids(report.facts), InDomain(report.rows, domain);
    DomainObserves(report.rows, domain, ids);
    hide ReportValid, InDomain, Count, GateOf, DomainResultOf, AllObserve;
    assert report.domainResults[domain] == DomainResultOf(rows, ids);
    DomainPassed(rows, ids, k);
    GatePassed(OwnObservations(rows, ids[k]));
  }

  lemma {:induction false} CountZero(observations: seq<Observation>, feature: Feature, i: nat)
    requires Count(observations, feature) == 0 && i < |observations|
    ensures !Shows(observations[i], feature)
  {
    if i < |observations| - 1 {
      CountZero(observations[..|observations| - 1], feature, i);
    }
  }
}
