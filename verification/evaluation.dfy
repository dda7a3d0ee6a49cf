/** Matched blind evaluation of two prompts, and the validator that recomputes its verdicts. */
module Evaluation {
  import opened Counting
  import opened Options
  import opened Texts

  datatype Outcome = Win | Tie | Loss

  datatype Winner = ChoseA | ChoseB | ChoseTie

  datatype Role = Original | Optimized

  datatype Decision = Decision(judge: string, winner: Winner, reason: string, fatalA: bool, fatalB: bool)
  {
    predicate Valid() {
      !Blank(reason)
    }
  }

  /** A check counts only when it is authoritative. */
  datatype Check = Check(passed: bool, authoritative: bool)

  datatype HardGroup = HardGroup(passed: bool, checks: seq<Check>)

  predicate AllPass(checks: seq<Check>) {
    forall i :: 0 <= i < |checks| && checks[i].authoritative ==> checks[i].passed
  }

  datatype Case = Case(
    id: string, domain: string, difficulty: string, rubric: seq<string>, maxCharacters: Option<int>, sha: string)
  {
    predicate Valid() {
      && !Blank(id) && rubric != [] && difficulty in {"normal", "difficult", "adversarial"}
      && (maxCharacters.Some? ==> maxCharacters.value >= 1)
    }

    /** What the validator asks of a case beyond what its own check asks. */
    predicate Recordable() {
      domain != "" && forall i :: 0 <= i < |rubric| ==> rubric[i] != ""
    }
  }

  /** The parts every case of a suite shares; `coin` reads the blind seed's digest. */
  datatype Setup = Setup(
    suiteId: string, executor: string, configSha: string, originalSha: string, optimizedSha: string,
    seed: int, coin: (int, string) -> bool)

  datatype Trial = Trial(
    testCase: Case,
    originalOutput: string,
    optimizedOutput: string,
    originalChecks: seq<Check>,
    optimizedChecks: seq<Check>,
    answers: seq<Decision>)

  // Aggregating the judges.

  function MapWinner(winner: Winner, optimizedIsA: bool): Outcome {
    match winner
    case ChoseTie => Tie
    case ChoseA => if optimizedIsA then Win else Loss
    case ChoseB => if optimizedIsA then Loss else Win
  }

  function FatalTo(decision: Decision, optimizedIsA: bool): bool {
    if optimizedIsA then decision.fatalA else decision.fatalB
  }

  function Votes(decisions: seq<Decision>, optimizedIsA: bool, outcome: Outcome): nat {
    if decisions == [] then 0
    else
      var mapped := MapWinner(decisions[|decisions| - 1].winner, optimizedIsA);
      Votes(decisions[..|decisions| - 1], optimizedIsA, outcome) + (if mapped == outcome then 1 else 0)
  }

  predicate AnyFatal(decisions: seq<Decision>, optimizedIsA: bool) {
    exists i :: 0 <= i < |decisions| && FatalTo(decisions[i], optimizedIsA)
  }

  /** A fatal flaw in the optimized output loses outright; otherwise the majority decides. */
  function Verdict(decisions: seq<Decision>, optimizedIsA: bool): (Outcome, bool) {
    if AnyFatal(decisions, optimizedIsA) then (Loss, true)
    else
      var wins, losses := Votes(decisions, optimizedIsA, Win), Votes(decisions, optimizedIsA, Loss);
      (if wins > losses then Win else if losses > wins then Loss else Tie, false)
  }

  method AggregateJudges(decisions: seq<Decision>, optimizedIsA: bool) returns (outcome: Outcome, fatal: bool)
    ensures (outcome, fatal) == Verdict(decisions, optimizedIsA)
  {
    var wins, losses := 0, 0;
    fatal := false;
    for i := 0 to |decisions|
      invariant wins == Votes(decisions[..i], optimizedIsA, Win)
      invariant losses == Votes(decisions[..i], optimizedIsA, Loss)
      invariant fatal <==> exists j :: 0 <= j < i && FatalTo(decisions[j], optimizedIsA)
    {
      assert decisions[..i + 1][..i] == decisions[..i];
      var mapped := MapWinner(decisions[i].winner, optimizedIsA);
      if mapped == Win {
        wins := wins + 1;
      } else if mapped == Loss {
        losses := losses + 1;
      }
      if FatalTo(decisions[i], optimizedIsA) {
        fatal := true;
      }
    }
    assert decisions[..|decisions|] == decisions;
    if fatal {
      outcome := Loss;
    } else if wins > losses {
      outcome := Win;
    } else if losses > wins {
      outcome := Loss;
    } else {
      outcome := Tie;
    }
  }

  // The same in the judges' own words.

  /** The judges that name a letter. */
  function Naming(decisions: seq<Decision>, letter: Winner): set<int> {
    set i | 0 <= i < |decisions| && decisions[i].winner == letter
  }

  predicate FlagsA(decisions: seq<Decision>) {
    exists i :: 0 <= i < |decisions| && decisions[i].fatalA
  }

  predicate FlagsB(decisions: seq<Decision>) {
    exists i :: 0 <= i < |decisions| && decisions[i].fatalB
  }

  /** The judges prefer A to B, or B to A. */
  predicate PrefersA(decisions: seq<Decision>) {
    |Naming(decisions, ChoseA)| > |Naming(decisions, ChoseB)|
  }

  predicate PrefersB(decisions: seq<Decision>) {
    |Naming(decisions, ChoseB)| > |Naming(decisions, ChoseA)|
  }

  /** The optimized output, shown as A or as B, is flagged as fatally flawed by some judge. */
  predicate JudgedFatal(decisions: seq<Decision>, optimizedIsA: bool) {
    if optimizedIsA then FlagsA(decisions) else FlagsB(decisions)
  }

  predicate JudgedBetter(decisions: seq<Decision>, optimizedIsA: bool) {
    !JudgedFatal(decisions, optimizedIsA) && if optimizedIsA then PrefersA(decisions) else PrefersB(decisions)
  }

  predicate JudgedWorse(decisions: seq<Decision>, optimizedIsA: bool) {
    JudgedFatal(decisions, optimizedIsA) || if optimizedIsA then PrefersB(decisions) else PrefersA(decisions)
  }

  lemma {:induction false} VotesAreNames(decisions: seq<Decision>, optimizedIsA: bool)
    ensures Votes(decisions, optimizedIsA, Win) == |Naming(decisions, if optimizedIsA then ChoseA else ChoseB)|
    ensures Votes(decisions, optimizedIsA, Loss) == |Naming(decisions, if optimizedIsA then ChoseB else ChoseA)|
  {
    if decisions != [] {
      var init := decisions[..|decisions| - 1];
      VotesAreNames(init, optimizedIsA);
      OneMoreName(decisions, ChoseA);
      OneMoreName(decisions, ChoseB);
    }
  }

  lemma OneMoreName(decisions: seq<Decision>, letter: Winner)
    requires decisions != []
    ensures var init, last := decisions[..|decisions| - 1], decisions[|decisions| - 1];
      |Naming(decisions, letter)| == |Naming(init, letter)| + if last.winner == letter then 1 else 0
  {
    var init, last := decisions[..|decisions| - 1], decisions[|decisions| - 1];
    var before, all := Naming(init, letter), Naming(decisions, letter);
    forall i ensures i in all <==> i in before || (i == |init| && last.winner == letter) {
      assert 0 <= i < |init| ==> init[i] == decisions[i];
    }
    OneMoreIndex(before, all, |init|, last.winner == letter);
  }

  /** A flag against the letter of the optimized output loses. Otherwise it wins exactly when more judges
      name its letter than the other one, and loses exactly when fewer do. */
  lemma VerdictInLetters(decisions: seq<Decision>, optimizedIsA: bool)
    ensures var (outcome, fatal) := Verdict(decisions, optimizedIsA);
      && (fatal <==> JudgedFatal(decisions, optimizedIsA))
      && (outcome == Win <==> JudgedBetter(decisions, optimizedIsA))
      && (outcome == Loss <==> JudgedWorse(decisions, optimizedIsA))
  {
    VotesAreNames(decisions, optimizedIsA);
    hide Votes, Naming;
  }

  function Swapped(decision: Decision): Decision {
    Decision(
      decision.judge,
      match decision.winner { case ChoseA => ChoseB case ChoseB => ChoseA case ChoseTie => ChoseTie },
      decision.reason, decision.fatalB, decision.fatalA)
  }

  function AllSwapped(decisions: seq<Decision>): seq<Decision> {
    seq(|decisions|, i requires 0 <= i < |decisions| => Swapped(decisions[i]))
  }

  lemma {:induction false} VotesSwap(decisions: seq<Decision>, optimizedIsA: bool, outcome: Outcome)
    ensures Votes(AllSwapped(decisions), !optimizedIsA, outcome) == Votes(decisions, optimizedIsA, outcome)
  {
    if decisions != [] {
      var init := decisions[..|decisions| - 1];
      VotesSwap(init, optimizedIsA, outcome);
      assert AllSwapped(decisions)[..|decisions| - 1] == AllSwapped(init);
    }
  }

  /** Blinding changes nothing: showing the outputs the other way round, with every judge answering
      accordingly, gives the same outcome and the same fatal flag. */
  lemma BlindingNeutral(decisions: seq<Decision>, optimizedIsA: bool)
    ensures Verdict(AllSwapped(decisions), !optimizedIsA) == Verdict(decisions, optimizedIsA)
  {
    VotesSwap(decisions, optimizedIsA, Win);
    VotesSwap(decisions, optimizedIsA, Loss);
    assert forall i :: 0 <= i < |decisions| ==>
      FatalTo(AllSwapped(decisions)[i], !optimizedIsA) == FatalTo(decisions[i], optimizedIsA);
  }

  // One case.

  datatype TextHash = TextHashOf(text: string)

  datatype RecordBody = RecordBody(
    testCase: Case,
    executor: string,
    configSha: string,
    originalSha: string,
    optimizedSha: string,
    originalOutput: string,
    optimizedOutput: string,
    originalOutputHash: TextHash,
    optimizedOutputHash: TextHash,
    blindA: Role,
    blindB: Role,
    seed: int,
    original: HardGroup,
    optimized: HardGroup,
    decisions: seq<Decision>,
    outcome: Outcome,
    critical: bool,
    fatal: bool)

  datatype RecordHash = RecordHashOf(content: RecordBody)

  datatype Record = Record(body: RecordBody, hash: RecordHash)

  function DerivedOutcome(originalPassed: bool, optimizedPassed: bool, decisions: seq<Decision>, optimizedIsA: bool)
    : (Outcome, bool)
  {
    if originalPassed && !optimizedPassed then (Loss, false)
    else if !originalPassed && !optimizedPassed then (Tie, false)
    else Verdict(decisions, optimizedIsA)
  }

  predicate TrialOk(trial: Trial) {
    && trial.testCase.Valid()
    && |trial.answers| >= 2
    && !Blank(trial.originalOutput) && !Blank(trial.optimizedOutput)
    && (AllPass(trial.optimizedChecks) ==> forall i :: 0 <= i < |trial.answers| ==> trial.answers[i].Valid())
  }

  /** The judges are asked only when the optimized output passed its own hard checks. */
  function RecordFor(setup: Setup, trial: Trial): Record {
    var optimizedIsA := setup.coin(setup.seed, trial.testCase.id);
    var originalPassed, optimizedPassed := AllPass(trial.originalChecks), AllPass(trial.optimizedChecks);
    var decisions := if optimizedPassed then trial.answers else [];
    var (outcome, fatal) := DerivedOutcome(originalPassed, optimizedPassed, decisions, optimizedIsA);
    var body := RecordBody(
      trial.testCase, setup.executor, setup.configSha, setup.originalSha, setup.optimizedSha,
      trial.originalOutput, trial.optimizedOutput,
      TextHashOf(trial.originalOutput), TextHashOf(trial.optimizedOutput),
      if optimizedIsA then Optimized else Original, if optimizedIsA then Original else Optimized, setup.seed,
      HardGroup(originalPassed, trial.originalChecks), HardGroup(optimizedPassed, trial.optimizedChecks),
      decisions, outcome, originalPassed && !optimizedPassed, fatal);
    Record(body, RecordHashOf(body))
  }

  /** Some check that counts has failed. */
  predicate FailsHard(checks: seq<Check>) {
    exists i :: 0 <= i < |checks| && checks[i].authoritative && !checks[i].passed
  }

  predicate TrialRegressed(trial: Trial) {
    FailsHard(trial.optimizedChecks) && !FailsHard(trial.originalChecks)
  }

  predicate TrialFlawed(trial: Trial, optimizedIsA: bool) {
    !FailsHard(trial.optimizedChecks) && JudgedFatal(trial.answers, optimizedIsA)
  }

  predicate TrialWon(trial: Trial, optimizedIsA: bool) {
    !FailsHard(trial.optimizedChecks) && JudgedBetter(trial.answers, optimizedIsA)
  }

  predicate TrialLost(trial: Trial, optimizedIsA: bool) {
    TrialRegressed(trial) || (!FailsHard(trial.optimizedChecks) && JudgedWorse(trial.answers, optimizedIsA))
  }

  /** What a record says of its trial, in terms of the judges' letters and the checks that failed. */
  predicate TellsTrial(setup: Setup, trial: Trial, body: RecordBody) {
    var optimizedIsA := setup.coin(setup.seed, trial.testCase.id);
    && (body.blindA == Optimized <==> optimizedIsA) && (body.blindB == Original <==> optimizedIsA)
    && (body.outcome == Win <==> TrialWon(trial, optimizedIsA))
    && (body.outcome == Loss <==> TrialLost(trial, optimizedIsA))
    && (body.critical <==> TrialRegressed(trial))
    && (body.fatal <==> TrialFlawed(trial, optimizedIsA))
    && (body.original.passed <==> !FailsHard(trial.originalChecks)) && body.original.checks == trial.originalChecks
    && (body.optimized.passed <==> !FailsHard(trial.optimizedChecks)) && body.optimized.checks == trial.optimizedChecks
    && body.decisions == (if FailsHard(trial.optimizedChecks) then [] else trial.answers)
    && body.originalOutput == trial.originalOutput && body.originalOutputHash == TextHashOf(trial.originalOutput)
    && body.optimizedOutput == trial.optimizedOutput && body.optimizedOutputHash == TextHashOf(trial.optimizedOutput)
    && body.originalSha == setup.originalSha && body.optimizedSha == setup.optimizedSha
  }

  lemma PassOrFail(checks: seq<Check>)
    ensures AllPass(checks) <==> !FailsHard(checks)
  {
  }

  lemma RecordTells(setup: Setup, trial: Trial)
    ensures TellsTrial(setup, trial, RecordFor(setup, trial).body)
  {
    PassOrFail(trial.originalChecks);
    PassOrFail(trial.optimizedChecks);
    VerdictInLetters(trial.answers, setup.coin(setup.seed, trial.testCase.id));
    hide AllPass, FailsHard, Verdict, JudgedBetter, JudgedWorse, JudgedFatal;
  }

  method EvaluateCase(setup: Setup, trial: Trial) returns (record: Option<Record>)
    ensures record.Some? <==> TrialOk(trial)
    ensures record.Some? ==> record.value == RecordFor(setup, trial)
    ensures record.Some? ==> TellsTrial(setup, trial, record.value.body)
  {
    if !trial.testCase.Valid() || |trial.answers| < 2 || Blank(trial.originalOutput) || Blank(trial.optimizedOutput) {
      return None;
    }
    var original := HardGroup(AllPass(trial.originalChecks), trial.originalChecks);
    var optimized := HardGroup(AllPass(trial.optimizedChecks), trial.optimizedChecks);
    var optimizedIsA := setup.coin(setup.seed, trial.testCase.id);
    var critical := original.passed && !optimized.passed;
    var decisions, outcome, fatal := [], Tie, false;
    if critical {
      outcome := Loss;
    } else if !original.passed && !optimized.passed {
      outcome := Tie;
    } else {
      for i := 0 to |trial.answers|
        invariant decisions == trial.answers[..i]
        invariant forall j :: 0 <= j < i ==> trial.answers[j].Valid()
      {
        if !trial.answers[i].Valid() {
          return None;
        }
        decisions := decisions + [trial.answers[i]];
      }
      assert trial.answers[..|trial.answers|] == trial.answers;
      outcome, fatal := AggregateJudges(decisions, optimizedIsA);
    }
    var body := RecordBody(
      trial.testCase, setup.executor, setup.configSha, setup.originalSha, setup.optimizedSha,
      trial.originalOutput, trial.optimizedOutput,
      TextHashOf(trial.originalOutput), TextHashOf(trial.optimizedOutput),
      if optimizedIsA then Optimized else Original, if optimizedIsA then Original else Optimized, setup.seed,
      original, optimized, decisions, outcome, critical, fatal);
    RecordTells(setup, trial);
    hide Verdict, AllPass, TellsTrial;
    return Some(Record(body, RecordHashOf(body)));
  }

  // The suite.

  datatype Evidence = E1 | E2

  function InferEvidence(matchedCases: nat, improved: bool): Evidence {
    if matchedCases >= 5 && improved then E2 else E1
  }

  datatype ResultBody = ResultBody(
    suiteId: string,
    caseCount: int,
    wins: int,
    ties: int,
    losses: int,
    criticalRegressions: int,
    fatalFlaws: int,
    optimizedHardFailures: int,
    gatePassed: bool,
    repeated: bool,
    evidence: Evidence,
    records: seq<Record>)

  datatype ResultHash = ResultHashOf(content: ResultBody)

  datatype Result = Result(body: ResultBody, hash: ResultHash)

  /** What the suite counts records by. */
  datatype Feature = Ended(outcome: Outcome) | Regressed | Flawed | HardFailed

  predicate Shows(record: Record, feature: Feature) {
    match feature
    case Ended(outcome) => record.body.outcome == outcome
    case Regressed => record.body.critical
    case Flawed => record.body.fatal
    case HardFailed => !AllPass(record.body.optimized.checks)
  }

  function Count(records: seq<Record>, feature: Feature): nat {
    if records == [] then 0
    else Count(records[..|records| - 1], feature) + (if Shows(records[|records| - 1], feature) then 1 else 0)
  }

  predicate Gate(records: seq<Record>) {
    && |records| >= 5
    && Count(records, Ended(Win)) > Count(records, Ended(Loss))
    && Count(records, Regressed) == 0
    && Count(records, Flawed) == 0
    && Count(records, HardFailed) == 0
  }

  function Summarized(suiteId: string, records: seq<Record>): ResultBody {
    ResultBody(
      suiteId, |records|,
      Count(records, Ended(Win)), Count(records, Ended(Tie)), Count(records, Ended(Loss)),
      Count(records, Regressed), Count(records, Flawed), Count(records, HardFailed),
      Gate(records), false, InferEvidence(|records|, Gate(records)), records)
  }

  function RecordsFor(setup: Setup, trials: seq<Trial>): seq<Record> {
    seq(|trials|, i requires 0 <= i < |trials| => RecordFor(setup, trials[i]))
  }

  /** The same features, read off the trial. */
  predicate TrialShows(setup: Setup, trial: Trial, feature: Feature) {
    var optimizedIsA := setup.coin(setup.seed, trial.testCase.id);
    match feature
    case Ended(Win) => TrialWon(trial, optimizedIsA)
    case Ended(Loss) => TrialLost(trial, optimizedIsA)
    case Ended(Tie) => !TrialWon(trial, optimizedIsA) && !TrialLost(trial, optimizedIsA)
    case Regressed => TrialRegressed(trial)
    case Flawed => TrialFlawed(trial, optimizedIsA)
    case HardFailed => FailsHard(trial.optimizedChecks)
  }

  function TrialsWith(setup: Setup, trials: seq<Trial>, feature: Feature): set<int> {
    set i | 0 <= i < |trials| && TrialShows(setup, trials[i], feature)
  }

  /** Every counter of the result counts trials, by what their judges said and which checks failed. */
  predicate TellsSuite(setup: Setup, trials: seq<Trial>, body: ResultBody) {
    && body.caseCount == |trials|
    && body.wins == |TrialsWith(setup, trials, Ended(Win))|
    && body.ties == |TrialsWith(setup, trials, Ended(Tie))|
    && body.losses == |TrialsWith(setup, trials, Ended(Loss))|
    && body.criticalRegressions == |TrialsWith(setup, trials, Regressed)|
    && body.fatalFlaws == |TrialsWith(setup, trials, Flawed)|
    && body.optimizedHardFailures == |TrialsWith(setup, trials, HardFailed)|
    && (body.gatePassed <==>
          && |trials| >= 5 && body.wins > body.losses
          && body.criticalRegressions == 0 && body.fatalFlaws == 0 && body.optimizedHardFailures == 0)
    && (body.evidence == E2 <==> body.gatePassed) && !body.repeated
  }

  lemma RecordShows(setup: Setup, trial: Trial, feature: Feature)
    ensures Shows(RecordFor(setup, trial), feature) <==> TrialShows(setup, trial, feature)
  {
    RecordTells(setup, trial);
    PassOrFail(trial.optimizedChecks);
    hide RecordFor, TrialWon, TrialLost, TrialRegressed, TrialFlawed, FailsHard, AllPass;
  }

  lemma {:induction false} CountIsCardinality(setup: Setup, trials: seq<Trial>, feature: Feature)
    ensures Count(RecordsFor(setup, trials), feature) == |TrialsWith(setup, trials, feature)|
  {
    hide RecordFor, Shows, TrialShows;
    if trials != [] {
      var init, last := trials[..|trials| - 1], trials[|trials| - 1];
      CountIsCardinality(setup, init, feature);
      RecordShows(setup, last, feature);
      assert RecordsFor(setup, trials)[..|trials| - 1] == RecordsFor(setup, init);
      var before, all := TrialsWith(setup, init, feature), TrialsWith(setup, trials, feature);
      forall i ensures i in all <==> i in before || (i == |init| && TrialShows(setup, last, feature)) {
        assert 0 <= i < |init| ==> init[i] == trials[i];
      }
      OneMoreIndex(before, all, |init|, TrialShows(setup, last, feature));
    }
  }

  lemma SuiteTells(setup: Setup, trials: seq<Trial>)
    ensures TellsSuite(setup, trials, Summarized(setup.suiteId, RecordsFor(setup, trials)))
  {
    forall feature {
      CountIsCardinality(setup, trials, feature);
    }
    hide RecordFor, TrialsWith, Count;
  }

  predicate SuiteOk(setup: Setup, trials: seq<Trial>) {
    !Blank(setup.suiteId) && trials != [] && forall i :: 0 <= i < |trials| ==> TrialOk(trials[i])
  }

  method EvaluateSuite(setup: Setup, trials: seq<Trial>) returns (result: Option<Result>)
    ensures result.Some? <==> SuiteOk(setup, trials)
    ensures result.Some? ==>
      && result.value.body == Summarized(setup.suiteId, RecordsFor(setup, trials))
      && result.value.hash == ResultHashOf(result.value.body)
    ensures result.Some? ==> TellsSuite(setup, trials, result.value.body)
  {
    if Blank(setup.suiteId) || trials == [] {
      return None;
    }
    hide TrialOk, RecordFor, Gate, Count, TellsSuite, TellsTrial;
    var records: seq<Record> := [];
    for i := 0 to |trials|
      invariant records == RecordsFor(setup, trials[..i])
      invariant forall j :: 0 <= j < i ==> TrialOk(trials[j])
    {
      var record := EvaluateCase(setup, trials[i]);
      if record.None? {
        return None;
      }
      records := records + [record.value];
    }
    assert trials[..|trials|] == trials;
    var body := Summarized(setup.suiteId, records);
    SuiteTells(setup, trials);
    return Some(Result(body, ResultHashOf(body)));
  }

  lemma {:induction false} OutcomesPartition(records: seq<Record>)
    ensures Count(records, Ended(Win)) + Count(records, Ended(Tie)) + Count(records, Ended(Loss))
      == |records|
  {
    if records != [] {
      OutcomesPartition(records[..|records| - 1]);
    }
  }

  // The validator.

  datatype Finding =
    | SuiteIdEmpty
    | ResultHashMismatch
    | NoRecords
    | CaseIdInvalid
    | RecordInvalid
    | ConfigsDiffer
    | PromptsDiffer
    | AggregateMismatch
    | EvidenceMismatch
    | RepetitionClaimed

  predicate BlindMapOk(body: RecordBody, coin: (int, string) -> bool) {
    var optimizedIsA := coin(body.seed, body.testCase.id);
    && body.blindA == (if optimizedIsA then Optimized else Original)
    && body.blindB == (if optimizedIsA then Original else Optimized)
  }

  predicate DecisionsOk(decisions: seq<Decision>) {
    forall i :: 0 <= i < |decisions| ==> decisions[i].judge != "" && decisions[i].Valid()
  }

  /** Every verdict in the record is the one its own facts lead to. */
  predicate RecordOk(record: Record, coin: (int, string) -> bool) {
    var body := record.body;
    var originalPassed, optimizedPassed := AllPass(body.original.checks), AllPass(body.optimized.checks);
    && record.hash == RecordHashOf(body)
    && body.testCase.id != "" && body.testCase.rubric != [] && body.testCase.Recordable()
    && body.testCase.difficulty in {"normal", "difficult", "adversarial"}
    && body.executor != ""
    && body.originalOutputHash == TextHashOf(body.originalOutput)
    && body.optimizedOutputHash == TextHashOf(body.optimizedOutput)
    && body.original.passed == originalPassed && body.optimized.passed == optimizedPassed
    && BlindMapOk(body, coin)
    && DecisionsOk(body.decisions)
    && (optimizedPassed ==> |body.decisions| >= 2)
    && body.critical == (originalPassed && !optimizedPassed)
    && (body.outcome, body.fatal)
       == DerivedOutcome(originalPassed, optimizedPassed, body.decisions, coin(body.seed, body.testCase.id))
  }

  function CaseId(record: Record): string {
    record.body.testCase.id
  }

  function ConfigOf(record: Record): string {
    record.body.configSha
  }

  function OriginalOf(record: Record): string {
    record.body.originalSha
  }

  function OptimizedOf(record: Record): string {
    record.body.optimizedSha
  }

  function Listed(records: seq<Record>, text: Record -> string): seq<string> {
    seq(|records|, i requires 0 <= i < |records| => text(records[i]))
  }

  function Members(texts: seq<string>): set<string> {
    set text | text in texts
  }

  predicate AllEqual(texts: seq<string>) {
    forall i :: 0 <= i < |texts| ==> texts[i] == texts[0]
  }

  ghost predicate CaseIdsDiffer(records: seq<Record>) {
    NoDuplicates(Listed(records, CaseId))
  }

  ghost predicate OneSetting(records: seq<Record>) {
    && AllEqual(Listed(records, ConfigOf))
    && AllEqual(Listed(records, OriginalOf))
    && AllEqual(Listed(records, OptimizedOf))
  }

  ghost predicate EvaluationValid(result: Result, coin: (int, string) -> bool) {
    && result.hash == ResultHashOf(result.body)
    && result.body.suiteId != "" && result.body.records != []
    && (forall i :: 0 <= i < |result.body.records| ==> RecordOk(result.body.records[i], coin))
    && CaseIdsDiffer(result.body.records) && OneSetting(result.body.records)
    && result.body == Summarized(result.body.suiteId, result.body.records)
  }

  /** An accepted evaluation that claims the gate really rests on at least five different cases, more
      of them won than lost, none regressed, flawed or hard-failed. */
  lemma AcceptedGate(result: Result, coin: (int, string) -> bool)
    requires EvaluationValid(result, coin) && result.body.gatePassed
    ensures |result.body.records| >= 5 && CaseIdsDiffer(result.body.records)
    ensures result.body.wins > result.body.losses
    ensures forall i :: 0 <= i < |result.body.records| ==>
      AllPass(result.body.records[i].body.optimized.checks) && !result.body.records[i].body.fatal
    ensures result.body.evidence == E2
  {
    var records := result.body.records;
    forall i | 0 <= i < |records| ensures AllPass(records[i].body.optimized.checks) && !records[i].body.fatal {
      CountZero(records, Flawed, i);
      CountZero(records, HardFailed, i);
    }
  }

  predicate RecordWon(body: RecordBody) {
    !FailsHard(body.optimized.checks) && JudgedBetter(body.decisions, body.blindA == Optimized)
  }

  predicate RecordLost(body: RecordBody) {
    if FailsHard(body.optimized.checks) then !FailsHard(body.original.checks)
    else JudgedWorse(body.decisions, body.blindA == Optimized)
  }

  predicate RecordEnded(body: RecordBody, outcome: Outcome) {
    match outcome
    case Win => RecordWon(body)
    case Loss => RecordLost(body)
    case Tie => !RecordWon(body) && !RecordLost(body)
  }

  function RecordsEnded(records: seq<Record>, outcome: Outcome): set<int> {
    set i | 0 <= i < |records| && RecordEnded(records[i].body, outcome)
  }

  lemma RecordOutcome(record: Record, coin: (int, string) -> bool, outcome: Outcome)
    requires RecordOk(record, coin)
    ensures record.body.blindA != record.body.blindB
    ensures record.body.outcome == outcome <==> RecordEnded(record.body, outcome)
  {
    PassOrFail(record.body.original.checks);
    PassOrFail(record.body.optimized.checks);
    VerdictInLetters(record.body.decisions, coin(record.body.seed, record.body.testCase.id));
    hide AllPass, FailsHard, Verdict, JudgedBetter, JudgedWorse, JudgedFatal;
  }

  lemma {:induction false} EndedIsCardinality(
    records: seq<Record>, coin: (int, string) -> bool, outcome: Outcome)
    requires forall i :: 0 <= i < |records| ==> RecordOk(records[i], coin)
    ensures Count(records, Ended(outcome)) == |RecordsEnded(records, outcome)|
  {
    hide RecordOk, RecordEnded;
    if records != [] {
      var init, last := records[..|records| - 1], records[|records| - 1];
      EndedIsCardinality(init, coin, outcome);
      RecordOutcome(last, coin, outcome);
      var before, all := RecordsEnded(init, outcome), RecordsEnded(records, outcome);
      forall i ensures i in all <==> i in before || (i == |init| && RecordEnded(last.body, outcome)) {
        assert 0 <= i < |init| ==> init[i] == records[i];
      }
      OneMoreIndex(before, all, |init|, RecordEnded(last.body, outcome));
    }
  }

  /** In an accepted evaluation wins and losses count the records that their own decisions, letters and
      checks make a win or a loss. */
  lemma AcceptedTells(result: Result, coin: (int, string) -> bool)
    requires EvaluationValid(result, coin)
    ensures result.body.wins == |RecordsEnded(result.body.records, Win)|
    ensures result.body.ties == |RecordsEnded(result.body.records, Tie)|
    ensures result.body.losses == |RecordsEnded(result.body.records, Loss)|
    ensures forall i :: 0 <= i < |result.body.records| ==> RecordRight(result.body.records[i].body, coin)
  {
    var records := result.body.records;
    EndedIsCardinality(records, coin, Win);
    EndedIsCardinality(records, coin, Tie);
    EndedIsCardinality(records, coin, Loss);
    hide RecordOk, RecordsEnded, Count, CaseIdsDiffer, OneSetting;
    forall i | 0 <= i < |records| ensures RecordRight(records[i].body, coin) {
      assert RecordOk(records[i], coin);
      AcceptedRecord(records[i], coin);
    }
  }

  /** What an accepted record says beside its outcome: the coin decided the letters, the hashes are those of the
      outputs, the flags follow from checks and decisions, and enough judges answered where they were asked. */
  predicate RecordRight(body: RecordBody, coin: (int, string) -> bool) {
    && (body.blindA == Optimized <==> coin(body.seed, body.testCase.id)) && body.blindA != body.blindB
    && body.originalOutputHash == TextHashOf(body.originalOutput)
    && body.optimizedOutputHash == TextHashOf(body.optimizedOutput)
    && (body.original.passed <==> !FailsHard(body.original.checks))
    && (body.optimized.passed <==> !FailsHard(body.optimized.checks))
    && (body.critical <==> body.original.passed && !body.optimized.passed)
    && (body.fatal <==> body.optimized.passed && JudgedFatal(body.decisions, body.blindA == Optimized))
    && (body.optimized.passed ==> |body.decisions| >= 2)
  }

  lemma AcceptedRecord(record: Record, coin: (int, string) -> bool)
    requires RecordOk(record, coin)
    ensures RecordRight(record.body, coin)
  {
    var body := record.body;
    PassOrFail(body.original.checks);
    PassOrFail(body.optimized.checks);
    VerdictInLetters(body.decisions, coin(body.seed, body.testCase.id));
    hide AllPass, FailsHard, JudgedFatal, Verdict, DecisionsOk;
  }

  lemma {:induction false} CountZero(records: seq<Record>, feature: Feature, i: nat)
    requires Count(records, feature) == 0 && i < |records|
    ensures !Shows(records[i], feature)
  {
    if i < |records| - 1 {
      CountZero(records[..|records| - 1], feature, i);
    }
  }

  method CheckRecord(record: Record, coin: (int, string) -> bool) returns (ok: bool)
    ensures ok <==> RecordOk(record, coin)
  {
    var body := record.body;
    var originalPassed, optimizedPassed := AllPass(body.original.checks), AllPass(body.optimized.checks);
    hide AllPass, Verdict, Blank;
    ok :=
      && record.hash == RecordHashOf(body)
      && body.testCase.id != "" && body.testCase.rubric != [] && body.testCase.Recordable()
      && body.testCase.difficulty in {"normal", "difficult", "adversarial"}
      && body.executor != ""
      && body.originalOutputHash == TextHashOf(body.originalOutput)
      && body.optimizedOutputHash == TextHashOf(body.optimizedOutput)
      && body.original.passed == originalPassed && body.optimized.passed == optimizedPassed
      && BlindMapOk(body, coin) && DecisionsOk(body.decisions);
    if !ok {
      return;
    }
    var expectedCritical := originalPassed && !optimizedPassed;
    var expectedOutcome, expectedFatal := Tie, false;
    if expectedCritical {
      expectedOutcome := Loss;
    } else if !originalPassed && !optimizedPassed {
      expectedOutcome := Tie;
    } else if |body.decisions| >= 2 {
      expectedOutcome, expectedFatal := AggregateJudges(body.decisions, coin(body.seed, body.testCase.id));
    } else {
      return false;
    }
    ok := body.critical == expectedCritical && body.outcome == expectedOutcome && body.fatal == expectedFatal;
  }

  lemma MembersAppend(records: seq<Record>, i: nat, text: Record -> string)
    requires i < |records|
    ensures Members(Listed(records[..i + 1], text)) == Members(Listed(records[..i], text)) + {text(records[i])}
  {
    assert Listed(records[..i + 1], text) == Listed(records[..i], text) + [text(records[i])];
  }

  /** A list repeats one value exactly when its set has one element. */
  lemma OneValue(texts: seq<string>)
    requires texts != []
    ensures |Members(texts)| == 1 <==> AllEqual(texts)
  {
    assert texts[0] in texts;
    var rest := Members(texts) - {texts[0]};
    assert Members(texts) == rest + {texts[0]};
    if AllEqual(texts) {
      assert rest == {};
    } else {
      var i :| 0 <= i < |texts| && texts[i] != texts[0];
      assert texts[i] in texts && texts[i] in rest;
    }
  }

  lemma SettingsTell(records: seq<Record>)
    requires records != []
    ensures OneSetting(records) <==>
      && |Members(Listed(records, ConfigOf))| == 1
      && |Members(Listed(records, OriginalOf))| == 1
      && |Members(Listed(records, OptimizedOf))| == 1
  {
    hide Members, AllEqual;
    OneValue(Listed(records, ConfigOf));
    OneValue(Listed(records, OriginalOf));
    OneValue(Listed(records, OptimizedOf));
  }

  ghost predicate RecordsOk(records: seq<Record>, coin: (int, string) -> bool) {
    forall i :: 0 <= i < |records| ==> RecordOk(records[i], coin)
  }

  lemma OneMoreRecord(records: seq<Record>, coin: (int, string) -> bool, i: nat)
    requires i < |records|
    ensures RecordsOk(records[..i + 1], coin) <==> RecordsOk(records[..i], coin) && RecordOk(records[i], coin)
    ensures CaseIdsDiffer(records[..i + 1]) <==>
      CaseIdsDiffer(records[..i]) && CaseId(records[i]) !in Members(Listed(records[..i], CaseId))
  {
    hide RecordOk, NoDuplicates;
    assert Listed(records[..i + 1], CaseId) == Listed(records[..i], CaseId) + [CaseId(records[i])];
    AppendDistinct(Listed(records[..i], CaseId), CaseId(records[i]));
  }

  method CheckRecords(records: seq<Record>, coin: (int, string) -> bool) returns (findings: seq<Finding>)
    requires records != []
    ensures findings == [] <==> RecordsOk(records, coin) && CaseIdsDiffer(records) && OneSetting(records)
  {
    hide RecordOk, RecordsOk, CaseIdsDiffer, OneSetting, Members, Listed;
    var caseIds: set<string>, configs: set<string>, originals: set<string>, optimized: set<string> := {}, {}, {}, {};
    findings := [];
    NoRecordsYet(coin);
    for i := 0 to |records|
      invariant findings == [] <==> RecordsOk(records[..i], coin) && CaseIdsDiffer(records[..i])
      invariant caseIds == Members(Listed(records[..i], CaseId)) && configs == Members(Listed(records[..i], ConfigOf))
      invariant originals == Members(Listed(records[..i], OriginalOf))
      invariant optimized == Members(Listed(records[..i], OptimizedOf))
    {
      OneMoreRecord(records, coin, i);
      MembersAppend(records, i, CaseId);
      MembersAppend(records, i, ConfigOf);
      MembersAppend(records, i, OriginalOf);
      MembersAppend(records, i, OptimizedOf);
      if CaseId(records[i]) in caseIds {
        findings := findings + [CaseIdInvalid];
      }
      caseIds := caseIds + {CaseId(records[i])};
      var ok := CheckRecord(records[i], coin);
      if !ok {
        findings := findings + [RecordInvalid];
      }
      configs, originals := configs + {ConfigOf(records[i])}, originals + {OriginalOf(records[i])};
      optimized := optimized + {OptimizedOf(records[i])};
    }
    assert records[..|records|] == records;
    SettingsTell(records);
    if |configs| != 1 {
      findings := findings + [ConfigsDiffer];
    }
    if |originals| != 1 || |optimized| != 1 {
      findings := findings + [PromptsDiffer];
    }
  }

  lemma NoRecordsYet(coin: (int, string) -> bool)
    ensures RecordsOk([], coin) && CaseIdsDiffer([])
    ensures Members(Listed([], CaseId)) == {} && Members(Listed([], ConfigOf)) == {}
    ensures Members(Listed([], OriginalOf)) == {} && Members(Listed([], OptimizedOf)) == {}
  {
  }

  method CountFeature(records: seq<Record>, feature: Feature) returns (n: nat)
    ensures n == Count(records, feature)
  {
    n := 0;
    for i := 0 to |records|
      invariant n == Count(records[..i], feature)
    {
      assert records[..i + 1][..i] == records[..i];
      if Shows(records[i], feature) {
        n := n + 1;
      }
    }
    assert records[..|records|] == records;
  }

  /** The evaluation validator: it finds nothing exactly in the valid evaluations. */
  method ValidateEvaluation(result: Result, coin: (int, string) -> bool) returns (findings: seq<Finding>)
    ensures findings == [] <==> EvaluationValid(result, coin)
  {
    var body := result.body;
    findings := [];
    if body.suiteId == "" {
      findings := findings + [SuiteIdEmpty];
    }
    if result.hash != ResultHashOf(body) {
      findings := findings + [ResultHashMismatch];
    }
    if body.records == [] {
      return findings + [NoRecords];
    }
    hide RecordOk, CaseIdsDiffer, OneSetting, Shows;
    var inRecords := CheckRecords(body.records, coin);
    findings := findings + inRecords;
    var wins := CountFeature(body.records, Ended(Win));
    var ties := CountFeature(body.records, Ended(Tie));
    var losses := CountFeature(body.records, Ended(Loss));
    var criticals := CountFeature(body.records, Regressed);
    var fatals := CountFeature(body.records, Flawed);
    var hardFailures := CountFeature(body.records, HardFailed);
    hide Count;
    var gate := |body.records| >= 5 && wins > losses && criticals == 0 && fatals == 0 && hardFailures == 0;
    if body.caseCount != |body.records| || body.wins != wins || body.ties != ties || body.losses != losses
       || body.criticalRegressions != criticals || body.fatalFlaws != fatals
       || body.optimizedHardFailures != hardFailures || body.gatePassed != gate {
      findings := findings + [AggregateMismatch];
    }
    if body.evidence != InferEvidence(|body.records|, gate) {
      findings := findings + [EvidenceMismatch];
    }
    if body.repeated {
      findings := findings + [RepetitionClaimed];
    }
  }

  // What the maker produces.

  /** The judges' names are only looked at when they were asked. */
  predicate Attributable(trial: Trial) {
    AllPass(trial.optimizedChecks) ==> forall i :: 0 <= i < |trial.answers| ==> trial.answers[i].judge != ""
  }

  lemma RecordForOk(setup: Setup, trial: Trial)
    requires TrialOk(trial)
    ensures RecordOk(RecordFor(setup, trial), setup.coin) <==>
      setup.executor != "" && trial.testCase.Recordable() && Attributable(trial)
  {
    hide Verdict, AllPass, Blank;
    NotBlankNotEmpty(trial.testCase.id);
  }

  lemma NotBlankNotEmpty(text: string)
    requires !Blank(text)
    ensures text != ""
  {
  }

  /** Every suite result is accepted by the validator exactly when the case ids differ and the texts
      that only the validator looks at are there. */
  lemma SuiteAccepted(setup: Setup, trials: seq<Trial>, result: Result)
    requires SuiteOk(setup, trials)
    requires result.body == Summarized(setup.suiteId, RecordsFor(setup, trials)) && result.hash == ResultHashOf(result.body)
    ensures EvaluationValid(result, setup.coin) <==>
      && (forall i, j :: 0 <= i < j < |trials| ==> trials[i].testCase.id != trials[j].testCase.id)
      && setup.executor != ""
      && (forall i :: 0 <= i < |trials| ==> trials[i].testCase.Recordable() && Attributable(trials[i]))
  {
    var records := RecordsFor(setup, trials);
    NotBlankNotEmpty(setup.suiteId);
    hide RecordOk, TrialOk, Attributable, Case.Recordable, Gate, Count, Blank;
    forall i | 0 <= i < |trials|
      ensures CaseId(records[i]) == trials[i].testCase.id
      ensures RecordOk(records[i], setup.coin) <==>
        setup.executor != "" && trials[i].testCase.Recordable() && Attributable(trials[i])
    {
      RecordForOk(setup, trials[i]);
    }
    SameSettings(setup, trials);
    IdsDiffer(setup, trials);
    hide CaseIdsDiffer, OneSetting;
  }

  function MadeResult(setup: Setup, trials: seq<Trial>): Result {
    var body := Summarized(setup.suiteId, RecordsFor(setup, trials));
    Result(body, ResultHashOf(body))
  }

  function FairCoin(seed: int, id: string): bool {
    true
  }

  function SomeSetup(executor: string): Setup {
    Setup("suite", executor, "c", "p", "q", 0, FairCoin)
  }

  function SomeTrial(item: string): Trial {
    var decision := Decision("judge", ChoseA, "reason", false, false);
    Trial(Case("case", "domain", "normal", [item], None, "sha"), "x", "y", [], [], [decision, decision])
  }

  lemma Visible(text: string)
    requires text != "" && 'a' <= text[0] <= 'z'
    ensures !Blank(text)
  {
    assert text[0] in text && !IsSpace(text[0]);
  }

  lemma SomeSuiteMade(executor: string, item: string)
    ensures SuiteOk(SomeSetup(executor), [SomeTrial(item)])
  {
    Visible("suite");
    Visible("case");
    Visible("x");
    Visible("y");
    Visible("reason");
    hide Blank, AllPass;
  }

  lemma SomeSuiteAccepted(executor: string, item: string)
    ensures EvaluationValid(MadeResult(SomeSetup(executor), [SomeTrial(item)]), FairCoin)
      <==> executor != "" && item != ""
  {
    var setup, trial := SomeSetup(executor), SomeTrial(item);
    SomeSuiteMade(executor, item);
    hide EvaluationValid, Summarized, RecordsFor, SuiteOk, AllPass;
    SuiteAccepted(setup, [trial], MadeResult(setup, [trial]));
    assert [trial][0] == trial && trial.testCase.rubric[0] == item;
    assert trial.testCase.domain == "domain" && forall k :: 0 <= k < |trial.answers| ==> trial.answers[k].judge == "judge";
  }

  /** Two suites that the maker completes and the validator rejects: one whose executor has no name,
      and one whose rubric has an empty item. With both texts given the same suite is accepted. */
  lemma MadeButRejected() returns (unnamed: Setup, named: Setup, trial: Trial, empty: Trial)
    ensures SuiteOk(unnamed, [trial]) && !EvaluationValid(MadeResult(unnamed, [trial]), unnamed.coin)
    ensures SuiteOk(named, [empty]) && !EvaluationValid(MadeResult(named, [empty]), named.coin)
    ensures EvaluationValid(MadeResult(named, [trial]), named.coin)
  {
    unnamed, named, trial, empty := SomeSetup(""), SomeSetup("executor"), SomeTrial("item"), SomeTrial("");
    hide EvaluationValid, MadeResult, SuiteOk, SomeTrial;
    SomeSuiteMade("", "item");
    SomeSuiteMade("executor", "");
    SomeSuiteAccepted("", "item");
    SomeSuiteAccepted("executor", "");
    SomeSuiteAccepted("executor", "item");
  }

  lemma RecordKeys(setup: Setup, trial: Trial)
    ensures CaseId(RecordFor(setup, trial)) == trial.testCase.id
    ensures ConfigOf(RecordFor(setup, trial)) == setup.configSha
    ensures OriginalOf(RecordFor(setup, trial)) == setup.originalSha
    ensures OptimizedOf(RecordFor(setup, trial)) == setup.optimizedSha
  {
  }

  lemma SameSettings(setup: Setup, trials: seq<Trial>)
    ensures OneSetting(RecordsFor(setup, trials))
  {
    hide RecordFor, ConfigOf, OriginalOf, OptimizedOf;
    var records := RecordsFor(setup, trials);
    forall i | 0 <= i < |trials|
      ensures Listed(records, ConfigOf)[i] == setup.configSha
      ensures Listed(records, OriginalOf)[i] == setup.originalSha
      ensures Listed(records, OptimizedOf)[i] == setup.optimizedSha
    {
      RecordKeys(setup, trials[i]);
    }
  }

  lemma IdsDiffer(setup: Setup, trials: seq<Trial>)
    ensures CaseIdsDiffer(RecordsFor(setup, trials)) <==>
      forall i, j :: 0 <= i < j < |trials| ==> trials[i].testCase.id != trials[j].testCase.id
  {
    hide RecordFor, CaseId;
    var ids := Listed(RecordsFor(setup, trials), CaseId);
    forall i | 0 <= i < |trials| ensures ids[i] == trials[i].testCase.id {
      RecordKeys(setup, trials[i]);
    }
    if forall i, j :: 0 <= i < j < |trials| ==> trials[i].testCase.id != trials[j].testCase.id {
      assert NoDuplicates(ids);
    } else {
      var i, j :| 0 <= i < j < |trials| && trials[i].testCase.id == trials[j].testCase.id;
      assert ids[i] == ids[j];
    }
  }
}
